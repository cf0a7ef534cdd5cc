/** expandStartup of ptero-wings-controller/startup.go: repeated replacement of {{NAME}} holes
    in the unspecified order in which Go walks a map. */
module Expansion {

  function Marker(key: string): (s: string)
    ensures |s| == |key| + 4
  {
    "{{" + key + "}}"
  }

  /** strings.ReplaceAll for a nonempty pattern: leftmost, non-overlapping occurrences. */
  function ReplaceAll(s: string, old_: string, new_: string): (r: string)
    requires |old_| >= 1
    decreases |s|
  {
    if |s| < |old_| then s
    else if s[..|old_|] == old_ then new_ + ReplaceAll(s[|old_|..], old_, new_)
    else [s[0]] + ReplaceAll(s[1..], old_, new_)
  }

  function ExpandInOrder(s: string, order: seq<string>, vars: map<string, string>): (r: string)
    requires forall k | k in order :: k in vars
    decreases |order|
  {
    if order == [] then s
    else
      var k := order[0];
      assert k in order && forall j | j in order[1..] :: j in order;
      ExpandInOrder(ReplaceAll(s, Marker(k), vars[k]), order[1..], vars)
  }

  /** One way to walk the whole map: every key once. */
  ghost predicate IsOrder(order: seq<string>, vars: map<string, string>) {
    && (forall k | k in order :: k in vars)
    && (forall k | k in vars :: k in order)
    && (forall i, j | 0 <= i < j < |order| :: order[i] != order[j])
  }

  method ExpandStartup(raw: string, vars: map<string, string>) returns (replaced: string)
    ensures exists order :: IsOrder(order, vars) && replaced == ExpandInOrder(raw, order, vars)
  {
    replaced := raw;
    var left := vars.Keys;
    ghost var walked: seq<string> := [];
    while left != {}
      invariant left <= vars.Keys
      invariant forall k | k in vars :: k in left || k in walked
      invariant forall k | k in walked :: k in vars && k !in left
      invariant forall i, j | 0 <= i < j < |walked| :: walked[i] != walked[j]
      invariant replaced == ExpandInOrder(raw, walked, vars)
    {
      var key :| key in left;
      ExpandSnoc(raw, walked, key, vars);
      replaced := ReplaceAll(replaced, Marker(key), vars[key]);
      left := left - {key};
      walked := walked + [key];
    }
  }

  lemma {:induction false} ExpandSnoc(s: string, order: seq<string>, key: string, vars: map<string, string>)
    requires key in vars && forall k | k in order :: k in vars
    ensures ExpandInOrder(s, order + [key], vars) ==
            ReplaceAll(ExpandInOrder(s, order, vars), Marker(key), vars[key])
    decreases |order|
  {
    if order == [] {
      assert (order + [key])[1..] == [];
    } else {
      assert order[0] in order && forall j | j in order[1..] :: j in order;
      assert (order + [key])[1..] == order[1..] + [key];
      ExpandSnoc(ReplaceAll(s, Marker(order[0]), vars[order[0]]), order[1..], key, vars);
    }
  }

  // ---------------------------------------------------------------- templates

  /** A startup template: literal text and holes. */
  datatype Part = Text(s: string) | Hole(name: string)

  predicate BraceFree(s: string) {
    '{' !in s && '}' !in s
  }

  /** Text in which no marker can begin: every opening brace is followed by another character. */
  predicate NoMarkerBegins(s: string) {
    forall i | 0 <= i < |s| && s[i] == '{' :: i + 1 < |s| && s[i + 1] != '{'
  }

  /** A part under some bindings: bound holes show their value, the others stay as they are. */
  function ShowPart(p: Part, vars: map<string, string>): (s: string) {
    match p
    case Text(s) => s
    case Hole(n) => if n in vars then vars[n] else Marker(n)
  }

  /** Simultaneous substitution. With no bindings it is the template as the user wrote it. */
  function Show(t: seq<Part>, vars: map<string, string>): (s: string) {
    if t == [] then "" else ShowPart(t[0], vars) + Show(t[1..], vars)
  }

  predicate CleanPart(p: Part, vars: map<string, string>) {
    match p
    case Text(s) => NoMarkerBegins(s)
    case Hole(n) => BraceFree(n) && (n in vars ==> NoMarkerBegins(vars[n]))
  }

  /** No marker begins in the text or in the values that fill holes of this template, and names have
      no braces. Single braces as in ${X} or in JSON are fine. */
  predicate Clean(t: seq<Part>, vars: map<string, string>) {
    && (forall p | p in t :: CleanPart(p, vars))
    && (forall k | k in vars :: BraceFree(k))
  }

  // ---------------------------------------------------------------- replacement in a template

  /** No match begins at the first character of such a text. */
  lemma {:induction false} NoMatchHere(s: string, rest: string, key: string)
    requires s != "" && NoMarkerBegins(s)
    ensures !(Marker(key) <= s + rest)
  {
    var m := Marker(key);
    assert m[0] == '{' && m[1] == '{';
    assert (s + rest)[0] == s[0];
    assert s[0] == '{' ==> (s + rest)[1] == s[1];
  }

  lemma {:induction false} TailKeeps(s: string)
    requires s != "" && NoMarkerBegins(s)
    ensures NoMarkerBegins(s[1..])
  {
    assert forall i | 0 <= i < |s| - 1 :: s[1..][i] == s[i + 1];
  }

  lemma {:induction false} ReplaceSkips(s: string, rest: string, key: string, v: string)
    requires NoMarkerBegins(s)
    ensures ReplaceAll(s + rest, Marker(key), v) == s + ReplaceAll(rest, Marker(key), v)
    decreases |s|
  {
    if s == "" {
      assert s + rest == rest;
    } else {
      var r := ReplaceAll(rest, Marker(key), v);
      NoMatchHere(s, rest, key);
      TailKeeps(s);
      calc {
        ReplaceAll(s + rest, Marker(key), v);
        { ReplaceStep(s + rest, key, v); assert (s + rest)[0] == s[0] && (s + rest)[1..] == s[1..] + rest; }
        [s[0]] + ReplaceAll(s[1..] + rest, Marker(key), v);
        { ReplaceSkips(s[1..], rest, key, v); }
        [s[0]] + (s[1..] + r);
        { assert [s[0]] + (s[1..] + r) == s + r; }
        s + r;
      }
    }
  }

  lemma {:induction false} ReplaceHit(rest: string, key: string, v: string)
    ensures ReplaceAll(Marker(key) + rest, Marker(key), v) == v + ReplaceAll(rest, Marker(key), v)
  {
  }

  /** A different hole does not match, neither at its first nor at its second brace. */
  lemma {:induction false} MarkersDiffer(n: string, rest: string, key: string)
    requires BraceFree(n) && BraceFree(key) && n != key
    ensures !(Marker(key) <= Marker(n) + rest)
    ensures !(Marker(key) <= "{" + n + "}}" + rest)
  {
    var m, all := Marker(key), Marker(n) + rest;
    assert forall i | 0 <= i < |n| :: all[i + 2] == n[i] && n[i] in n;
    assert forall i | 0 <= i < |key| :: m[i + 2] == key[i] && key[i] in key;
    if |key| < |n| {
      assert m[|key| + 2] == '}' && all[|key| + 2] != '}';
    } else if |n| < |key| {
      assert m[|n| + 2] != '}' && all[|n| + 2] == '}';
    } else {
      var i :| 0 <= i < |n| && n[i] != key[i];
      assert m[i + 2] != all[i + 2];
    }
    var second := "{" + n + "}}" + rest;
    assert m[1] == '{';
    assert second[1] == if n == "" then '}' else n[0];
    assert n != "" ==> n[0] in n;
  }

  lemma {:induction false} ReplaceMiss(n: string, rest: string, key: string, v: string)
    requires BraceFree(n) && BraceFree(key) && n != key
    ensures ReplaceAll(Marker(n) + rest, Marker(key), v) == Marker(n) + ReplaceAll(rest, Marker(key), v)
  {
    var m := Marker(key);
    MarkersDiffer(n, rest, key);
    var first, second, third := Marker(n) + rest, "{" + n + "}}" + rest, n + "}}" + rest;
    calc {
      ReplaceAll(first, m, v);
      { assert first[0] == '{' && first[1..] == second; ReplaceStep(first, key, v); }
      "{" + ReplaceAll(second, m, v);
      { assert second[0] == '{' && second[1..] == third; ReplaceStep(second, key, v); }
      "{" + ("{" + ReplaceAll(third, m, v));
      { ReplaceSkips(n + "}}", rest, key, v); }
      "{" + ("{" + (n + "}}" + ReplaceAll(rest, m, v)));
      Marker(n) + ReplaceAll(rest, m, v);
    }
  }

  lemma {:induction false} ReplaceStep(s: string, key: string, v: string)
    requires s != "" && !(Marker(key) <= s)
    ensures ReplaceAll(s, Marker(key), v) == [s[0]] + ReplaceAll(s[1..], Marker(key), v)
  {
  }

  /** Replacing one name in a partly filled template fills exactly that name. */
  lemma {:induction false} ReplaceShown(t: seq<Part>, done: map<string, string>, key: string, v: string)
    requires key !in done && BraceFree(key) && forall p | p in t :: CleanPart(p, done)
    ensures ReplaceAll(Show(t, done), Marker(key), v) == Show(t, done[key := v])
    decreases |t|
  {
    if t != [] {
      var p, rest := t[0], Show(t[1..], done);
      assert p in t && forall q | q in t[1..] :: q in t;
      ReplaceShown(t[1..], done, key, v);
      match p
      case Text(s) => ReplaceSkips(s, rest, key, v);
      case Hole(n) =>
        if n in done {
          ReplaceSkips(done[n], rest, key, v);
        } else if n == key {
          ReplaceHit(rest, key, v);
        } else {
          ReplaceMiss(n, rest, key, v);
        }
    }
  }

  /** The bindings already replaced after some keys of the map. */
  function Bound(done: map<string, string>, order: seq<string>, vars: map<string, string>): (m: map<string, string>)
    requires forall k | k in order :: k in vars
    ensures forall k :: k in m <==> k in done || k in order
    ensures forall k | k in m :: m[k] == if k in order then vars[k] else done[k]
    decreases |order|
  {
    if order == [] then done
    else
      assert order[0] in order && forall j | j in order[1..] :: j in order;
      assert forall j | j in order :: j == order[0] || j in order[1..];
      Bound(done[order[0] := vars[order[0]]], order[1..], vars)
  }

  lemma {:induction false} ExpandShown(t: seq<Part>, done: map<string, string>, order: seq<string>, vars: map<string, string>)
    requires Clean(t, vars) && forall p | p in t :: CleanPart(p, done)
    requires forall k | k in order :: k in vars && k !in done
    requires forall i, j | 0 <= i < j < |order| :: order[i] != order[j]
    ensures ExpandInOrder(Show(t, done), order, vars) == Show(t, Bound(done, order, vars))
    decreases |order|
  {
    if order != [] {
      var k, rest := order[0], order[1..];
      assert k in order && forall j | j in rest :: j in order;
      ReplaceShown(t, done, k, vars[k]);
      var done' := done[k := vars[k]];
      forall p | p in t ensures CleanPart(p, done') {
        assert CleanPart(p, vars) && CleanPart(p, done);
      }
      ExpandShown(t, done', rest, vars);
    }
  }

  lemma {:induction false} BoundAll(order: seq<string>, vars: map<string, string>)
    requires IsOrder(order, vars)
    ensures Bound(map[], order, vars) == vars
  {
  }

  /** For every order of the map, expansion of a clean template is simultaneous substitution,
      and holes without a binding stay as they are. */
  lemma {:induction false} Confluence(t: seq<Part>, vars: map<string, string>, order: seq<string>)
    requires Clean(t, vars) && IsOrder(order, vars)
    ensures ExpandInOrder(Show(t, map[]), order, vars) == Show(t, vars)
  {
    ExpandShown(t, map[], order, vars);
    BoundAll(order, vars);
  }

  /** A brace in front of two more braces is never the start of a match. */
  lemma {:induction false} SkipBrace(s: string, key: string, v: string)
    requires BraceFree(key) && |s| >= 3 && s[..3] == "{{{"
    ensures ReplaceAll(s, Marker(key), v) == "{" + ReplaceAll(s[1..], Marker(key), v)
  {
    assert s[2] == s[..3][2] == '{' && s[0] == s[..3][0];
    assert Marker(key)[2] == if key == "" then '}' else key[0];
    assert key != "" ==> key[0] in key;
    ReplaceStep(s, key, v);
  }

  /** A template whose hole encloses another hole: "{{" + "{{inner}}" + tail. */
  lemma {:induction false} ReplaceInner(inner: string, tail: string, v: string)
    requires BraceFree(inner) && '{' !in tail
    ensures ReplaceAll("{{" + Marker(inner) + tail, Marker(inner), v) == "{{" + v + tail
  {
    var hole := Marker(inner) + tail;
    var s := "{{" + Marker(inner) + tail;
    assert s[..3] == "{{{" && s[1..] == "{" + hole && s[1..][..3] == "{{{" && s[1..][1..] == hole;
    SkipBrace(s, inner, v);
    SkipBrace(s[1..], inner, v);
    ReplaceHit(tail, inner, v);
    ReplaceSkips(tail, "", inner, v);
    assert tail + "" == tail;
  }

  lemma {:induction false} ReplaceOuterMisses(inner: string, tail: string, key: string, v: string)
    requires BraceFree(inner) && BraceFree(key) && inner != key && '{' !in tail
    ensures ReplaceAll("{{" + Marker(inner) + tail, Marker(key), v) == "{{" + Marker(inner) + tail
  {
    var hole := Marker(inner) + tail;
    var s := "{{" + Marker(inner) + tail;
    assert s[..3] == "{{{" && s[1..] == "{" + hole && s[1..][..3] == "{{{" && s[1..][1..] == hole;
    SkipBrace(s, key, v);
    SkipBrace(s[1..], key, v);
    ReplaceMiss(inner, tail, key, v);
    ReplaceSkips(tail, "", key, v);
    assert tail + "" == tail;
  }

  lemma {:induction false} ExpandTwo(s: string, k1: string, k2: string, vars: map<string, string>)
    requires k1 in vars && k2 in vars
    ensures ExpandInOrder(s, [k1, k2], vars) ==
            ReplaceAll(ReplaceAll(s, Marker(k1), vars[k1]), Marker(k2), vars[k2])
  {
    ExpandSnoc(s, [k1], k2, vars);
    ExpandSnoc(s, [], k1, vars);
    assert [k1] + [k2] == [k1, k2] && [] + [k1] == [k1];
  }

  function Nested(inner: string, tail: string): (raw: string) {
    "{{" + Marker(inner) + (tail + "}}")
  }

  /** The outer hole matters only once the inner one is filled, and then only if it is the bound name. */
  lemma {:induction false} NestedFirst(a: string, x: string, tail: string, b: string, y: string)
    requires BraceFree(a) && BraceFree(x) && BraceFree(tail) && BraceFree(b) && a != b
    ensures ExpandInOrder(Nested(a, tail), [a, b], map[a := x, b := y]) == if b == x + tail then y else Marker(x + tail)
  {
    ReplaceInner(a, tail + "}}", x);
    assert "{{" + x + (tail + "}}") == Marker(x + tail);
    ExpandTwo(Nested(a, tail), a, b, map[a := x, b := y]);
    assert Marker(x + tail) + "" == Marker(x + tail) && y + "" == y;
    if b == x + tail {
      ReplaceHit("", b, y);
    } else {
      ReplaceMiss(x + tail, "", b, y);
    }
  }

  lemma {:induction false} NestedLast(a: string, x: string, tail: string, b: string, y: string)
    requires BraceFree(a) && BraceFree(x) && BraceFree(tail) && BraceFree(b) && a != b
    ensures ExpandInOrder(Nested(a, tail), [b, a], map[a := x, b := y]) == Marker(x + tail)
  {
    ReplaceOuterMisses(a, tail + "}}", b, y);
    ReplaceInner(a, tail + "}}", x);
    assert "{{" + x + (tail + "}}") == Marker(x + tail);
    ExpandTwo(Nested(a, tail), b, a, map[a := x, b := y]);
  }

  /** A hole inside a hole makes the result depend on the order of the map exactly when the filled inner
      hole completes the name of the other variable (and its value is not that very hole). */
  lemma {:induction false} NestedHolesAreOrderDependent(a: string, x: string, tail: string, b: string, y: string)
    requires BraceFree(a) && BraceFree(x) && BraceFree(tail) && BraceFree(b) && a != b
    ensures var vars := map[a := x, b := y];
            && IsOrder([a, b], vars) && IsOrder([b, a], vars)
            && (ExpandInOrder(Nested(a, tail), [a, b], vars) == ExpandInOrder(Nested(a, tail), [b, a], vars) <==>
                b != x + tail || y == Marker(b))
  {
    NestedFirst(a, x, tail, b, y);
    NestedLast(a, x, tail, b, y);
  }
}
