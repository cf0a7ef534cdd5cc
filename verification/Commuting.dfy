/** Expanding variables and splitting into arguments commute: values cannot move argument boundaries. */
module Commuting {
  import opened Core
  import opened Tokenizer
  import opened Expansion

  predicate PlainText(s: string) {
    forall c | c in s :: Plain(c)
  }

  /** Names are plain; the value of a bound hole is nonempty and plain. */
  predicate SafePart(p: Part, vars: map<string, string>) {
    p.Hole? ==> PlainText(p.name) && (p.name in vars ==> vars[p.name] != "" && PlainText(vars[p.name]))
  }

  predicate Safe(t: seq<Part>, vars: map<string, string>) {
    forall p | p in t :: SafePart(p, vars)
  }

  // ---------------------------------------------------------------- splitting a template itself

  /** The tokenizer on templates: holes are indivisible characters. */
  datatype TemplateLexer =
    TemplateLexer(tokens: seq<seq<Part>>, current: seq<Part>, quote: Option<char>, escaped: bool)

  const TEMPLATE_START := TemplateLexer([], [], None, false)

  function TemplateFlush(l: TemplateLexer): (r: TemplateLexer) {
    if |l.current| > 0 then l.(tokens := l.tokens + [l.current], current := []) else l
  }

  function TemplateWrite(l: TemplateLexer, p: Part): (r: TemplateLexer) {
    l.(current := l.current + [p], escaped := false)
  }

  function TemplateFeed(l: TemplateLexer, c: char): (r: TemplateLexer) {
    if l.escaped then TemplateWrite(l, Part.Text([c]))
    else if c == '\\' then l.(escaped := true)
    else if l.quote.Some? then
      if c == l.quote.value then l.(quote := None) else TemplateWrite(l, Part.Text([c]))
    else if IsQuote(c) then l.(quote := Some(c))
    else if IsSpace(c) then TemplateFlush(l)
    else TemplateWrite(l, Part.Text([c]))
  }

  function TemplateScanText(l: TemplateLexer, s: string): (r: TemplateLexer)
    decreases |s|
  {
    if s == "" then l else TemplateScanText(TemplateFeed(l, s[0]), s[1..])
  }

  function TemplateStep(l: TemplateLexer, p: Part): (r: TemplateLexer) {
    match p
    case Text(s) => TemplateScanText(l, s)
    case Hole(n) => TemplateWrite(l, p)
  }

  function TemplateScan(l: TemplateLexer, t: seq<Part>): (r: TemplateLexer)
    decreases |t|
  {
    if t == [] then l else TemplateScan(TemplateStep(l, t[0]), t[1..])
  }

  // ---------------------------------------------------------------- both string lexers follow it

  function ShowAll(ts: seq<seq<Part>>, vars: map<string, string>): (r: seq<string>)
    ensures |r| == |ts|
    ensures forall i | 0 <= i < |ts| :: r[i] == Show(ts[i], vars)
  {
    seq(|ts|, i requires 0 <= i < |ts| => Show(ts[i], vars))
  }

  function View(l: TemplateLexer, vars: map<string, string>): (r: Lexer) {
    Lexer(ShowAll(l.tokens, vars), Show(l.current, vars), l.quote, l.escaped)
  }

  /** Parts that show at least one character. */
  predicate Solid(t: seq<Part>, vars: map<string, string>) {
    forall p | p in t :: ShowPart(p, vars) != ""
  }

  lemma {:induction false} ShowSnoc(t: seq<Part>, p: Part, vars: map<string, string>)
    ensures Show(t + [p], vars) == Show(t, vars) + ShowPart(p, vars)
    decreases |t|
  {
    if t == [] {
      assert (t + [p])[1..] == [] && t + [p] == [p];
      assert ShowPart(p, vars) + "" == "" + ShowPart(p, vars);
    } else {
      assert (t + [p])[1..] == t[1..] + [p];
      ShowSnoc(t[1..], p, vars);
      assert ShowPart(t[0], vars) + (Show(t[1..], vars) + ShowPart(p, vars)) == Show(t, vars) + ShowPart(p, vars);
    }
  }

  lemma {:induction false} ViewFlush(l: TemplateLexer, vars: map<string, string>)
    requires Solid(l.current, vars)
    ensures View(TemplateFlush(l), vars) == Flush(View(l, vars))
  {
  }

  lemma {:induction false} ViewWrite(l: TemplateLexer, p: Part, vars: map<string, string>)
    requires Solid(l.current, vars) && ShowPart(p, vars) != ""
    ensures View(TemplateWrite(l, p), vars) ==
            View(l, vars).(current := View(l, vars).current + ShowPart(p, vars), escaped := false)
    ensures Solid(TemplateWrite(l, p).current, vars)
  {
    ShowSnoc(l.current, p, vars);
  }

  lemma {:induction false} ViewFeed(l: TemplateLexer, c: char, vars: map<string, string>)
    requires Solid(l.current, vars)
    ensures View(TemplateFeed(l, c), vars) == Feed(View(l, vars), c)
    ensures Solid(TemplateFeed(l, c).current, vars)
  {
    ViewWrite(l, Part.Text([c]), vars);
    ViewFlush(l, vars);
  }

  lemma {:induction false} ViewText(l: TemplateLexer, s: string, vars: map<string, string>)
    requires Solid(l.current, vars)
    ensures View(TemplateScanText(l, s), vars) == Scan(View(l, vars), s)
    ensures Solid(TemplateScanText(l, s).current, vars)
    decreases |s|
  {
    if s != "" {
      ViewFeed(l, s[0], vars);
      ViewText(TemplateFeed(l, s[0]), s[1..], vars);
    }
  }

  /** Whatever the state, nonempty plain text is written in full. */
  lemma {:induction false} ScanPlainAnywhere(l: Lexer, s: string)
    requires s != "" && PlainText(s) && (l.quote.Some? ==> IsQuote(l.quote.value))
    ensures Scan(l, s) == l.(current := l.current + s, escaped := false)
  {
    var next := Feed(l, s[0]);
    assert s[0] in s && forall c | c in s[1..] :: c in s;
    assert next == l.(current := l.current + [s[0]], escaped := false);
    ScanPlainUnescaped(next, s[1..]);
    assert l.current + [s[0]] + s[1..] == l.current + s;
  }

  lemma {:induction false} ScanPlainUnescaped(l: Lexer, s: string)
    requires PlainText(s) && !l.escaped && (l.quote.Some? ==> IsQuote(l.quote.value))
    ensures Scan(l, s) == l.(current := l.current + s)
    decreases |s|
  {
    if s == "" {
      assert l.current + s == l.current;
    } else {
      assert s[0] in s && forall c | c in s[1..] :: c in s;
      ScanPlainUnescaped(Feed(l, s[0]), s[1..]);
      assert l.current + [s[0]] + s[1..] == l.current + s;
    }
  }

  lemma {:induction false} ShownHoleIsPlain(p: Part, vars: map<string, string>)
    requires p.Hole? && SafePart(p, vars)
    ensures ShowPart(p, vars) != "" && PlainText(ShowPart(p, vars))
  {
  }

  predicate QuoteKnown(l: TemplateLexer) {
    l.quote.Some? ==> IsQuote(l.quote.value)
  }

  lemma {:induction false} TextKeepsQuote(l: TemplateLexer, s: string)
    requires QuoteKnown(l)
    ensures QuoteKnown(TemplateScanText(l, s))
    decreases |s|
  {
    if s != "" {
      TextKeepsQuote(TemplateFeed(l, s[0]), s[1..]);
    }
  }

  lemma {:induction false} ViewScan(l: TemplateLexer, t: seq<Part>, vars: map<string, string>)
    requires Solid(l.current, vars) && QuoteKnown(l) && Safe(t, vars)
    ensures View(TemplateScan(l, t), vars) == Scan(View(l, vars), Show(t, vars))
    ensures Solid(TemplateScan(l, t).current, vars)
    decreases |t|
  {
    if t != [] {
      var p := t[0];
      assert p in t && forall q | q in t[1..] :: q in t;
      ScanConcat(View(l, vars), ShowPart(p, vars), Show(t[1..], vars));
      match p {
        case Text(s) =>
          ViewText(l, s, vars);
          TextKeepsQuote(l, s);
        case Hole(n) =>
          ShownHoleIsPlain(p, vars);
          ViewWrite(l, p, vars);
          ScanPlainAnywhere(View(l, vars), ShowPart(p, vars));
      }
      ViewScan(TemplateStep(l, p), t[1..], vars);
    }
  }

  /** The tokens of a template, or the error that splitting it reports. */
  function TemplateSplit(t: seq<Part>): (r: Result<seq<seq<Part>>>) {
    var l := TemplateScan(TEMPLATE_START, t);
    if l.escaped then Err("unterminated escape in startup command")
    else if l.quote.Some? then Err("unterminated quote in startup command")
    else Ok(TemplateFlush(l).tokens)
  }

  /** Splitting a shown template shows the split template, under any safe bindings. */
  lemma {:induction false} SplitShown(t: seq<Part>, vars: map<string, string>)
    requires Safe(t, vars)
    ensures Split(Show(t, vars)).Ok? <==> TemplateSplit(t).Ok?
    ensures TemplateSplit(t).Ok? ==> Split(Show(t, vars)).value == ShowAll(TemplateSplit(t).value, vars)
    ensures TemplateSplit(t).Err? ==> Split(Show(t, vars)).message == TemplateSplit(t).message
  {
    ViewScan(TEMPLATE_START, t, vars);
    assert View(TEMPLATE_START, vars) == START;
    ViewFlush(TemplateScan(TEMPLATE_START, t), vars);
  }

  // ---------------------------------------------------------------- tokens are clean templates

  /** A part in front of a template; neighbouring texts become one. */
  function Prepend(p: Part, t: seq<Part>): (r: seq<Part>) {
    if p.Text? && t != [] && t[0].Text? then [Part.Text(p.s + t[0].s)] + t[1..] else [p] + t
  }

  /** The same template with its texts joined. */
  function Joined(t: seq<Part>): (r: seq<Part>) {
    if t == [] then [] else Prepend(t[0], Joined(t[1..]))
  }

  lemma {:induction false} PrependShows(p: Part, t: seq<Part>, vars: map<string, string>)
    ensures Show(Prepend(p, t), vars) == ShowPart(p, vars) + Show(t, vars)
  {
    if p.Text? && t != [] && t[0].Text? {
      assert ([Part.Text(p.s + t[0].s)] + t[1..])[1..] == t[1..];
      assert p.s + t[0].s + Show(t[1..], vars) == p.s + (t[0].s + Show(t[1..], vars));
    } else {
      assert ([p] + t)[1..] == t;
    }
  }

  lemma {:induction false} JoinedShows(t: seq<Part>, vars: map<string, string>)
    ensures Show(Joined(t), vars) == Show(t, vars)
    decreases |t|
  {
    if t != [] {
      JoinedShows(t[1..], vars);
      PrependShows(t[0], Joined(t[1..]), vars);
    }
  }

  /** After the split, no marker begins in the joined text of any token. Taking away a quote or an escape
      could put two braces together. */
  predicate TokensClean(t: seq<Part>, vars: map<string, string>) {
    TemplateSplit(t).Ok? ==> forall token | token in TemplateSplit(t).value :: Clean(Joined(token), vars)
  }

  /** Text without opening braces. */
  predicate OpensNothing(t: seq<Part>) {
    forall p | p in t && p.Text? :: '{' !in p.s
  }

  predicate FlatPart(p: Part, vars: map<string, string>) {
    CleanPart(p, vars) && (p.Text? ==> '{' !in p.s)
  }

  predicate FlatLexer(l: TemplateLexer, vars: map<string, string>) {
    && (forall p | p in l.current :: FlatPart(p, vars))
    && (forall i | 0 <= i < |l.tokens| :: forall p | p in l.tokens[i] :: FlatPart(p, vars))
  }

  lemma {:induction false} TextStaysFlat(l: TemplateLexer, s: string, vars: map<string, string>)
    requires FlatLexer(l, vars) && '{' !in s
    ensures FlatLexer(TemplateScanText(l, s), vars)
    decreases |s|
  {
    if s != "" {
      assert s[0] in s && forall c | c in s[1..] :: c in s;
      TextStaysFlat(TemplateFeed(l, s[0]), s[1..], vars);
    }
  }

  lemma {:induction false} ScanStaysFlat(l: TemplateLexer, t: seq<Part>, vars: map<string, string>)
    requires FlatLexer(l, vars) && OpensNothing(t) && forall p | p in t :: CleanPart(p, vars)
    ensures FlatLexer(TemplateScan(l, t), vars)
    decreases |t|
  {
    if t != [] {
      var p := t[0];
      assert p in t && forall q | q in t[1..] :: q in t;
      if p.Text? {
        TextStaysFlat(l, p.s, vars);
      }
      ScanStaysFlat(TemplateStep(l, p), t[1..], vars);
    }
  }

  lemma {:induction false} PrependStaysFlat(p: Part, t: seq<Part>, vars: map<string, string>)
    requires FlatPart(p, vars) && forall q | q in t :: FlatPart(q, vars)
    ensures forall q | q in Prepend(p, t) :: FlatPart(q, vars)
  {
    if p.Text? && t != [] && t[0].Text? {
      assert t[0] in t;
      var s := p.s + t[0].s;
      assert '{' !in s;
      assert forall i | 0 <= i < |s| :: s[i] in s;
      assert FlatPart(Part.Text(s), vars);
    }
  }

  lemma {:induction false} JoinedStaysFlat(t: seq<Part>, vars: map<string, string>)
    requires forall p | p in t :: FlatPart(p, vars)
    ensures forall p | p in Joined(t) :: FlatPart(p, vars)
    decreases |t|
  {
    if t != [] {
      assert t[0] in t && forall q | q in t[1..] :: q in t;
      JoinedStaysFlat(t[1..], vars);
      PrependStaysFlat(t[0], Joined(t[1..]), vars);
    }
  }

  /** A template whose text has no opening brace splits into clean tokens. */
  lemma {:induction false} OpensNothingIsEnough(t: seq<Part>, vars: map<string, string>)
    requires Clean(t, vars) && OpensNothing(t)
    ensures TokensClean(t, vars)
  {
    ScanStaysFlat(TEMPLATE_START, t, vars);
    if TemplateSplit(t).Ok? {
      var ts := TemplateSplit(t).value;
      forall token | token in ts ensures Clean(Joined(token), vars) {
        JoinedStaysFlat(token, vars);
      }
    }
  }

  // ---------------------------------------------------------------- the theorem

  lemma {:induction false} TokenExpands(token: seq<Part>, vars: map<string, string>, order: seq<string>)
    requires Clean(Joined(token), vars) && IsOrder(order, vars)
    ensures ExpandInOrder(Show(token, map[]), order, vars) == Show(token, vars)
  {
    JoinedShows(token, map[]);
    JoinedShows(token, vars);
    Confluence(Joined(token), vars, order);
  }

  /** Splitting the expanded command fails as splitting the raw one does; when they succeed,
      each argument is the expansion of the raw argument, whatever orders the maps are walked in. */
  lemma {:induction false} ExpansionCommutesWithSplitting(t: seq<Part>, vars: map<string, string>, order: seq<string>)
    requires Clean(t, vars) && TokensClean(t, vars) && Safe(t, vars) && IsOrder(order, vars)
    ensures var raw := Split(Show(t, map[]));
            var expanded := Split(ExpandInOrder(Show(t, map[]), order, vars));
            && (raw.Err? ==> expanded == raw)
            && (raw.Ok? ==>
                  && expanded.Ok? && |expanded.value| == |raw.value|
                  && forall i, order' | 0 <= i < |raw.value| && IsOrder(order', vars) ::
                       expanded.value[i] == ExpandInOrder(raw.value[i], order', vars))
  {
    Confluence(t, vars, order);
    assert Safe(t, map[]) by {
      assert forall p | p in t :: SafePart(p, vars);
    }
    SplitShown(t, vars);
    SplitShown(t, map[]);
    if TemplateSplit(t).Ok? {
      var ts := TemplateSplit(t).value;
      forall i, order' | 0 <= i < |ts| && IsOrder(order', vars)
        ensures Show(ts[i], vars) == ExpandInOrder(Show(ts[i], map[]), order', vars)
      {
        assert ts[i] in ts;
        TokenExpands(ts[i], vars, order');
      }
    }
  }

  lemma {:induction false} OneArgument(t: seq<Part>, vars: map<string, string>, order: seq<string>, raw: string)
    requires Clean(t, vars) && TokensClean(t, vars) && Safe(t, vars) && IsOrder(order, vars)
    requires Split(Show(t, map[])) == Ok([raw])
    ensures Split(ExpandInOrder(Show(t, map[]), order, vars)) == Ok([ExpandInOrder(raw, order, vars)])
  {
    ExpansionCommutesWithSplitting(t, vars, order);
    var expanded := Split(ExpandInOrder(Show(t, map[]), order, vars)).value;
    assert expanded == [expanded[0]];
  }

  /** A name behind an escaped brace. */
  function EscapedHole(name: string): (raw: string) {
    "{" + ("\\{" + (name + "}}"))
  }

  lemma {:induction false} ScanOpen(rest: string)
    ensures Scan(START, "{" + rest) == Scan(START.(current := "{"), rest)
  {
    assert "{" == ['{'] == "" + ['{'];
    assert Feed(START, '{') == START.(current := "{");
    ScanConcat(START, ['{'], rest);
    ScanOne(START, '{');
  }

  lemma {:induction false} ScanEscapedOpen(rest: string)
    ensures Scan(START.(current := "{"), "\\{" + rest) == Scan(START.(current := "{{"), rest)
  {
    var l := START.(current := "{");
    assert "\\{" == ['\\', '{'] && "{" + ['{'] == "{{";
    ScanConcat(l, ['\\', '{'], rest);
    ScanTwo(l, '\\', '{');
  }

  lemma {:induction false} SplitEscapedHole(name: string)
    requires PlainText(name)
    ensures Split(EscapedHole(name)) == Ok([Marker(name)])
  {
    var rest := name + "}}";
    assert Plain('}') && PlainText(rest);
    ScanOpen("\\{" + rest);
    ScanEscapedOpen(rest);
    ScanPlainUnescaped(START.(current := "{{"), rest);
    assert "{{" + rest == Marker(name);
    assert [] + [Marker(name)] == [Marker(name)];
  }

  lemma {:induction false} EscapedHoleIsClean(name: string, vars: map<string, string>)
    requires BraceFree(name) && name != "" && forall k | k in vars :: BraceFree(k)
    ensures Clean([Part.Text(EscapedHole(name))], vars)
  {
    assert forall i | 0 <= i < |name| :: name[i] in name;
  }

  lemma {:induction false} ShowOneText(s: string, vars: map<string, string>)
    ensures Show([Part.Text(s)], vars) == s
  {
  }

  lemma {:induction false} ExpandOneHole(name: string, v: string)
    ensures ExpandInOrder(Marker(name), [name], map[name := v]) == v
  {
    ExpandSnoc(Marker(name), [], name, map[name := v]);
    assert [] + [name] == [name] && Marker(name) + "" == Marker(name);
    ReplaceHit("", name, v);
  }

  /** Without clean tokens the law fails: the escape goes when the line is split, and what is left is a
      hole that expansion did not see before. */
  lemma {:induction false} EscapesCanAssembleAHole(name: string, v: string)
    requires BraceFree(name) && PlainText(name) && name != "" && v != Marker(name)
    ensures var t, vars := [Part.Text(EscapedHole(name))], map[name := v];
            && Clean(t, vars) && Safe(t, vars) && IsOrder([name], vars) && !TokensClean(t, vars)
            && Split(ExpandInOrder(Show(t, map[]), [name], vars)) == Split(Show(t, map[])) == Ok([Marker(name)])
            && ExpandInOrder(Marker(name), [name], vars) == v != Marker(name)
  {
    var t, vars := [Part.Text(EscapedHole(name))], map[name := v];
    SplitEscapedHole(name);
    EscapedHoleIsClean(name, vars);
    Confluence(t, vars, [name]);
    ShowOneText(EscapedHole(name), vars);
    ShowOneText(EscapedHole(name), map[]);
    ExpandOneHole(name, v);
    if TokensClean(t, vars) {
      OneArgument(t, vars, [name], Marker(name));
    }
  }

  lemma {:induction false} ShowOneHole(name: string, vars: map<string, string>)
    ensures Show([Hole(name)], vars) == ShowPart(Hole(name), vars)
  {
  }

  /** For one value, arguments keep their boundaries in the template that is just its
      hole exactly when the value is nonempty and plain: no weaker condition suffices. */
  lemma {:induction false} SafeValueIsNecessary(name: string, v: string)
    requires PlainText(name)
    ensures var vars := map[name := v];
            Split(Show([Hole(name)], vars)) == Ok([Show([Hole(name)], vars)]) <==> v != "" && PlainText(v)
    ensures Split(Show([Hole(name)], map[])) == Ok([Show([Hole(name)], map[])])
  {
    ShowOneHole(name, map[name := v]);
    ShowOneHole(name, map[]);
    SplitIdentity(v);
    SplitIdentity(Marker(name));
  }
}
