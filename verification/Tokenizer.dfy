/** splitCommand of ptero-wings-controller/startup.go: quotes, backslashes and blanks. */
module Tokenizer {
  import opened Core

  /** unicode.IsSpace */
  predicate IsSpace(c: char) {
    || '\t' <= c <= '\r' || c == ' ' || c == '\U{85}' || c == '\U{A0}' || c == '\U{1680}'
    || '\U{2000}' <= c <= '\U{200A}' || c == '\U{2028}' || c == '\U{2029}' || c == '\U{202F}'
    || c == '\U{205F}' || c == '\U{3000}'
  }

  predicate IsQuote(c: char) {
    c == '\'' || c == '"'
  }

  /** Characters that stand for themselves everywhere. */
  predicate Plain(c: char) {
    !IsSpace(c) && !IsQuote(c) && c != '\\'
  }

  datatype Lexer = Lexer(tokens: seq<string>, current: string, quote: Option<char>, escaped: bool)

  const START := Lexer([], "", None, false)

  function Flush(l: Lexer): (r: Lexer) {
    if |l.current| > 0 then l.(tokens := l.tokens + [l.current], current := "") else l
  }

  function Feed(l: Lexer, c: char): (r: Lexer) {
    if l.escaped then l.(current := l.current + [c], escaped := false)
    else if c == '\\' then l.(escaped := true)
    else if l.quote.Some? then
      if c == l.quote.value then l.(quote := None) else l.(current := l.current + [c])
    else if IsQuote(c) then l.(quote := Some(c))
    else if IsSpace(c) then Flush(l)
    else l.(current := l.current + [c])
  }

  function Scan(l: Lexer, s: string): (r: Lexer)
    decreases |s|
  {
    if s == "" then l else Scan(Feed(l, s[0]), s[1..])
  }

  function Finish(l: Lexer): (r: Result<seq<string>>) {
    if l.escaped then Err("unterminated escape in startup command")
    else if l.quote.Some? then Err("unterminated quote in startup command")
    else Ok(Flush(l).tokens)
  }

  function Split(s: string): (r: Result<seq<string>>) {
    Finish(Scan(START, s))
  }

  method SplitCommand(raw: string) returns (r: Result<seq<string>>)
    ensures r == Split(raw)
  {
    var tokens: seq<string> := [];
    var current := "";
    var quote: Option<char> := None;
    var escaped := false;
    for i := 0 to |raw|
      invariant Lexer(tokens, current, quote, escaped) == Scan(START, raw[..i])
    {
      var ch := raw[i];
      ScanSnoc(START, raw[..i], ch);
      assert raw[..i + 1] == raw[..i] + [ch];
      if escaped {
        current := current + [ch];
        escaped := false;
      } else if ch == '\\' {
        escaped := true;
      } else if quote.Some? {
        if ch == quote.value {
          quote := None;
          continue;
        }
        current := current + [ch];
      } else if ch == '\'' || ch == '"' {
        quote := Some(ch);
      } else if IsSpace(ch) {
        if |current| > 0 {
          tokens := tokens + [current];
          current := "";
        }
      } else {
        current := current + [ch];
      }
    }
    assert raw[..|raw|] == raw;
    if escaped {
      return Err("unterminated escape in startup command");
    }
    if quote.Some? {
      return Err("unterminated quote in startup command");
    }
    if |current| > 0 {
      tokens := tokens + [current];
    }
    return Ok(tokens);
  }

  lemma {:induction false} ScanConcat(l: Lexer, a: string, b: string)
    ensures Scan(l, a + b) == Scan(Scan(l, a), b)
    decreases |a|
  {
    if a == "" {
      assert a + b == b;
    } else {
      assert (a + b)[0] == a[0] && (a + b)[1..] == a[1..] + b;
      ScanConcat(Feed(l, a[0]), a[1..], b);
    }
  }

  lemma {:induction false} ScanSnoc(l: Lexer, a: string, c: char)
    ensures Scan(l, a + [c]) == Feed(Scan(l, a), c)
  {
    ScanConcat(l, a, [c]);
    assert [c][1..] == "";
  }

  lemma {:induction false} ScanOne(l: Lexer, c: char)
    ensures Scan(l, [c]) == Feed(l, c)
  {
  }

  lemma {:induction false} ScanTwo(l: Lexer, c: char, d: char)
    ensures Scan(l, [c, d]) == Feed(Feed(l, c), d)
  {
    assert [c, d][1..] == [d];
    ScanOne(Feed(l, c), d);
  }

  // ---------------------------------------------------------------- the language it accepts

  /** What may stand between quotes. */
  datatype QuotedChar = Literal(c: char) | Backslashed(c: char)

  /** The pieces of a command line. */
  datatype Piece =
    | Bare(c: char)
    | Escape(c: char)
    | Quoted(q: char, body: seq<QuotedChar>)
    | Gap(c: char)

  predicate WellFormedBody(q: char, body: seq<QuotedChar>) {
    forall b | b in body :: b.Literal? ==> b.c != q && b.c != '\\'
  }

  predicate WellFormedPiece(p: Piece) {
    match p
    case Bare(c) => Plain(c)
    case Escape(c) => true
    case Quoted(q, body) => IsQuote(q) && WellFormedBody(q, body)
    case Gap(c) => IsSpace(c)
  }

  predicate WellFormed(pieces: seq<Piece>) {
    forall p | p in pieces :: WellFormedPiece(p)
  }

  function BodyText(body: seq<QuotedChar>): (s: string)
    ensures |s| >= |body|
  {
    if body == [] then "" else (if body[0].Literal? then [body[0].c] else ['\\', body[0].c]) + BodyText(body[1..])
  }

  function BodyContent(body: seq<QuotedChar>): (s: string) {
    if body == [] then "" else [body[0].c] + BodyContent(body[1..])
  }

  function PieceText(p: Piece): (s: string) {
    match p
    case Bare(c) => [c]
    case Escape(c) => ['\\', c]
    case Quoted(q, body) => [q] + BodyText(body) + [q]
    case Gap(c) => [c]
  }

  function Text(pieces: seq<Piece>): (s: string) {
    if pieces == [] then "" else PieceText(pieces[0]) + Text(pieces[1..])
  }

  function Content(p: Piece): (s: string) {
    match p
    case Bare(c) => [c]
    case Escape(c) => [c]
    case Quoted(q, body) => BodyContent(body)
    case Gap(c) => ""
  }

  function NonEmpty(w: string): (ws: seq<string>) {
    if w == "" then [] else [w]
  }

  /** Gaps separate words, words that come out empty are dropped. `w` is the word begun before. */
  function Words(pieces: seq<Piece>, w: string): (ws: seq<string>)
    decreases |pieces|
  {
    if pieces == [] then NonEmpty(w)
    else if pieces[0].Gap? then NonEmpty(w) + Words(pieces[1..], "")
    else Words(pieces[1..], w + Content(pieces[0]))
  }

  lemma {:induction false} ScanBody(ts: seq<string>, w: string, q: char, body: seq<QuotedChar>)
    requires IsQuote(q) && WellFormedBody(q, body)
    ensures Scan(Lexer(ts, w, Some(q), false), BodyText(body)) == Lexer(ts, w + BodyContent(body), Some(q), false)
    decreases |body|
  {
    var l := Lexer(ts, w, Some(q), false);
    if body == [] {
      assert w + "" == w;
    } else {
      var b, rest := body[0], body[1..];
      assert b in body;
      var head := if b.Literal? then [b.c] else ['\\', b.c];
      calc {
        Scan(l, head + BodyText(rest));
        { ScanConcat(l, head, BodyText(rest)); }
        Scan(Scan(l, head), BodyText(rest));
        { ScanQuotedChar(ts, w, q, b); }
        Scan(Lexer(ts, w + [b.c], Some(q), false), BodyText(rest));
        { assert forall r | r in rest :: r in body; ScanBody(ts, w + [b.c], q, rest); }
        Lexer(ts, w + [b.c] + BodyContent(rest), Some(q), false);
        { assert w + [b.c] + BodyContent(rest) == w + ([b.c] + BodyContent(rest)); }
        Lexer(ts, w + BodyContent(body), Some(q), false);
      }
    }
  }

  lemma {:induction false} ScanQuotedChar(ts: seq<string>, w: string, q: char, b: QuotedChar)
    requires IsQuote(q) && (b.Literal? ==> b.c != q && b.c != '\\')
    ensures Scan(Lexer(ts, w, Some(q), false), if b.Literal? then [b.c] else ['\\', b.c]) ==
            Lexer(ts, w + [b.c], Some(q), false)
  {
    if b.Literal? {
      ScanOne(Lexer(ts, w, Some(q), false), b.c);
    } else {
      ScanTwo(Lexer(ts, w, Some(q), false), '\\', b.c);
    }
  }

  function AfterPiece(ts: seq<string>, w: string, p: Piece): (l: Lexer) {
    if p.Gap? then Lexer(ts + NonEmpty(w), "", None, false) else Lexer(ts, w + Content(p), None, false)
  }

  lemma {:induction false} ScanPiece(ts: seq<string>, w: string, p: Piece)
    requires WellFormedPiece(p)
    ensures Scan(Lexer(ts, w, None, false), PieceText(p)) == AfterPiece(ts, w, p)
  {
    var l := Lexer(ts, w, None, false);
    match p
    case Bare(c) => ScanOne(l, c);
    case Escape(c) => ScanTwo(l, '\\', c);
    case Quoted(q, body) =>
      calc {
        Scan(l, [q] + BodyText(body) + [q]);
        { ScanConcat(l, [q] + BodyText(body), [q]); ScanConcat(l, [q], BodyText(body)); ScanOne(l, q); }
        Scan(Scan(Lexer(ts, w, Some(q), false), BodyText(body)), [q]);
        { ScanBody(ts, w, q, body); }
        Scan(Lexer(ts, w + BodyContent(body), Some(q), false), [q]);
        { ScanOne(Lexer(ts, w + BodyContent(body), Some(q), false), q); }
        AfterPiece(ts, w, p);
      }
    case Gap(c) =>
      ScanOne(l, c);
      assert ts + [] == ts;
  }

  lemma {:induction false} ScanHead(ts: seq<string>, w: string, p: Piece, rest: string)
    requires WellFormedPiece(p)
    ensures Scan(Lexer(ts, w, None, false), PieceText(p) + rest) == Scan(AfterPiece(ts, w, p), rest)
  {
    ScanConcat(Lexer(ts, w, None, false), PieceText(p), rest);
    ScanPiece(ts, w, p);
  }

  lemma {:induction false} WordsHead(ts: seq<string>, w: string, pieces: seq<Piece>)
    requires pieces != []
    ensures var l := AfterPiece(ts, w, pieces[0]); ts + Words(pieces, w) == l.tokens + Words(pieces[1..], l.current)
  {
    if pieces[0].Gap? {
      Regroup(ts, NonEmpty(w), Words(pieces[1..], ""));
    }
  }

  lemma {:induction false} Regroup(a: seq<string>, b: seq<string>, c: seq<string>)
    ensures a + (b + c) == a + b + c
  {
  }

  lemma {:induction false} TextHead(ts: seq<string>, w: string, pieces: seq<Piece>)
    requires pieces != [] && WellFormed(pieces)
    ensures Scan(Lexer(ts, w, None, false), Text(pieces)) == Scan(AfterPiece(ts, w, pieces[0]), Text(pieces[1..]))
    ensures WellFormed(pieces[1..])
  {
    assert pieces[0] in pieces && forall r | r in pieces[1..] :: r in pieces;
    ScanHead(ts, w, pieces[0], Text(pieces[1..]));
  }

  /** Every well-formed command line splits, into its words. */
  lemma {:induction false} SplitSound(ts: seq<string>, w: string, pieces: seq<Piece>)
    requires WellFormed(pieces)
    ensures Finish(Scan(Lexer(ts, w, None, false), Text(pieces))) == Ok(ts + Words(pieces, w))
    decreases |pieces|
  {
    if pieces == [] {
      assert ts + [] == ts;
    } else {
      TextHead(ts, w, pieces);
      WordsHead(ts, w, pieces);
      var l := AfterPiece(ts, w, pieces[0]);
      SplitSound(l.tokens, l.current, pieces[1..]);
    }
  }

  /** Inside quotes, a string that is accepted in the end closes the quote. */
  lemma {:induction false} ParseBody(ts: seq<string>, w: string, q: char, s: string)
    returns (body: seq<QuotedChar>, rest: string)
    requires IsQuote(q) && Finish(Scan(Lexer(ts, w, Some(q), false), s)).Ok?
    ensures WellFormedBody(q, body) && s == BodyText(body) + [q] + rest
    ensures Scan(Lexer(ts, w, Some(q), false), s) == Scan(Lexer(ts, w + BodyContent(body), None, false), rest)
    decreases |s|
  {
    var l := Lexer(ts, w, Some(q), false);
    assert s != "";
    if s[0] == q {
      body, rest := [], s[1..];
      assert w + "" == w;
    } else if s[0] == '\\' {
      assert s[1..] != "";
      var c := s[1];
      assert s[1..][0] == c && s[1..][1..] == s[2..];
      body, rest := ParseBody(ts, w + [c], q, s[2..]);
      assert w + [c] + BodyContent(body) == w + ([c] + BodyContent(body));
      var body' := [Backslashed(c)] + body;
      assert body'[1..] == body;
      assert s == ['\\', c] + s[2..];
      body := body';
    } else {
      var c := s[0];
      body, rest := ParseBody(ts, w + [c], q, s[1..]);
      assert w + [c] + BodyContent(body) == w + ([c] + BodyContent(body));
      var body' := [Literal(c)] + body;
      assert body'[1..] == body;
      assert s == [c] + s[1..];
      body := body';
    }
  }

  lemma {:induction false} ConsPiece(p: Piece, rest: seq<Piece>)
    requires WellFormedPiece(p) && WellFormed(rest)
    ensures WellFormed([p] + rest) && Text([p] + rest) == PieceText(p) + Text(rest)
  {
    assert ([p] + rest)[1..] == rest;
  }

  /** Outside quotes, a backslash in a string that is accepted has a character behind it. */
  lemma {:induction false} ScanBackslash(ts: seq<string>, w: string, s: string)
    requires s != "" && s[0] == '\\' && Finish(Scan(Lexer(ts, w, None, false), s)).Ok?
    ensures |s| >= 2 && s == ['\\', s[1]] + s[2..]
    ensures Scan(Lexer(ts, w, None, false), s) == Scan(Lexer(ts, w + [s[1]], None, false), s[2..])
  {
    var l := Lexer(ts, w, None, false);
    assert Scan(l, s) == Scan(l.(escaped := true), s[1..]);
    assert s[1..] != "";
    assert s[1..][0] == s[1] && s[1..][1..] == s[2..];
  }

  /** The first piece of an accepted string, and the state of the lexer behind it. */
  lemma {:induction false} ParsePiece(ts: seq<string>, w: string, s: string) returns (p: Piece, ts': seq<string>, w': string, tail: string)
    requires s != "" && Finish(Scan(Lexer(ts, w, None, false), s)).Ok?
    ensures WellFormedPiece(p) && s == PieceText(p) + tail && |tail| < |s|
    ensures Scan(Lexer(ts, w, None, false), s) == Scan(Lexer(ts', w', None, false), tail)
  {
    var c := s[0];
    assert s == [c] + s[1..];
    if c == '\\' {
      ScanBackslash(ts, w, s);
      p, ts', w', tail := Escape(s[1]), ts, w + [s[1]], s[2..];
    } else if IsQuote(c) {
      var body;
      body, tail := ParseBody(ts, w, c, s[1..]);
      p, ts', w' := Quoted(c, body), ts, w + BodyContent(body);
      assert [c] + (BodyText(body) + [c] + tail) == [c] + BodyText(body) + [c] + tail;
    } else if IsSpace(c) {
      p, ts', w', tail := Gap(c), Flush(Lexer(ts, w, None, false)).tokens, "", s[1..];
    } else {
      p, ts', w', tail := Bare(c), ts, w + [c], s[1..];
    }
  }

  /** Every string that splits is a well-formed command line. */
  lemma {:induction false} SplitComplete(ts: seq<string>, w: string, s: string) returns (pieces: seq<Piece>)
    requires Finish(Scan(Lexer(ts, w, None, false), s)).Ok?
    ensures WellFormed(pieces) && Text(pieces) == s
    decreases |s|
  {
    if s == "" {
      pieces := [];
    } else {
      var p, ts', w', tail := ParsePiece(ts, w, s);
      var rest := SplitComplete(ts', w', tail);
      ConsPiece(p, rest);
      pieces := [p] + rest;
    }
  }

  ghost predicate Denotes(s: string, ws: seq<string>) {
    exists pieces :: WellFormed(pieces) && Text(pieces) == s && Words(pieces, "") == ws
  }

  /** The tokenizer accepts exactly the well-formed command lines and returns their words. */
  lemma {:induction false} SplitExact(s: string, ws: seq<string>)
    ensures Split(s) == Ok(ws) <==> Denotes(s, ws)
  {
    if Split(s) == Ok(ws) {
      var pieces := SplitComplete([], "", s);
      SplitSound([], "", pieces);
      assert [] + Words(pieces, "") == Words(pieces, "");
    }
    if Denotes(s, ws) {
      var pieces :| WellFormed(pieces) && Text(pieces) == s && Words(pieces, "") == ws;
      SplitSound([], "", pieces);
      assert [] + Words(pieces, "") == Words(pieces, "");
    }
  }

  // ---------------------------------------------------------------- composition

  lemma {:induction false} ScanShift(ts: seq<string>, l: Lexer, s: string)
    ensures var r := Scan(l, s); Scan(l.(tokens := ts + l.tokens), s) == r.(tokens := ts + r.tokens)
    decreases |s|
  {
    if s != "" {
      var shifted := l.(tokens := ts + l.tokens);
      var next := Feed(l, s[0]);
      assert ts + (l.tokens + [l.current]) == ts + l.tokens + [l.current];
      assert Feed(shifted, s[0]) == next.(tokens := ts + next.tokens);
      ScanShift(ts, next, s[1..]);
    }
  }

  /** A blank separates commands: if a splits, a + blank + b splits into both, and fails as b fails. */
  lemma {:induction false} SplitComposes(a: string, blank: char, b: string)
    requires Split(a).Ok? && IsSpace(blank)
    ensures Split(a + [blank] + b) ==
            match Split(b) case Ok(tb) => Ok(Split(a).value + tb) case Err(m) => Err(m)
  {
    ScanConcat(START, a + [blank], b);
    ScanSnoc(START, a, blank);
    var ta := Split(a).value;
    assert Feed(Scan(START, a), blank) == Lexer(ta, "", None, false);
    assert START.(tokens := ta + []) == Lexer(ta, "", None, false);
    ScanShift(ta, START, b);
    var r := Scan(START, b);
    assert ta + (r.tokens + [r.current]) == ta + r.tokens + [r.current];
  }

  // ---------------------------------------------------------------- printing and reading back

  /** Backslash before every character. */
  function Escaped(t: string): (s: string) {
    if t == "" then "" else ['\\', t[0]] + Escaped(t[1..])
  }

  function Print(ts: seq<string>): (s: string) {
    if ts == [] then "" else Escaped(ts[0]) + " " + Print(ts[1..])
  }

  function WithoutEmpty(ts: seq<string>): (r: seq<string>) {
    if ts == [] then [] else NonEmpty(ts[0]) + WithoutEmpty(ts[1..])
  }

  lemma {:induction false} ScanEscaped(ts: seq<string>, w: string, t: string)
    ensures Scan(Lexer(ts, w, None, false), Escaped(t)) == Lexer(ts, w + t, None, false)
    decreases |t|
  {
    var l := Lexer(ts, w, None, false);
    if t == "" {
      assert w + t == w;
    } else {
      ScanConcat(l, ['\\', t[0]], Escaped(t[1..]));
      ScanPiece(ts, w, Escape(t[0]));
      ScanEscaped(ts, w + [t[0]], t[1..]);
      assert w + [t[0]] + t[1..] == w + t;
    }
  }

  lemma {:induction false} ScanWord(done: seq<string>, t: string)
    ensures Scan(Lexer(done, "", None, false), Escaped(t) + " ") == Lexer(done + NonEmpty(t), "", None, false)
  {
    ScanEscaped(done, "", t);
    assert "" + t == t;
    assert done + [] == done;
    ScanSnoc(Lexer(done, "", None, false), Escaped(t), ' ');
  }

  lemma {:induction false} ScanPrinted(done: seq<string>, ts: seq<string>)
    ensures Scan(Lexer(done, "", None, false), Print(ts)) == Lexer(done + WithoutEmpty(ts), "", None, false)
    decreases |ts|
  {
    if ts == [] {
      assert done + [] == done;
    } else {
      var word, rest := Escaped(ts[0]) + " ", Print(ts[1..]);
      var next := done + NonEmpty(ts[0]);
      calc {
        Scan(Lexer(done, "", None, false), word + rest);
        { ScanConcat(Lexer(done, "", None, false), word, rest); ScanWord(done, ts[0]); }
        Scan(Lexer(next, "", None, false), rest);
        { ScanPrinted(next, ts[1..]); }
        Lexer(next + WithoutEmpty(ts[1..]), "", None, false);
        { assert next + WithoutEmpty(ts[1..]) == done + (NonEmpty(ts[0]) + WithoutEmpty(ts[1..])); }
        Lexer(done + WithoutEmpty(ts), "", None, false);
      }
    }
  }

  lemma {:induction false} WithoutEmptyExact(ts: seq<string>)
    ensures |WithoutEmpty(ts)| <= |ts|
    ensures WithoutEmpty(ts) == ts <==> "" !in ts
  {
    if ts != [] {
      WithoutEmptyExact(ts[1..]);
      assert ts == [ts[0]] + ts[1..];
    }
  }

  /** Printed tokens read back without the empty ones; the round trip is exact if and only if
      no token is empty. */
  lemma {:induction false} PrintRoundTrip(ts: seq<string>)
    ensures Split(Print(ts)) == Ok(WithoutEmpty(ts))
    ensures Split(Print(ts)) == Ok(ts) <==> "" !in ts
  {
    ScanPrinted([], ts);
    assert [] + WithoutEmpty(ts) == WithoutEmpty(ts);
    WithoutEmptyExact(ts);
  }

  // ---------------------------------------------------------------- strings that are one token

  function TotalLength(ts: seq<string>): (n: nat) {
    if ts == [] then 0 else TotalLength(ts[..|ts| - 1]) + |ts[|ts| - 1]|
  }

  function Size(l: Lexer): (n: nat) {
    TotalLength(l.tokens) + |l.current|
  }

  lemma {:induction false} FlushSize(l: Lexer)
    ensures Size(Flush(l)) == Size(l)
  {
  }

  lemma {:induction false} ScanSize(l: Lexer, s: string)
    ensures Size(Scan(l, s)) <= Size(l) + |s|
    decreases |s|
  {
    if s != "" {
      FlushSize(l);
      ScanSize(Feed(l, s[0]), s[1..]);
    }
  }

  lemma {:induction false} ScanPlain(l: Lexer, s: string)
    requires !l.escaped && l.quote.None? && forall c | c in s :: Plain(c)
    ensures Scan(l, s) == l.(current := l.current + s)
    decreases |s|
  {
    if s == "" {
      assert l.current + s == l.current;
    } else {
      assert s[0] in s;
      ScanPlain(Feed(l, s[0]), s[1..]);
      assert l.current + [s[0]] + s[1..] == l.current + s;
    }
  }

  lemma {:induction false} PlainIsToken(v: string)
    requires v != "" && forall c | c in v :: Plain(c)
    ensures Split(v) == Ok([v])
  {
    ScanPlain(START, v);
    assert "" + v == v;
    assert [] + [v] == [v];
  }

  lemma {:induction false} FeedSpecial(l: Lexer, c: char)
    requires !l.escaped && l.quote.None? && !Plain(c)
    ensures Size(Feed(l, c)) == Size(l)
  {
  }

  lemma {:induction false} ScanPrefix(pre: string, c: char, post: string)
    requires forall d | d in pre :: Plain(d)
    ensures Scan(START, pre + [c] + post) == Scan(Feed(Lexer([], pre, None, false), c), post)
  {
    ScanConcat(START, pre + [c], post);
    ScanSnoc(START, pre, c);
    ScanPlain(START, pre);
    assert "" + pre == pre;
  }

  /** The first special character is used up without being written to any token. */
  lemma {:induction false} SpecialShrinks(pre: string, c: char, post: string)
    requires !Plain(c) && forall d | d in pre :: Plain(d)
    ensures Size(Scan(START, pre + [c] + post)) < |pre| + 1 + |post|
  {
    var l := Lexer([], pre, None, false);
    ScanPrefix(pre, c, post);
    FeedSpecial(l, c);
    ScanSize(Feed(l, c), post);
  }

  lemma {:induction false} SizeOfOne(v: string)
    ensures TotalLength([v]) == |v|
  {
  }

  /** A string is its own single token exactly when it is nonempty and has only plain characters. */
  lemma {:induction false} SplitIdentity(v: string)
    ensures Split(v) == Ok([v]) <==> v != "" && forall c | c in v :: Plain(c)
  {
    if v == "" {
      assert Split(v) == Ok([]);
      assert |[v]| == 1;
    } else if forall c | c in v :: Plain(c) {
      PlainIsToken(v);
    } else {
      SpecialIsNoToken(v);
    }
  }

  /** The white space of Unicode. */
  const BLANKS: set<char> := {
    '\t', '\n', '\U{B}', '\U{C}', '\r', ' ', '\U{85}', '\U{A0}', '\U{1680}',
    '\U{2000}', '\U{2001}', '\U{2002}', '\U{2003}', '\U{2004}', '\U{2005}', '\U{2006}', '\U{2007}',
    '\U{2008}', '\U{2009}', '\U{200A}', '\U{2028}', '\U{2029}', '\U{202F}', '\U{205F}', '\U{3000}'}

  /** What each character means on its own: white space separates, two characters quote, the backslash
      escapes, and every other character is a token. */
  lemma {:induction false} SingleCharacter(c: char)
    ensures Split([c]) ==
            if c in BLANKS then Ok([])
            else if c == '\\' then Err("unterminated escape in startup command")
            else if c == '\'' || c == '"' then Err("unterminated quote in startup command")
            else Ok([[c]])
  {
    ScanOne(START, c);
    assert "" + [c] == [c] && [] + [[c]] == [[c]];
  }

  /** When both an escape and a quote are open at the end, the escape is reported. */
  lemma {:induction false} BothUnterminated(q: char)
    requires q == '"' || q == '\''
    ensures Split([q, '\\']) == Err("unterminated escape in startup command")
  {
    ScanTwo(START, q, '\\');
  }

  /** Blank text has no tokens. */
  lemma {:induction false} ScanBlanks(s: string)
    requires forall c | c in s :: IsSpace(c)
    ensures Scan(START, s) == START
    decreases |s|
  {
    if s != "" {
      assert s[0] in s && forall c | c in s[1..] :: c in s;
      ScanBlanks(s[1..]);
    }
  }

  lemma {:induction false} TokensSize(v: string)
    ensures Split(v).Ok? ==> TotalLength(Split(v).value) <= Size(Scan(START, v))
  {
    FlushSize(Scan(START, v));
  }

  lemma {:induction false} SpecialSize(v: string)
    requires exists c :: c in v && !Plain(c)
    ensures Size(Scan(START, v)) < |v|
  {
    var n := FirstSpecial(v);
    SpecialShrinks(v[..n], v[n], v[n + 1..]);
    assert v == v[..n] + [v[n]] + v[n + 1..];
  }

  lemma {:induction false} SpecialIsNoToken(v: string)
    requires exists c :: c in v && !Plain(c)
    ensures Split(v) != Ok([v])
  {
    SpecialSize(v);
    TokensSize(v);
    SizeOfOne(v);
  }

  lemma {:induction false} FirstSpecial(v: string) returns (n: nat)
    requires exists c :: c in v && !Plain(c)
    ensures n < |v| && !Plain(v[n]) && forall c | c in v[..n] :: Plain(c)
  {
    n := 0;
    while Plain(v[n])
      invariant n < |v| && (forall c | c in v[..n] :: Plain(c))
      invariant exists i :: n <= i < |v| && !Plain(v[i])
      decreases |v| - n
    {
      assert v[..n + 1] == v[..n] + [v[n]];
      n := n + 1;
    }
  }
}
