/**
 The nesting limit of a review output, decided by one pass over its characters.
 */
module JsonDepth {
  import opened JsonText

  const MAX_DEPTH := 3

  datatype Scan = Scanning(depth: nat, quoted: bool, escaped: bool) | Raised

  function Step(s: Scan, c: nat): Scan {
    if s.Raised? then Raised
    else if s.quoted then
      if s.escaped then s.(escaped := false)
      else if c == BACKSLASH then s.(escaped := true)
      else if c == QUOTE then s.(quoted := false)
      else s
    else if c == QUOTE then s.(quoted := true)
    else if c == OPEN_ARRAY || c == OPEN_OBJECT then
      if s.depth + 1 > MAX_DEPTH then Raised else s.(depth := s.depth + 1)
    else if c == CLOSE_ARRAY || c == CLOSE_OBJECT then s.(depth := if s.depth == 0 then 0 else s.depth - 1)
    else s
  }

  function Feed(s: Scan, t: Text): Scan
    decreases |t|
  {
    if t == [] then s else Feed(Step(s, t[0]), t[1..])
  }

  /** The scan of a text, as the source runs it. */
  method CheckDepth(text: Text) returns (raised: bool)
    ensures raised <==> Feed(Scanning(0, false, false), text).Raised?
  {
    var depth: nat, quoted, escaped := 0, false, false;
    for i := 0 to |text|
      invariant Feed(Scanning(depth, quoted, escaped), text[i..]) == Feed(Scanning(0, false, false), text)
    {
      var c := text[i];
      assert text[i..][0] == c && text[i..][1..] == text[i + 1..];
      if quoted {
        if escaped {
          escaped := false;
        } else if c == BACKSLASH {
          escaped := true;
        } else if c == QUOTE {
          quoted := false;
        }
      } else if c == QUOTE {
        quoted := true;
      } else if c == OPEN_ARRAY || c == OPEN_OBJECT {
        depth := depth + 1;
        if depth > MAX_DEPTH {
          RaisedStays(text[i + 1..]);
          return true;
        }
      } else if c == CLOSE_ARRAY || c == CLOSE_OBJECT {
        depth := if depth == 0 then 0 else depth - 1;
      }
    }
    return false;
  }

  lemma {:induction false} RaisedStays(t: Text)
    ensures Feed(Raised, t) == Raised
  {
    if t != [] { RaisedStays(t[1..]); }
  }

  // ---------------------------------------------------------------- the scan of a printed value

  lemma {:induction false} FeedConcat(s: Scan, a: Text, b: Text)
    ensures Feed(s, a + b) == Feed(Feed(s, a), b)
    decreases |a|
  {
    if a == [] {
      assert a + b == b;
    } else {
      assert (a + b)[0] == a[0] && (a + b)[1..] == a[1..] + b;
      FeedConcat(Step(s, a[0]), a[1..], b);
    }
  }

  function At(depth: nat): Scan {
    Scanning(depth, false, false)
  }

  /** White space and literals do not move the scan. */
  lemma {:induction false} FeedInert(depth: nat, t: Text)
    requires AllSpace(t) || AllLiteral(t)
    ensures Feed(At(depth), t) == At(depth)
  {
    if t != [] {
      assert IsSpace(t[0]) || IsLiteral(t[0]);
      FeedInert(depth, t[1..]);
    }
  }

  lemma FeedPiece(depth: nat, p: Piece)
    requires PieceOk(p)
    ensures Feed(Scanning(depth, true, false), PieceText(p)) == Scanning(depth, true, false)
  {
    hide Feed;
    var s := Scanning(depth, true, false);
    FeedNone(s);
    match p {
      case Plain(c) =>
        assert PieceText(p) == [c] + [];
        FeedFirst(s, c, []);
      case Escape(c) =>
        assert PieceText(p) == [BACKSLASH] + ([c] + []);
        FeedFirst(s, BACKSLASH, [c] + []);
        FeedFirst(s.(escaped := true), c, []);
      case Hex(a, b, c, d) =>
        assert PieceText(p) == [BACKSLASH] + ([117] + ([a] + ([b] + ([c] + ([d] + [])))));
        assert Step(s, a) == s && Step(s, b) == s && Step(s, c) == s && Step(s, d) == s;
        FeedFirst(s, BACKSLASH, [117] + ([a] + ([b] + ([c] + ([d] + [])))));
        FeedFirst(s.(escaped := true), 117, [a] + ([b] + ([c] + ([d] + []))));
        FeedFirst(s, a, [b] + ([c] + ([d] + [])));
        FeedFirst(s, b, [c] + ([d] + []));
        FeedFirst(s, c, [d] + []);
        FeedFirst(s, d, []);
    }
  }

  lemma FeedFirst(s: Scan, c: nat, t: Text)
    ensures Feed(s, [c] + t) == Feed(Step(s, c), t)
  {
    assert ([c] + t)[1..] == t;
  }

  lemma FeedNone(s: Scan)
    ensures Feed(s, []) == s
  {
  }

  lemma {:induction false} FeedPieces(depth: nat, ps: seq<Piece>)
    requires PiecesOk(ps)
    ensures Feed(Scanning(depth, true, false), PiecesText(ps)) == Scanning(depth, true, false)
  {
    if ps != [] {
      FeedPiece(depth, ps[0]);
      FeedConcat(Scanning(depth, true, false), PieceText(ps[0]), PiecesText(ps[1..]));
      FeedPieces(depth, ps[1..]);
    }
  }

  /** Whatever a string contains, the scan comes out of it as it went in. */
  lemma FeedQuoted(depth: nat, ps: seq<Piece>)
    requires PiecesOk(ps)
    ensures Feed(At(depth), Quoted(ps)) == At(depth)
  {
    var inside := Scanning(depth, true, false);
    FeedConcat(At(depth), [QUOTE] + PiecesText(ps), [QUOTE]);
    FeedConcat(At(depth), [QUOTE], PiecesText(ps));
    assert Feed(At(depth), [QUOTE]) == inside;
    FeedPieces(depth, ps);
    assert Feed(inside, [QUOTE]) == At(depth);
  }

  /** Where the scan is after something nested `deep` levels. */
  function After(depth: nat, deep: nat): Scan {
    if depth + deep > MAX_DEPTH then Raised else At(depth)
  }

  lemma FeedBrackets(depth: nat, open: nat, inner: Text, close: nat, deep: nat)
    requires depth <= MAX_DEPTH && (open == OPEN_ARRAY || open == OPEN_OBJECT) && (close == CLOSE_ARRAY || close == CLOSE_OBJECT)
    requires depth + 1 <= MAX_DEPTH ==> Feed(At(depth + 1), inner) == After(depth + 1, deep)
    ensures Feed(At(depth), [open] + inner + [close]) == After(depth, 1 + deep)
  {
    FeedConcat(At(depth), [open] + inner, [close]);
    FeedConcat(At(depth), [open], inner);
    RaisedStays(inner);
    RaisedStays([close]);
    assert Feed(At(depth), [open]) == Step(At(depth), open);
    assert Feed(At(depth + 1), [close]) == Step(At(depth + 1), close);
  }

  lemma {:induction false} FeedValue(depth: nat, v: Json)
    requires depth <= MAX_DEPTH && Ok(v)
    ensures Feed(At(depth), Print(v)) == After(depth, Depth(v))
    decreases v
  {
    hide Feed, Quoted, At;
    match v {
      case Literal(t) => FeedInert(depth, t);
      case String(ps) => FeedQuoted(depth, ps);
      case EmptyArray(s) => FeedInert(depth + 1, s); FeedBrackets(depth, OPEN_ARRAY, s, CLOSE_ARRAY, 0);
      case Array(es) =>
        if depth + 1 <= MAX_DEPTH { FeedElements(depth + 1, es); }
        FeedBrackets(depth, OPEN_ARRAY, PrintElements(es), CLOSE_ARRAY, ElementsDepth(es));
      case EmptyObject(s) => FeedInert(depth + 1, s); FeedBrackets(depth, OPEN_OBJECT, s, CLOSE_OBJECT, 0);
      case Object(ms) =>
        if depth + 1 <= MAX_DEPTH { FeedMembers(depth + 1, ms); }
        FeedBrackets(depth, OPEN_OBJECT, PrintMembers(ms), CLOSE_OBJECT, MembersDepth(ms));
    }
  }

  /** A value between white space, and what follows it. */
  lemma FeedRow(depth: nat, before: Text, text: Text, deep: nat, after: Text, rest: Text)
    requires Feed(At(depth), before) == At(depth) && Feed(At(depth), text) == After(depth, deep) && AllSpace(after)
    ensures Feed(At(depth), before + text + after + rest) == if depth + deep > MAX_DEPTH then Raised else Feed(At(depth), rest)
  {
    FeedConcat(At(depth), before + text + after, rest);
    FeedConcat(At(depth), before + text, after);
    FeedConcat(At(depth), before, text);
    FeedInert(depth, after);
    RaisedStays(after);
    RaisedStays(rest);
  }

  lemma FeedComma(depth: nat, rest: Text)
    ensures Feed(At(depth), [COMMA] + rest) == Feed(At(depth), rest) && Feed(At(depth), []) == At(depth)
  {
    assert ([COMMA] + rest)[1..] == rest;
  }

  lemma {:induction false} FeedElements(depth: nat, es: Elements)
    requires depth <= MAX_DEPTH && ElementsOk(es)
    ensures Feed(At(depth), PrintElements(es)) == After(depth, ElementsDepth(es))
    decreases es
  {
    hide Feed, Print, At;
    FeedInert(depth, es.before);
    FeedValue(depth, es.value);
    if es.NextElement? {
      FeedElements(depth, es.rest);
      FeedComma(depth, PrintElements(es.rest));
      FeedRow(depth, es.before, Print(es.value), Depth(es.value), es.after, [COMMA] + PrintElements(es.rest));
    } else {
      FeedComma(depth, []);
      FeedRow(depth, es.before, Print(es.value), Depth(es.value), es.after, []);
    }
  }

  lemma FeedName(depth: nat, m: Member)
    requires MemberOk(m)
    ensures Feed(At(depth), PrintMember(m)) == At(depth)
  {
    FeedConcat(At(depth), m.before + Quoted(m.name) + m.middle + [COLON], m.gap);
    FeedConcat(At(depth), m.before + Quoted(m.name) + m.middle, [COLON]);
    FeedConcat(At(depth), m.before + Quoted(m.name), m.middle);
    FeedConcat(At(depth), m.before, Quoted(m.name));
    FeedInert(depth, m.before);
    FeedQuoted(depth, m.name);
    FeedInert(depth, m.middle);
    FeedInert(depth, m.gap);
    assert Feed(At(depth), [COLON]) == At(depth);
  }

  lemma {:induction false} FeedMembers(depth: nat, ms: Members)
    requires depth <= MAX_DEPTH && MembersOk(ms)
    ensures Feed(At(depth), PrintMembers(ms)) == After(depth, MembersDepth(ms))
    decreases ms
  {
    hide Feed, Print, PrintMember, At;
    FeedName(depth, ms.member);
    FeedValue(depth, ms.value);
    if ms.NextMember? {
      FeedMembers(depth, ms.rest);
      FeedComma(depth, PrintMembers(ms.rest));
      FeedRow(depth, PrintMember(ms.member), Print(ms.value), Depth(ms.value), ms.after, [COMMA] + PrintMembers(ms.rest));
    } else {
      FeedComma(depth, []);
      FeedRow(depth, PrintMember(ms.member), Print(ms.value), Depth(ms.value), ms.after, []);
    }
  }

  /**
   On every JSON text the scan raises exactly when arrays and objects are nested deeper than the limit, whatever
   brackets, quotation marks or backslashes its strings contain.
   */
  lemma ScanIsDepth(before: Text, v: Json, after: Text)
    requires AllSpace(before) && Ok(v) && AllSpace(after)
    ensures Feed(Scanning(0, false, false), Document(before, v, after)).Raised? <==> Depth(v) > 3
  {
    hide Feed, Print;
    FeedInert(0, before);
    FeedValue(0, v);
    FeedRow(0, before, Print(v), Depth(v), after, []);
    FeedComma(0, []);
    assert before + Print(v) + after + [] == Document(before, v, after);
  }
}
