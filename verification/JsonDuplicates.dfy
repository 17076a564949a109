/**
 Repeated member names, found by one pass over the string and punctuation tokens of a text with a stack of name sets,
 and by the object hook of a decoder.
 */
module JsonDuplicates {
  import opened Common
  import opened JsonText

  datatype Token = Mark(c: nat) | Quote(text: Text)

  predicate IsMark(c: nat) {
    c == OPEN_ARRAY || c == CLOSE_ARRAY || c == OPEN_OBJECT || c == CLOSE_OBJECT || c == COLON || c == COMMA
  }

  /** How far the rest of a string reaches, closing quotation mark included. */
  function Inside(t: Text): (n: Option<nat>)
    ensures n.Some? ==> 0 < n.value <= |t|
  {
    if t == [] then None
    else if t[0] == QUOTE then Some(1)
    else if t[0] == BACKSLASH then
      if |t| < 2 then None
      else
        var n := Inside(t[2..]);
        if n.None? then None else Some(n.value + 2)
    else
      var n := Inside(t[1..]);
      if n.None? then None else Some(n.value + 1)
  }

  /** The matches of the token pattern, left to right; everything else is skipped. */
  function Tokens(t: Text): seq<Token>
    decreases |t|
  {
    if t == [] then []
    else if t[0] == QUOTE then
      var n := Inside(t[1..]);
      if n.None? then Tokens(t[1..]) else [Quote(t[..n.value + 1])] + Tokens(t[n.value + 1..])
    else if IsMark(t[0]) then [Mark(t[0])] + Tokens(t[1..])
    else Tokens(t[1..])
  }

  /** What a string token stands for. */
  function Decode(t: Text): Option<Text>
    decreases |t|
  {
    if t == [] then Some([])
    else if t[0] == BACKSLASH then
      if |t| < 2 then None
      else if t[1] == 117 then
        if |t| < 6 || !(IsHex(t[2]) && IsHex(t[3]) && IsHex(t[4]) && IsHex(t[5])) then None
        else Join(Value(Hex(t[2], t[3], t[4], t[5])), Decode(t[6..]))
      else if !IsEscape(t[1]) then None
      else Join(Escaped(t[1]), Decode(t[2..]))
    else if t[0] < 32 || t[0] == QUOTE then None
    else Join(t[0], Decode(t[1..]))
  }

  function Join(c: nat, rest: Option<Text>): Option<Text> {
    if rest.None? then None else Some([c] + rest.value)
  }

  function DecodeToken(t: Text): Option<Text> {
    if |t| < 2 then None else Decode(t[1..|t| - 1])
  }

  // ---------------------------------------------------------------- the scan

  datatype Frame = Frame(keys: Option<set<Text>>, nextKey: bool)
  datatype Outcome = Go(stack: seq<Frame>) | Duplicate | Malformed

  function Top(stack: seq<Frame>): Frame
    requires stack != []
  {
    stack[|stack| - 1]
  }

  function Replace(stack: seq<Frame>, frame: Frame): seq<Frame>
    requires stack != []
  {
    stack[..|stack| - 1] + [frame]
  }

  function Step(stack: seq<Frame>, token: Token): Outcome {
    if token == Mark(OPEN_OBJECT) then Go(stack + [Frame(Some({}), true)])
    else if token == Mark(OPEN_ARRAY) then Go(stack + [Frame(None, false)])
    else if token == Mark(CLOSE_OBJECT) || token == Mark(CLOSE_ARRAY) then Go(if stack == [] then [] else stack[..|stack| - 1])
    else if stack == [] || Top(stack).keys.None? then Go(stack)
    else if token == Mark(COMMA) then Go(Replace(stack, Top(stack).(nextKey := true)))
    else if token == Mark(COLON) then Go(Replace(stack, Top(stack).(nextKey := false)))
    else if !Top(stack).nextKey || token.Mark? then Go(stack)
    else
      var key := DecodeToken(token.text);
      if key.None? then Malformed
      else if key.value in Top(stack).keys.value then Duplicate
      else Go(Replace(stack, Frame(Some(Top(stack).keys.value + {key.value}), false)))
  }

  function Scan(stack: seq<Frame>, tokens: seq<Token>): Outcome
    decreases |tokens|
  {
    if tokens == [] then Go(stack)
    else
      var next := Step(stack, tokens[0]);
      if next.Go? then Scan(next.stack, tokens[1..]) else next
  }

  /** The scan of a text with a stack that is pushed, popped and rewritten at its top. */
  method FindDuplicate(text: Text) returns (r: Outcome)
    ensures r == Scan([], Tokens(text))
  {
    var stack: seq<Frame> := [];
    var tokens := Tokens(text);
    for i := 0 to |tokens|
      invariant Scan(stack, tokens[i..]) == Scan([], tokens)
    {
      var item := tokens[i];
      assert tokens[i..][0] == item && tokens[i..][1..] == tokens[i + 1..];
      if item == Mark(OPEN_OBJECT) || item == Mark(OPEN_ARRAY) {
        stack := stack + [if item == Mark(OPEN_OBJECT) then Frame(Some({}), true) else Frame(None, false)];
      } else if item == Mark(CLOSE_OBJECT) || item == Mark(CLOSE_ARRAY) {
        if stack != [] { stack := stack[..|stack| - 1]; }
      } else if stack != [] && stack[|stack| - 1].keys.Some? {
        var parent := stack[|stack| - 1];
        assert stack == stack[..|stack| - 1] + [parent];
        if item == Mark(COMMA) {
          parent := parent.(nextKey := true);
        } else if item == Mark(COLON) {
          parent := parent.(nextKey := false);
        } else if parent.nextKey && item.Quote? {
          var key := DecodeToken(item.text);
          if key.None? { return Malformed; }
          if key.value in parent.keys.value { return Duplicate; }
          parent := Frame(Some(parent.keys.value + {key.value}), false);
        }
        stack := stack[..|stack| - 1] + [parent];
      }
    }
    return Go(stack);
  }

  // ---------------------------------------------------------------- tokens of a printed value

  function ValueTokens(v: Json): seq<Token> {
    match v
    case Literal(_) => []
    case String(ps) => [Quote(Quoted(ps))]
    case EmptyArray(_) => [Mark(OPEN_ARRAY), Mark(CLOSE_ARRAY)]
    case Array(es) => [Mark(OPEN_ARRAY)] + ElementTokens(es) + [Mark(CLOSE_ARRAY)]
    case EmptyObject(_) => [Mark(OPEN_OBJECT), Mark(CLOSE_OBJECT)]
    case Object(ms) => [Mark(OPEN_OBJECT)] + MemberTokens(ms) + [Mark(CLOSE_OBJECT)]
  }

  function ElementTokens(es: Elements): seq<Token> {
    ValueTokens(es.value) + if es.NextElement? then [Mark(COMMA)] + ElementTokens(es.rest) else []
  }

  function NameTokens(m: Member): seq<Token> {
    [Quote(Quoted(m.name)), Mark(COLON)]
  }

  function MemberTokens(ms: Members): seq<Token> {
    NameTokens(ms.member) + ValueTokens(ms.value) + if ms.NextMember? then [Mark(COMMA)] + MemberTokens(ms.rest) else []
  }

  lemma {:induction false} SkipInert(t: Text, rest: Text)
    requires AllSpace(t) || AllLiteral(t)
    ensures Tokens(t + rest) == Tokens(rest)
  {
    if t == [] {
      assert t + rest == rest;
    } else {
      assert IsSpace(t[0]) || IsLiteral(t[0]);
      assert (t + rest)[0] == t[0] && (t + rest)[1..] == t[1..] + rest;
      SkipInert(t[1..], rest);
    }
  }

  lemma TakeMark(c: nat, rest: Text)
    requires IsMark(c)
    ensures Tokens([c] + rest) == [Mark(c)] + Tokens(rest)
  {
    assert ([c] + rest)[1..] == rest;
  }

  lemma InsidePlain(c: nat, t: Text)
    requires c != QUOTE && c != BACKSLASH
    ensures Inside([c] + t) == if Inside(t).None? then None else Some(Inside(t).value + 1)
  {
    assert ([c] + t)[1..] == t;
  }

  lemma InsidePair(c: nat, t: Text)
    ensures Inside([BACKSLASH, c] + t) == if Inside(t).None? then None else Some(Inside(t).value + 2)
  {
    assert ([BACKSLASH, c] + t)[2..] == t;
  }

  lemma InsidePiece(p: Piece, t: Text)
    requires PieceOk(p) && Inside(t).Some?
    ensures Inside(PieceText(p) + t) == Some(Inside(t).value + |PieceText(p)|)
  {
    hide Inside;
    match p {
      case Plain(c) => InsidePlain(c, t);
      case Escape(c) => InsidePair(c, t);
      case Hex(a, b, c, d) =>
        var t1, t2, t3, t4 := [d] + t, [c] + ([d] + t), [b] + ([c] + ([d] + t)), [a] + ([b] + ([c] + ([d] + t)));
        assert PieceText(p) + t == [BACKSLASH, 117] + t4;
        InsidePlain(d, t);
        InsidePlain(c, t1);
        InsidePlain(b, t2);
        InsidePlain(a, t3);
        InsidePair(117, t4);
    }
  }

  lemma {:induction false} InsideString(ps: seq<Piece>, rest: Text)
    requires PiecesOk(ps)
    ensures Inside(PiecesText(ps) + [QUOTE] + rest) == Some(|PiecesText(ps)| + 1)
  {
    if ps == [] {
      assert PiecesText(ps) + [QUOTE] + rest == [QUOTE] + rest;
    } else {
      var tail := PiecesText(ps[1..]) + [QUOTE] + rest;
      InsideString(ps[1..], rest);
      assert PiecesText(ps) + [QUOTE] + rest == PieceText(ps[0]) + tail;
      InsidePiece(ps[0], tail);
    }
  }

  /** A string is one token, whatever it contains. */
  lemma TakeString(ps: seq<Piece>, rest: Text)
    requires PiecesOk(ps)
    ensures Tokens(Quoted(ps) + rest) == [Quote(Quoted(ps))] + Tokens(rest)
  {
    hide PiecesText, Inside;
    var t := Quoted(ps) + rest;
    InsideString(ps, rest);
    assert t[0] == QUOTE && t[1..] == PiecesText(ps) + [QUOTE] + rest;
    var n := |PiecesText(ps)| + 1;
    assert t[..n + 1] == Quoted(ps) && t[n + 1..] == rest;
  }

  lemma TakeBrackets(open: nat, inner: Text, tokens: seq<Token>, close: nat, rest: Text)
    requires IsMark(open) && IsMark(close) && Tokens(inner + ([close] + rest)) == tokens + Tokens([close] + rest)
    ensures Tokens([open] + inner + [close] + rest) == [Mark(open)] + tokens + [Mark(close)] + Tokens(rest)
  {
    hide Tokens;
    assert [open] + inner + [close] + rest == [open] + (inner + ([close] + rest));
    TakeMark(open, inner + ([close] + rest));
    TakeMark(close, rest);
    assert [Mark(open)] + (tokens + ([Mark(close)] + Tokens(rest))) == [Mark(open)] + tokens + [Mark(close)] + Tokens(rest);
  }

  lemma {:induction false} TakeValue(v: Json, rest: Text)
    requires Ok(v)
    ensures Tokens(Print(v) + rest) == ValueTokens(v) + Tokens(rest)
    decreases v
  {
    hide Tokens, Quoted;
    match v {
      case Literal(t) =>
        SkipInert(t, rest);
        assert [] + Tokens(rest) == Tokens(rest);
      case String(ps) => TakeString(ps, rest);
      case EmptyArray(s) =>
        SkipInert(s, [CLOSE_ARRAY] + rest);
        assert [] + Tokens([CLOSE_ARRAY] + rest) == Tokens([CLOSE_ARRAY] + rest);
        TakeBrackets(OPEN_ARRAY, s, [], CLOSE_ARRAY, rest);
        assert [Mark(OPEN_ARRAY)] + [] + [Mark(CLOSE_ARRAY)] == ValueTokens(v);
      case Array(es) =>
        TakeElements(es, [CLOSE_ARRAY] + rest);
        TakeBrackets(OPEN_ARRAY, PrintElements(es), ElementTokens(es), CLOSE_ARRAY, rest);
      case EmptyObject(s) =>
        SkipInert(s, [CLOSE_OBJECT] + rest);
        assert [] + Tokens([CLOSE_OBJECT] + rest) == Tokens([CLOSE_OBJECT] + rest);
        TakeBrackets(OPEN_OBJECT, s, [], CLOSE_OBJECT, rest);
        assert [Mark(OPEN_OBJECT)] + [] + [Mark(CLOSE_OBJECT)] == ValueTokens(v);
      case Object(ms) =>
        TakeMembers(ms, [CLOSE_OBJECT] + rest);
        TakeBrackets(OPEN_OBJECT, PrintMembers(ms), MemberTokens(ms), CLOSE_OBJECT, rest);
    }
  }

  lemma {:induction false} TakeElements(es: Elements, rest: Text)
    requires ElementsOk(es)
    ensures Tokens(PrintElements(es) + rest) == ElementTokens(es) + Tokens(rest)
    decreases es
  {
    hide Tokens, Print, ValueTokens;
    var more := if es.NextElement? then [COMMA] + PrintElements(es.rest) else [];
    var tokens := if es.NextElement? then [Mark(COMMA)] + ElementTokens(es.rest) else [];
    assert PrintElements(es) + rest == es.before + (Print(es.value) + (es.after + (more + rest)));
    SkipInert(es.before, Print(es.value) + (es.after + (more + rest)));
    TakeValue(es.value, es.after + (more + rest));
    SkipInert(es.after, more + rest);
    if es.NextElement? {
      assert more + rest == [COMMA] + (PrintElements(es.rest) + rest);
      TakeMark(COMMA, PrintElements(es.rest) + rest);
      TakeElements(es.rest, rest);
    } else {
      assert more + rest == rest;
    }
    assert Tokens(more + rest) == tokens + Tokens(rest);
    assert ValueTokens(es.value) + (tokens + Tokens(rest)) == ElementTokens(es) + Tokens(rest);
  }

  lemma TakeName(m: Member, rest: Text)
    requires MemberOk(m)
    ensures Tokens(PrintMember(m) + rest) == NameTokens(m) + Tokens(rest)
  {
    hide Tokens, Quoted;
    assert PrintMember(m) + rest == m.before + (Quoted(m.name) + (m.middle + ([COLON] + (m.gap + rest))));
    SkipInert(m.before, Quoted(m.name) + (m.middle + ([COLON] + (m.gap + rest))));
    TakeString(m.name, m.middle + ([COLON] + (m.gap + rest)));
    SkipInert(m.middle, [COLON] + (m.gap + rest));
    TakeMark(COLON, m.gap + rest);
    SkipInert(m.gap, rest);
  }

  lemma {:induction false} TakeMembers(ms: Members, rest: Text)
    requires MembersOk(ms)
    ensures Tokens(PrintMembers(ms) + rest) == MemberTokens(ms) + Tokens(rest)
    decreases ms
  {
    hide Tokens, Print, PrintMember, ValueTokens, NameTokens;
    var more := if ms.NextMember? then [COMMA] + PrintMembers(ms.rest) else [];
    var tokens := if ms.NextMember? then [Mark(COMMA)] + MemberTokens(ms.rest) else [];
    assert PrintMembers(ms) + rest == PrintMember(ms.member) + (Print(ms.value) + (ms.after + (more + rest)));
    TakeName(ms.member, Print(ms.value) + (ms.after + (more + rest)));
    TakeValue(ms.value, ms.after + (more + rest));
    SkipInert(ms.after, more + rest);
    if ms.NextMember? {
      assert more + rest == [COMMA] + (PrintMembers(ms.rest) + rest);
      TakeMark(COMMA, PrintMembers(ms.rest) + rest);
      TakeMembers(ms.rest, rest);
    } else {
      assert more + rest == rest;
    }
    assert Tokens(more + rest) == tokens + Tokens(rest);
    assert NameTokens(ms.member) + (ValueTokens(ms.value) + (tokens + Tokens(rest))) == MemberTokens(ms) + Tokens(rest);
  }

  // ---------------------------------------------------------------- decoding a name

  lemma DecodePiece(p: Piece, t: Text)
    requires PieceOk(p)
    ensures Decode(PieceText(p) + t) == Join(Value(p), Decode(t))
  {
    var all := PieceText(p) + t;
    match p {
      case Plain(c) => assert all[1..] == t;
      case Escape(c) => assert all[2..] == t;
      case Hex(a, b, c, d) => assert all[6..] == t;
    }
  }

  /** Decoding a printed string gives back the characters it stands for. */
  lemma {:induction false} DecodePieces(ps: seq<Piece>)
    requires PiecesOk(ps)
    ensures Decode(PiecesText(ps)) == Some(Decoded(ps))
  {
    if ps != [] {
      DecodePiece(ps[0], PiecesText(ps[1..]));
      DecodePieces(ps[1..]);
    }
  }

  lemma DecodeQuoted(ps: seq<Piece>)
    requires PiecesOk(ps)
    ensures DecodeToken(Quoted(ps)) == Some(Decoded(ps))
  {
    hide PiecesText, Decode;
    assert Quoted(ps)[1..|Quoted(ps)| - 1] == PiecesText(ps);
    DecodePieces(ps);
  }

  // ---------------------------------------------------------------- the scan of a printed value

  lemma ScanFirst(stack: seq<Frame>, token: Token, rest: seq<Token>)
    ensures Scan(stack, [token] + rest) ==
            if Step(stack, token).Go? then Scan(Step(stack, token).stack, rest) else Step(stack, token)
  {
    assert ([token] + rest)[1..] == rest;
  }

  /** A value is expected next, or nothing that counts as a name. */
  predicate AtValue(stack: seq<Frame>) {
    stack != [] ==> Top(stack).keys.None? || !Top(stack).nextKey
  }

  /** A name repeats one already seen, or one before it. */
  predicate Clash(seen: set<Text>, names: seq<Text>)
    decreases |names|
  {
    names != [] && (names[0] in seen || Clash(seen + {names[0]}, names[1..]))
  }

  function SeenAfter(seen: set<Text>, names: seq<Text>): set<Text>
    decreases |names|
  {
    if names == [] then seen else SeenAfter(seen + {names[0]}, names[1..])
  }

  lemma {:induction false} ClashMeans(seen: set<Text>, names: seq<Text>)
    ensures Clash(seen, names) <==> Repeats(names) || exists i :: 0 <= i < |names| && names[i] in seen
    decreases |names|
  {
    if names != [] {
      var more, rest := seen + {names[0]}, names[1..];
      ClashMeans(more, rest);
      if Repeats(rest) {
        var i, j :| 0 <= i < j < |rest| && rest[i] == rest[j];
        assert names[i + 1] == names[j + 1];
      }
      if i :| 0 <= i < |rest| && rest[i] in more {
        assert names[i + 1] == rest[i];
        if rest[i] == names[0] { assert Repeats(names); }
      }
      if Repeats(names) {
        var i, j :| 0 <= i < j < |names| && names[i] == names[j];
        assert rest[j - 1] == names[j];
        if i > 0 { assert rest[i - 1] == rest[j - 1]; } else { assert rest[j - 1] in more; }
      }
      if i :| 0 <= i < |names| && names[i] in seen {
        if i > 0 { assert rest[i - 1] in more; }
      }
    }
  }

  /** The outcome of scanning something and then the rest of the tokens. */
  function Then(ambiguous: bool, stack: seq<Frame>, rest: seq<Token>): Outcome {
    if ambiguous then Duplicate else Scan(stack, rest)
  }

  /** Whatever a value contains, the scan passes it with its stack unchanged, or finds a repeated name inside. */
  lemma {:induction false} ScanValue(stack: seq<Frame>, v: Json, rest: seq<Token>)
    requires Ok(v) && AtValue(stack)
    ensures Scan(stack, ValueTokens(v) + rest) == Then(Ambiguous(v), stack, rest)
    decreases v
  {
    hide Scan, Quoted, Clash, Repeats, Names;
    match v {
      case Literal(_) =>
        assert [] + rest == rest;
      case String(ps) =>
        ScanFirst(stack, Quote(Quoted(ps)), rest);
      case EmptyArray(_) =>
        assert ValueTokens(v) + rest == [Mark(OPEN_ARRAY)] + ([Mark(CLOSE_ARRAY)] + rest);
        ScanClosed(stack, Mark(OPEN_ARRAY), Mark(CLOSE_ARRAY), rest);
      case EmptyObject(_) =>
        assert ValueTokens(v) + rest == [Mark(OPEN_OBJECT)] + ([Mark(CLOSE_OBJECT)] + rest);
        ScanClosed(stack, Mark(OPEN_OBJECT), Mark(CLOSE_OBJECT), rest);
      case Array(es) =>
        ScanElements(stack + [Frame(None, false)], es, [Mark(CLOSE_ARRAY)] + rest);
        ScanArray(stack, es, rest);
      case Object(ms) =>
        ScanMembers(stack, {}, ms, [Mark(CLOSE_OBJECT)] + rest);
        ScanObject(stack, ms, rest);
    }
  }

  lemma ScanArray(stack: seq<Frame>, es: Elements, rest: seq<Token>)
    requires var close := [Mark(CLOSE_ARRAY)] + rest;
             var inner := stack + [Frame(None, false)];
             Scan(inner, ElementTokens(es) + close) == Then(AmbiguousElements(es), inner, close)
    ensures Scan(stack, ValueTokens(Array(es)) + rest) == Then(AmbiguousElements(es), stack, rest)
  {
    hide Scan, ElementTokens, AmbiguousElements;
    assert ValueTokens(Array(es)) + rest == [Mark(OPEN_ARRAY)] + (ElementTokens(es) + ([Mark(CLOSE_ARRAY)] + rest));
    ScanFirst(stack, Mark(OPEN_ARRAY), ElementTokens(es) + ([Mark(CLOSE_ARRAY)] + rest));
    ScanPop(stack, Frame(None, false), Mark(CLOSE_ARRAY), rest);
  }

  lemma ScanObject(stack: seq<Frame>, ms: Members, rest: seq<Token>)
    requires var close := [Mark(CLOSE_OBJECT)] + rest;
             Scan(stack + [Frame(Some({}), true)], MemberTokens(ms) + close) ==
             Then(Clash({}, Names(ms)) || AmbiguousMembers(ms), stack + [Frame(Some(SeenAfter({}, Names(ms))), false)], close)
    ensures Scan(stack, ValueTokens(Object(ms)) + rest) == Then(Ambiguous(Object(ms)), stack, rest)
  {
    hide Scan, MemberTokens, AmbiguousMembers, Clash, Repeats, Names, SeenAfter;
    assert ValueTokens(Object(ms)) + rest == [Mark(OPEN_OBJECT)] + (MemberTokens(ms) + ([Mark(CLOSE_OBJECT)] + rest));
    ScanFirst(stack, Mark(OPEN_OBJECT), MemberTokens(ms) + ([Mark(CLOSE_OBJECT)] + rest));
    ScanPop(stack, Frame(Some(SeenAfter({}, Names(ms))), false), Mark(CLOSE_OBJECT), rest);
    ClashMeans({}, Names(ms));
  }

  lemma ScanPop(stack: seq<Frame>, frame: Frame, close: Token, rest: seq<Token>)
    requires close == Mark(CLOSE_ARRAY) || close == Mark(CLOSE_OBJECT)
    ensures Scan(stack + [frame], [close] + rest) == Scan(stack, rest)
  {
    ScanFirst(stack + [frame], close, rest);
    assert (stack + [frame])[..|stack|] == stack;
  }

  lemma ScanClosed(stack: seq<Frame>, open: Token, close: Token, rest: seq<Token>)
    requires open == Mark(OPEN_ARRAY) || open == Mark(OPEN_OBJECT)
    requires close == Mark(CLOSE_ARRAY) || close == Mark(CLOSE_OBJECT)
    ensures Scan(stack, [open] + ([close] + rest)) == Scan(stack, rest)
  {
    ScanFirst(stack, open, [close] + rest);
    ScanPop(stack, if open == Mark(OPEN_OBJECT) then Frame(Some({}), true) else Frame(None, false), close, rest);
  }

  lemma {:induction false} ScanElements(stack: seq<Frame>, es: Elements, rest: seq<Token>)
    requires ElementsOk(es) && stack != [] && Top(stack).keys.None?
    ensures Scan(stack, ElementTokens(es) + rest) == Then(AmbiguousElements(es), stack, rest)
    decreases es
  {
    hide Scan, ValueTokens;
    if es.NextElement? {
      var more := ElementTokens(es.rest) + rest;
      assert ElementTokens(es) + rest == ValueTokens(es.value) + ([Mark(COMMA)] + more);
      ScanValue(stack, es.value, [Mark(COMMA)] + more);
      ScanFirst(stack, Mark(COMMA), more);
      ScanElements(stack, es.rest, rest);
    } else {
      assert ElementTokens(es) + rest == ValueTokens(es.value) + rest;
      ScanValue(stack, es.value, rest);
    }
  }

  /** A member's name and colon: refused if the name was seen, remembered otherwise. */
  lemma ScanName(outer: seq<Frame>, seen: set<Text>, m: Member, rest: seq<Token>)
    requires MemberOk(m)
    ensures Scan(outer + [Frame(Some(seen), true)], NameTokens(m) + rest) ==
            Then(Decoded(m.name) in seen, outer + [Frame(Some(seen + {Decoded(m.name)}), false)], rest)
  {
    hide Scan, Quoted, Decoded, DecodeToken;
    var stack := outer + [Frame(Some(seen), true)];
    var named := outer + [Frame(Some(seen + {Decoded(m.name)}), false)];
    assert NameTokens(m) + rest == [Quote(Quoted(m.name))] + ([Mark(COLON)] + rest);
    ScanFirst(stack, Quote(Quoted(m.name)), [Mark(COLON)] + rest);
    DecodeQuoted(m.name);
    assert Top(stack) == Frame(Some(seen), true) && stack[..|stack| - 1] == outer;
    ScanFirst(named, Mark(COLON), rest);
    assert named[..|named| - 1] == outer && Replace(named, Top(named).(nextKey := false)) == named;
  }

  lemma {:induction false} ScanMembers(outer: seq<Frame>, seen: set<Text>, ms: Members, rest: seq<Token>)
    requires MembersOk(ms)
    ensures Scan(outer + [Frame(Some(seen), true)], MemberTokens(ms) + rest) ==
            Then(Clash(seen, Names(ms)) || AmbiguousMembers(ms), outer + [Frame(Some(SeenAfter(seen, Names(ms))), false)], rest)
    decreases ms
  {
    hide Scan, ValueTokens, NameTokens;
    var name := Decoded(ms.member.name);
    var now := seen + {name};
    var named := outer + [Frame(Some(now), false)];
    var tail := if ms.NextMember? then [Mark(COMMA)] + MemberTokens(ms.rest) else [];
    assert MemberTokens(ms) + rest == NameTokens(ms.member) + (ValueTokens(ms.value) + (tail + rest));
    ScanName(outer, seen, ms.member, ValueTokens(ms.value) + (tail + rest));
    ScanValue(named, ms.value, tail + rest);
    assert Names(ms)[0] == name;
    if ms.NextMember? {
      var more := MemberTokens(ms.rest) + rest;
      assert tail + rest == [Mark(COMMA)] + more;
      assert Names(ms)[1..] == Names(ms.rest);
      ScanFirst(named, Mark(COMMA), more);
      assert Replace(named, Top(named).(nextKey := true)) == outer + [Frame(Some(now), true)];
      ScanMembers(outer, now, ms.rest, rest);
    } else {
      assert tail + rest == rest;
      assert Names(ms)[1..] == [];
      assert SeenAfter(now, []) == now;
    }
  }

  /**
   On every JSON text the stack scan refuses exactly when some object at some depth has two members with the same
   decoded name, however the names are escaped and whatever else strings and arrays contain.
   */
  lemma ScanFindsDuplicates(before: Text, v: Json, after: Text)
    requires AllSpace(before) && Ok(v) && AllSpace(after)
    ensures Scan([], Tokens(Document(before, v, after))) == if Ambiguous(v) then Duplicate else Go([])
  {
    hide Tokens, Print, Ambiguous, ValueTokens;
    assert Document(before, v, after) == before + (Print(v) + (after + []));
    SkipInert(before, Print(v) + (after + []));
    TakeValue(v, after + []);
    SkipInert(after, []);
    assert Tokens([]) == [] by { NoTokens(); }
    ScanValue([], v, []);
  }

  lemma NoTokens()
    ensures Tokens([]) == []
  {
  }

  // ---------------------------------------------------------------- the decoder's object hook

  predicate RepeatsName<T>(pairs: seq<(Text, T)>) {
    exists i, j :: 0 <= i < j < |pairs| && pairs[i].0 == pairs[j].0
  }

  /** Collects the members of an object; refuses a repeated name. */
  method UniqueObject<T>(pairs: seq<(Text, T)>) returns (ok: bool, result: map<Text, T>)
    ensures ok <==> !RepeatsName(pairs)
    ensures ok ==> result.Keys == (set i | 0 <= i < |pairs| :: pairs[i].0)
    ensures ok ==> forall i :: 0 <= i < |pairs| ==> result[pairs[i].0] == pairs[i].1
  {
    result := map[];
    for n := 0 to |pairs|
      invariant result.Keys == (set i | 0 <= i < n :: pairs[i].0)
      invariant forall i :: 0 <= i < n ==> pairs[i].0 in result && result[pairs[i].0] == pairs[i].1
      invariant forall i, j :: 0 <= i < j < n ==> pairs[i].0 != pairs[j].0
    {
      var (key, value) := pairs[n];
      if key in result {
        assert RepeatsName(pairs);
        return false, map[];
      }
      result := result[key := value];
    }
    ok := true;
  }
}
