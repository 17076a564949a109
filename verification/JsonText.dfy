/**
 JSON texts (RFC 8259) with everything a scanner sees: white space, escapes and member order are kept.

 Characters are their codes.  A literal is any run of letters, digits, signs and points, which covers the numbers
 and the three constants.
 */
module JsonText {
  type Text = seq<nat>

  const QUOTE := 34
  const COMMA := 44
  const COLON := 58
  const OPEN_ARRAY := 91
  const BACKSLASH := 92
  const CLOSE_ARRAY := 93
  const OPEN_OBJECT := 123
  const CLOSE_OBJECT := 125

  /** One character of a string: itself, a two-character escape, or four hexadecimal digits. */
  datatype Piece = Plain(code: nat) | Escape(letter: nat) | Hex(a: nat, b: nat, c: nat, d: nat)

  datatype Json =
    | Literal(text: Text)
    | String(pieces: seq<Piece>)
    | EmptyArray(space: Text)
    | Array(elements: Elements)
    | EmptyObject(space: Text)
    | Object(members: Members)

  datatype Elements =
    | LastElement(before: Text, value: Json, after: Text)
    | NextElement(before: Text, value: Json, after: Text, rest: Elements)

  datatype Member = Member(before: Text, name: seq<Piece>, middle: Text, gap: Text)

  datatype Members =
    | LastMember(member: Member, value: Json, after: Text)
    | NextMember(member: Member, value: Json, after: Text, rest: Members)

  // ---------------------------------------------------------------- what is well formed

  predicate IsSpace(c: nat) {
    c == 32 || c == 9 || c == 10 || c == 13
  }

  predicate IsDigit(c: nat) {
    48 <= c <= 57
  }

  predicate IsHex(c: nat) {
    IsDigit(c) || 65 <= c <= 70 || 97 <= c <= 102
  }

  predicate IsLiteral(c: nat) {
    IsDigit(c) || 97 <= c <= 122 || 65 <= c <= 90 || c == 43 || c == 45 || c == 46
  }

  predicate AllSpace(t: Text) {
    forall i :: 0 <= i < |t| ==> IsSpace(t[i])
  }

  predicate AllLiteral(t: Text) {
    forall i :: 0 <= i < |t| ==> IsLiteral(t[i])
  }

  /** The letters after a backslash: quotation mark, backslash, slash, b, f, n, r, t. */
  predicate IsEscape(c: nat) {
    c == 34 || c == 92 || c == 47 || c == 98 || c == 102 || c == 110 || c == 114 || c == 116
  }

  predicate PieceOk(p: Piece) {
    match p
    case Plain(c) => c >= 32 && c != QUOTE && c != BACKSLASH
    case Escape(c) => IsEscape(c)
    case Hex(a, b, c, d) => IsHex(a) && IsHex(b) && IsHex(c) && IsHex(d)
  }

  predicate PiecesOk(ps: seq<Piece>) {
    forall i :: 0 <= i < |ps| ==> PieceOk(ps[i])
  }

  predicate Ok(v: Json) {
    match v
    case Literal(t) => AllLiteral(t)
    case String(ps) => PiecesOk(ps)
    case EmptyArray(s) => AllSpace(s)
    case Array(es) => ElementsOk(es)
    case EmptyObject(s) => AllSpace(s)
    case Object(ms) => MembersOk(ms)
  }

  predicate ElementsOk(es: Elements) {
    AllSpace(es.before) && Ok(es.value) && AllSpace(es.after) && (es.NextElement? ==> ElementsOk(es.rest))
  }

  predicate MemberOk(m: Member) {
    AllSpace(m.before) && PiecesOk(m.name) && AllSpace(m.middle) && AllSpace(m.gap)
  }

  predicate MembersOk(ms: Members) {
    MemberOk(ms.member) && Ok(ms.value) && AllSpace(ms.after) && (ms.NextMember? ==> MembersOk(ms.rest))
  }

  // ---------------------------------------------------------------- the text

  function PieceText(p: Piece): Text {
    match p
    case Plain(c) => [c]
    case Escape(c) => [BACKSLASH, c]
    case Hex(a, b, c, d) => [BACKSLASH, 117, a, b, c, d]
  }

  function PiecesText(ps: seq<Piece>): Text {
    if ps == [] then [] else PieceText(ps[0]) + PiecesText(ps[1..])
  }

  function Quoted(ps: seq<Piece>): Text {
    [QUOTE] + PiecesText(ps) + [QUOTE]
  }

  function Print(v: Json): Text {
    match v
    case Literal(t) => t
    case String(ps) => Quoted(ps)
    case EmptyArray(s) => [OPEN_ARRAY] + s + [CLOSE_ARRAY]
    case Array(es) => [OPEN_ARRAY] + PrintElements(es) + [CLOSE_ARRAY]
    case EmptyObject(s) => [OPEN_OBJECT] + s + [CLOSE_OBJECT]
    case Object(ms) => [OPEN_OBJECT] + PrintMembers(ms) + [CLOSE_OBJECT]
  }

  function PrintElements(es: Elements): Text {
    es.before + Print(es.value) + es.after + if es.NextElement? then [COMMA] + PrintElements(es.rest) else []
  }

  function PrintMember(m: Member): Text {
    m.before + Quoted(m.name) + m.middle + [COLON] + m.gap
  }

  function PrintMembers(ms: Members): Text {
    PrintMember(ms.member) + Print(ms.value) + ms.after + if ms.NextMember? then [COMMA] + PrintMembers(ms.rest) else []
  }

  /** A value with white space around it. */
  function Document(before: Text, v: Json, after: Text): Text {
    before + Print(v) + after
  }

  // ---------------------------------------------------------------- the alphabet

  /** The codes above are those of RFC 8259, sections 2 and 7. */
  lemma Alphabet(c: char)
    ensures OPEN_ARRAY == '[' as nat && CLOSE_ARRAY == ']' as nat && OPEN_OBJECT == '{' as nat && CLOSE_OBJECT == '}' as nat
    ensures COMMA == ',' as nat && COLON == ':' as nat && QUOTE == '\"' as nat && BACKSLASH == '\\' as nat
    ensures IsSpace(c as nat) <==> c == ' ' || c == '\t' || c == '\n' || c == '\r'
    ensures IsEscape(c as nat) <==> c in "\"\\/bfnrt"
    ensures IsHex(c as nat) <==> '0' <= c <= '9' || 'a' <= c <= 'f' || 'A' <= c <= 'F'
    ensures IsLiteral(c as nat) <==> '0' <= c <= '9' || 'a' <= c <= 'z' || 'A' <= c <= 'Z' || c in "+-."
    ensures PieceOk(Plain(c as nat)) <==> c >= ' ' && c != '\"' && c != '\\'
  {
  }

  /** What an escape stands for. */
  lemma Escapes(c: char)
    requires IsEscape(c as nat)
    ensures Value(Escape(c as nat)) == if c == 'b' then 8 else if c == 'f' then 12 else if c == 'n' then '\n' as nat
                                       else if c == 'r' then '\r' as nat else if c == 't' then '\t' as nat else c as nat
    ensures PieceText(Escape(c as nat)) == ['\\' as nat, c as nat]
  {
  }

  /** Four hexadecimal digits, of either case, stand for the number they write. */
  lemma HexDigits(a: nat, b: nat, c: nat, d: nat)
    requires a < 16 && b < 16 && c < 16 && d < 16
    ensures Value(Hex(Digit(a, 'a'), Digit(b, 'A'), Digit(c, 'a'), Digit(d, 'A'))) == a * 4096 + b * 256 + c * 16 + d
    ensures Value(Hex(Digit(a, 'A'), Digit(b, 'a'), Digit(c, 'A'), Digit(d, 'a'))) == a * 4096 + b * 256 + c * 16 + d
  {
  }

  function Digit(n: nat, ten: char): nat {
    if n < 10 then '0' as nat + n else ten as nat + (n - 10)
  }

  // ---------------------------------------------------------------- nesting

  function Max(a: nat, b: nat): nat {
    if a < b then b else a
  }

  /** How deep arrays and objects are nested. */
  function Depth(v: Json): nat {
    match v
    case Literal(_) => 0
    case String(_) => 0
    case EmptyArray(_) => 1
    case Array(es) => 1 + ElementsDepth(es)
    case EmptyObject(_) => 1
    case Object(ms) => 1 + MembersDepth(ms)
  }

  function ElementsDepth(es: Elements): nat {
    if es.NextElement? then Max(Depth(es.value), ElementsDepth(es.rest)) else Depth(es.value)
  }

  function MembersDepth(ms: Members): nat {
    if ms.NextMember? then Max(Depth(ms.value), MembersDepth(ms.rest)) else Depth(ms.value)
  }

  // ---------------------------------------------------------------- member names

  function HexValue(c: nat): nat {
    if IsDigit(c) then c - 48 else if 97 <= c then c - 87 else if 65 <= c then c - 55 else 0
  }

  function Escaped(c: nat): nat {
    if c == 98 then 8 else if c == 102 then 12 else if c == 110 then 10 else if c == 114 then 13 else if c == 116 then 9 else c
  }

  /** The character a piece stands for. */
  function Value(p: Piece): nat {
    match p
    case Plain(c) => c
    case Escape(c) => Escaped(c)
    case Hex(a, b, c, d) => ((HexValue(a) * 16 + HexValue(b)) * 16 + HexValue(c)) * 16 + HexValue(d)
  }

  function Decoded(ps: seq<Piece>): Text {
    if ps == [] then [] else [Value(ps[0])] + Decoded(ps[1..])
  }

  function Names(ms: Members): seq<Text> {
    [Decoded(ms.member.name)] + if ms.NextMember? then Names(ms.rest) else []
  }

  predicate Repeats(names: seq<Text>) {
    exists i, j :: 0 <= i < j < |names| && names[i] == names[j]
  }

  /** Some object, at some depth, has two members with the same name. */
  predicate Ambiguous(v: Json) {
    match v
    case Array(es) => AmbiguousElements(es)
    case Object(ms) => Repeats(Names(ms)) || AmbiguousMembers(ms)
    case _ => false
  }

  predicate AmbiguousElements(es: Elements) {
    Ambiguous(es.value) || (es.NextElement? && AmbiguousElements(es.rest))
  }

  predicate AmbiguousMembers(ms: Members) {
    Ambiguous(ms.value) || (ms.NextMember? && AmbiguousMembers(ms.rest))
  }
}
