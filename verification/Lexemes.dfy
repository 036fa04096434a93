/**
  The tokens of a script's text: what each token is, read off the bytes that remain. Positions are in `Lexer`.
*/
module Lexemes {
  import opened Utf8

  /** Which runes above ASCII are letters and digits. */
  datatype Tables = Tables(letter: int -> bool, digit: int -> bool)

  /** Words are identifiers and keywords, whose kinds are a function of the literal; so are those of operators. */
  datatype Kind = Eof | Illegal | Str | Int | Float | Duration | Word | Operator

  datatype Fault = UnexpectedCharacter | UnterminatedString | UnterminatedEscape | UnterminatedComment

  datatype Report = Report(fault: Fault, offset: nat)

  datatype Lexeme = Lexeme(kind: Kind, literal: seq<byte>, size: nat, faults: seq<Fault>)

  /** A token with its byte offset and the number of bytes it was read from. */
  datatype Item = Item(kind: Kind, literal: seq<byte>, offset: nat, size: nat)

  const NEWLINE: byte := 10
  const BLANK: byte := 32
  const QUOTE: byte := 34
  const BACKSLASH: byte := 92
  const STAR: byte := 42
  const SLASH: byte := 47
  const HASH: byte := 35
  const DOT: byte := 46

  // ---------- Blanks and comments ----------

  predicate IsBlank(b: byte) {
    b == BLANK || b == 9 || b == 13 || b == NEWLINE
  }

  function LineLength(s: seq<byte>): (n: nat)
    ensures n <= |s| && NEWLINE !in s[..n]
    ensures n < |s| ==> s[n] == NEWLINE
  {
    if s == [] || s[0] == NEWLINE then 0
    else
      assert forall n: nat :: n <= |s[1..]| ==> s[..n + 1] == [s[0]] + s[1..][..n];
      1 + LineLength(s[1..])
  }

  predicate Closes(s: seq<byte>) {
    |s| >= 2 && s[0] == STAR && s[1] == SLASH
  }

  /** The bytes of a block comment after its opening: up to and with the first closing, or all. */
  function CommentLength(s: seq<byte>): (n: nat)
    ensures n <= |s|
  {
    if s == [] then 0
    else if Closes(s) then 2
    else 1 + CommentLength(s[1..])
  }

  /** Whether the missing end of a block comment is reported: only when its last rune is one byte long. */
  predicate CommentReported(s: seq<byte>) {
    if s == [] || Closes(s) then false
    else if |s| == 1 then true
    else CommentReported(s[Decode(s).size..])
  }

  predicate OpensLine(s: seq<byte>) {
    s != [] && (s[0] == HASH || (|s| >= 2 && s[0] == SLASH && s[1] == SLASH))
  }

  predicate OpensBlock(s: seq<byte>) {
    |s| >= 2 && s[0] == SLASH && s[1] == STAR
  }

  function Skip(s: seq<byte>): (n: nat)
    ensures n <= |s|
  {
    if s == [] then 0
    else if IsBlank(s[0]) then 1 + Skip(s[1..])
    else if OpensLine(s) then LineLength(s) + Skip(s[LineLength(s)..])
    else if OpensBlock(s) then 2 + CommentLength(s[2..]) + Skip(s[2 + CommentLength(s[2..])..])
    else 0
  }

  /** The block comments reported as unterminated. */
  function SkipReports(s: seq<byte>, at: nat): seq<Report> {
    if s == [] then []
    else if IsBlank(s[0]) then SkipReports(s[1..], at + 1)
    else if OpensLine(s) then SkipReports(s[LineLength(s)..], at + LineLength(s))
    else if OpensBlock(s) then
      (if CommentReported(s[2..]) then [Report(UnterminatedComment, at)] else []) +
      SkipReports(s[2 + CommentLength(s[2..])..], at + 2 + CommentLength(s[2..]))
    else []
  }

  // ---------- Numbers and durations ----------

  predicate IsDigit(b: byte) {
    48 <= b <= 57
  }

  /** d, h, m or s. */
  predicate IsUnit(b: byte) {
    b == 100 || b == 104 || b == 109 || b == 115
  }

  function DigitsLength(s: seq<byte>): (n: nat)
    ensures n <= |s|
  {
    if s != [] && IsDigit(s[0]) then 1 + DigitsLength(s[1..]) else 0
  }

  /** The rest of a compound duration after its first unit: digits, each perhaps followed by a unit. */
  function CompoundLength(s: seq<byte>): (n: nat)
    ensures n <= |s|
  {
    if s == [] || !IsDigit(s[0]) then 0
    else if |s| > 1 && IsUnit(s[1]) then 2 + CompoundLength(s[2..])
    else 1 + CompoundLength(s[1..])
  }

  function NumberAt(t: Tables, s: seq<byte>): (x: Lexeme)
    ensures x.size <= |s|
  {
    var n := DigitsLength(s);
    var rest := s[n..];
    if rest != [] && IsUnit(rest[0]) then
      var d := n + 1 + CompoundLength(rest[1..]);
      if StartsWord(t, s[d..]) then Lexeme(Int, s[..n], n, [])
      else Lexeme(Duration, s[..d], d, [])
    else if |rest| > 1 && rest[0] == DOT && IsDigit(rest[1]) then
      var f := n + 1 + DigitsLength(rest[1..]);
      Lexeme(Float, s[..f], f, [])
    else
      Lexeme(Int, s[..n], n, [])
  }

  // ---------- Words ----------

  predicate IsLetter(t: Tables, c: int) {
    if c < 0x80 then 65 <= c <= 90 || 97 <= c <= 122 else c != RUNE_ERROR && t.letter(c)
  }

  predicate IsIdentStart(t: Tables, c: int) {
    c == 95 || IsLetter(t, c)
  }

  predicate IsIdentContinue(t: Tables, c: int) {
    IsIdentStart(t, c) || (if c < 0x80 then 48 <= c <= 57 else c != RUNE_ERROR && t.digit(c))
  }

  predicate StartsWord(t: Tables, s: seq<byte>) {
    s != [] && IsIdentStart(t, Decode(s).code)
  }

  predicate ContinuesWord(t: Tables, s: seq<byte>) {
    s != [] && IsIdentContinue(t, Decode(s).code)
  }

  function WordLength(t: Tables, s: seq<byte>): (n: nat)
    ensures n <= |s|
  {
    if ContinuesWord(t, s) then Decode(s).size + WordLength(t, s[Decode(s).size..]) else 0
  }

  // ---------- Strings ----------

  function Escaped(c: int): seq<byte>
    requires ValidCode(c)
  {
    if c == QUOTE as int then [QUOTE]
    else if c == BACKSLASH as int then [BACKSLASH]
    else if c == 110 then [NEWLINE]
    else if c == 116 then [9]
    else if c == 114 then [13]
    else [BACKSLASH] + Encode(c)
  }

  /** A string after its opening quote. */
  function StringBody(s: seq<byte>): (x: Lexeme)
    ensures x.size <= |s|
  {
    if s == [] then Lexeme(Str, [], 0, [UnterminatedString])
    else
      var r := Decode(s);
      var rest := s[r.size..];
      if r.code == QUOTE as int then Lexeme(Str, [], 1, [])
      else if r.code == BACKSLASH as int then
        if rest == [] then Lexeme(Str, [], 1, [UnterminatedEscape])
        else
          var e := Decode(rest);
          var x := StringBody(rest[e.size..]);
          Lexeme(Str, Escaped(e.code) + x.literal, 1 + e.size + x.size, x.faults)
      else
        var x := StringBody(rest);
        Lexeme(Str, Encode(r.code) + x.literal, r.size + x.size, x.faults)
  }

  // ---------- Operators ----------

  /** .. ${ <= >= == != && || */
  predicate IsDouble(a: byte, b: byte) {
    || (a == 46 && b == 46) || (a == 36 && b == 123)
    || ((a == 60 || a == 62 || a == 61 || a == 33) && b == 61)
    || (a == 38 && b == 38) || (a == 124 && b == 124)
  }

  /** { } ( ) [ ] , . : = ! < > + - * / % */
  predicate IsSingle(a: byte) {
    || a == 123 || a == 125 || a == 40 || a == 41 || a == 91 || a == 93
    || a == 44 || a == 46 || a == 58 || a == 61 || a == 33 || a == 60 || a == 62
    || a == 43 || a == 45 || a == 42 || a == 47 || a == 37
  }

  // ---------- One token, and all of them ----------

  function TokenAt(t: Tables, s: seq<byte>): (x: Lexeme)
    requires s != []
    ensures 1 <= x.size <= |s|
  {
    if s[0] == QUOTE then
      var x := StringBody(s[1..]);
      Lexeme(Str, x.literal, 1 + x.size, x.faults)
    else if IsDigit(s[0]) then NumberAt(t, s)
    else if StartsWord(t, s) then Lexeme(Word, s[..WordLength(t, s)], WordLength(t, s), [])
    else if |s| > 1 && IsDouble(s[0], s[1]) then Lexeme(Operator, s[..2], 2, [])
    else if IsSingle(s[0]) then Lexeme(Operator, s[..1], 1, [])
    else Lexeme(Illegal, Encode(Decode(s).code), Decode(s).size, [UnexpectedCharacter])
  }

  /** The tokens of the bytes that remain, the first of which is at offset `at`. */
  function Lex(t: Tables, s: seq<byte>, at: nat): (items: seq<Item>)
    ensures items != []
    decreases |s|, 1
  {
    LexToken(t, s[Skip(s)..], at + Skip(s))
  }

  /** The same where no blank and no comment comes first. */
  function LexToken(t: Tables, s: seq<byte>, at: nat): (items: seq<Item>)
    ensures items != []
    decreases |s|, 0
  {
    if s == [] then [Item(Eof, [], at, 0)]
    else
      var x := TokenAt(t, s);
      [Item(x.kind, x.literal, at, x.size)] + Lex(t, s[x.size..], at + x.size)
  }

  function ReportsAt(faults: seq<Fault>, at: nat): seq<Report> {
    if faults == [] then [] else [Report(faults[0], at)] + ReportsAt(faults[1..], at)
  }

  /** The diagnostics of the same lexing, in order. */
  function Reports(t: Tables, s: seq<byte>, at: nat): seq<Report>
    decreases |s|, 1
  {
    SkipReports(s, at) + TokenReports(t, s[Skip(s)..], at + Skip(s))
  }

  function TokenReports(t: Tables, s: seq<byte>, at: nat): seq<Report>
    decreases |s|, 0
  {
    if s == [] then []
    else
      var x := TokenAt(t, s);
      ReportsAt(x.faults, at) + Reports(t, s[x.size..], at + x.size)
  }
}
