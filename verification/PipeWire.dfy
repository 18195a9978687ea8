/** The text header of a PipeComm request, on its way from the client through the router to the
    gateway. */
module PipeWire {
  import opened Options
  import opened PipeFrame
  import opened PipeLink
  import opened PipeRouting

  const SPACE: Byte := 32
  const LETTER_W: Byte := 87
  const LETTER_R: Byte := 82

  datatype Request = Request(operation: Byte, name: Name, bytes: nat)

  predicate IsOperation(b: Byte) { b == LETTER_W || b == LETTER_R }

  // ----- Decimal numbers

  function Decimal(n: nat): (s: seq<Byte>)
    ensures IsDigits(s)
  {
    var digit: Byte := 48 + n % 10;
    if n < 10 then [digit] else Decimal(n / 10) + [digit]
  }

  function Value(s: seq<Byte>): nat
    requires forall i | 0 <= i < |s| :: 48 <= s[i] <= 57
  {
    if s == [] then 0 else 10 * Value(s[..|s| - 1]) + (s[|s| - 1] - 48) as int
  }

  lemma {:induction false} DecimalRoundTrip(n: nat)
    ensures Value(Decimal(n)) == n
  {
    var digit: Byte := 48 + n % 10;
    if n >= 10 {
      DecimalRoundTrip(n / 10);
      assert Decimal(n)[..|Decimal(n)| - 1] == Decimal(n / 10);
    } else {
      assert [digit][..0] == [];
    }
  }

  /** The high digit comes first, and there is no zero in front of it. */
  lemma DecimalDigits(n: nat, digit: nat)
    requires digit < 10
    ensures Decimal(10 * n + digit) == if n == 0 then [48 + digit] else Decimal(n) + [48 + digit]
  {
  }

  // ----- The header

  /** A header line without its newline. */
  function Header(operation: Byte, name: Name, bytes: nat): seq<Byte> {
    [operation] + [SPACE] + name + [SPACE] + Decimal(bytes)
  }

  /** The first line of a stream; the end of the stream ends a line, too. */
  function LineOf(s: seq<Byte>): seq<Byte> {
    if s == [] || s[0] == NEWLINE then [] else [s[0]] + LineOf(s[1..])
  }

  function BehindLine(s: seq<Byte>): seq<Byte> {
    if |LineOf(s)| + 1 <= |s| then s[|LineOf(s)| + 1..] else []
  }

  lemma {:induction false} LineEnds(line: seq<Byte>, rest: seq<Byte>)
    requires NEWLINE !in line
    ensures LineOf(line + [NEWLINE] + rest) == line && BehindLine(line + [NEWLINE] + rest) == rest
    decreases |line|
  {
    var s := line + [NEWLINE] + rest;
    if line != [] {
      assert s[1..] == line[1..] + [NEWLINE] + rest;
      LineEnds(line[1..], rest);
      assert [line[0]] + line[1..] == line;
    }
  }

  predicate IsAscii(s: seq<Byte>) {
    forall i | 0 <= i < |s| :: s[i] < 128
  }

  /** The longest line that a stream reader of asyncio returns. */
  const LINE_BYTES := 0x1_0000

  /** The router takes ASCII lines only, splits at single spaces, and strips directories off the name. */
  function RouterRequest(line: seq<Byte>, limit: nat): Option<Request> {
    var f := Split(line, SPACE);
    if |line| > LINE_BYTES || !IsAscii(line) || |f| != 3 || |f[0]| != 1 || !IsOperation(f[0][0]) || !IsDigits(f[2]) || Value(f[2]) > limit then None
    else Some(Request(f[0][0], Basename(f[1]), Value(f[2])))
  }

  predicate IsBlank(b: Byte) { b == SPACE || 9 <= b <= 13 }

  function SkipBlanks(s: seq<Byte>): seq<Byte> {
    if s != [] && IsBlank(s[0]) then SkipBlanks(s[1..]) else s
  }

  /** The length of the longest prefix without a blank. */
  function WordLength(s: seq<Byte>): (n: nat)
    ensures n <= |s|
  {
    if s == [] || IsBlank(s[0]) then 0 else 1 + WordLength(s[1..])
  }

  /** The gateway extracts a character, a word and an unsigned number, each after any blanks, and wants
      nothing but blanks behind them. */
  function GatewayRequest(base: nat, line: seq<Byte>): Option<Request> {
    var s := SkipBlanks(line);
    if s == [] then None
    else
      var t := SkipBlanks(s[1..]);
      var n := WordLength(t);
      var u := SkipBlanks(t[n..]);
      var d := WordLength(u);
      if n == 0 || !IsDigits(u[..d]) || SkipBlanks(u[d..]) != [] || !IsOperation(s[0])
         || !Acceptable(base, t[..n], Value(u[..d]))
      then None
      else Some(Request(s[0], t[..n], Value(u[..d])))
  }

  predicate HasNoBlank(s: seq<Byte>) {
    forall i | 0 <= i < |s| :: !IsBlank(s[i])
  }

  lemma {:induction false} WordEnds(a: seq<Byte>, b: seq<Byte>)
    requires HasNoBlank(a) && (b == [] || IsBlank(b[0]))
    ensures WordLength(a + b) == |a|
    decreases |a|
  {
    if a == [] {
      assert a + b == b;
    } else {
      assert (a + b)[1..] == a[1..] + b;
      WordEnds(a[1..], b);
    }
  }

  /** What the client sends is what the router understands, up to directories in front of the name; and
      it refuses exactly the names that are not ASCII, sizes above its limit, and lines that are too long. */
  lemma RouterUnderstands(operation: Byte, name: Name, bytes: nat, limit: nat)
    requires IsOperation(operation) && SPACE !in name
    ensures var line := Header(operation, name, bytes);
      RouterRequest(line, limit)
        == if IsAscii(name) && bytes <= limit && |line| <= LINE_BYTES then Some(Request(operation, Basename(name), bytes)) else None
  {
    HeaderFields(operation, name, bytes);
    DecimalRoundTrip(bytes);
    AsciiHeader(operation, name, bytes);
  }

  lemma HeaderFields(operation: Byte, name: Name, bytes: nat)
    requires IsOperation(operation) && SPACE !in name
    ensures Split(Header(operation, name, bytes), SPACE) == [[operation], name, Decimal(bytes)]
  {
    var rest := name + [SPACE] + Decimal(bytes);
    assert Header(operation, name, bytes) == [operation] + [SPACE] + rest;
    SplitFirst([operation], SPACE, rest);
    NameAndNumber(name, bytes);
  }

  lemma NameAndNumber(name: Name, bytes: nat)
    requires SPACE !in name
    ensures Split(name + [SPACE] + Decimal(bytes), SPACE) == [name, Decimal(bytes)]
  {
    SplitNone(Decimal(bytes), SPACE);
    SplitFirst(name, SPACE, Decimal(bytes));
  }

  lemma AsciiHeader(operation: Byte, name: Name, bytes: nat)
    requires IsOperation(operation)
    ensures IsAscii(Header(operation, name, bytes)) <==> IsAscii(name)
    ensures NEWLINE !in name ==> NEWLINE !in Header(operation, name, bytes)
  {
    var line := Header(operation, name, bytes);
    if !IsAscii(name) {
      var i :| 0 <= i < |name| && name[i] >= 128;
      assert line[2 + i] == name[i];
    }
  }

  /** What the router forwards is what the gateway understands, and it refuses exactly the names and sizes
      that do not fit. */
  lemma GatewayUnderstands(base: nat, operation: Byte, name: Name, bytes: nat)
    requires IsOperation(operation) && HasNoBlank(name) && name != []
    ensures GatewayRequest(base, Header(operation, name, bytes))
         == if Acceptable(base, name, bytes) then Some(Request(operation, name, bytes)) else None
  {
    var number := Decimal(bytes);
    DecimalRoundTrip(bytes);
    HeaderWords(operation, name, bytes);
    SkipOne(name + ([SPACE] + number));
    WordEnds(name, [SPACE] + number);
    SkipOne(number);
    WordEnds(number, []);
    assert number + [] == number && number[..|number|] == number;
  }

  /** The header, word by word. */
  lemma HeaderWords(operation: Byte, name: Name, bytes: nat)
    ensures var line, number := Header(operation, name, bytes), Decimal(bytes);
      var rest := name + ([SPACE] + number);
      && line[0] == operation && line[1..] == [SPACE] + rest
      && rest[..|name|] == name && rest[|name|..] == [SPACE] + number
  {
  }

  lemma SkipOne(s: seq<Byte>)
    requires s != [] && !IsBlank(s[0])
    ensures SkipBlanks([SPACE] + s) == s
  {
    assert ([SPACE] + s)[1..] == s;
  }

  /** A name that a client can send: one ASCII word, with or without directories. */
  predicate IsClientName(raw: Name) {
    SPACE !in raw && NEWLINE !in raw && IsAscii(raw)
  }

  /** The names of the protocol contain no blank, so that every write or read of a placed pipe reaches
      the gateway under the name that the router derived from it. */
  lemma RequestSurvives(base: nat, operation: Byte, raw: Name, bytes: nat, limit: nat)
    requires IsOperation(operation) && IsClientName(raw) && ParsePipe(Basename(raw)).Some?
    requires bytes <= limit && |Header(operation, raw, bytes)| <= LINE_BYTES && Acceptable(base, Basename(raw), bytes)
    ensures var r := Request(operation, Basename(raw), bytes);
      && RouterRequest(LineOf(Header(operation, raw, bytes) + [NEWLINE]), limit) == Some(r)
      && GatewayRequest(base, Header(r.operation, r.name, r.bytes)) == Some(r)
  {
    var line := Header(operation, raw, bytes);
    RouterUnderstands(operation, raw, bytes, limit);
    AsciiHeader(operation, raw, bytes);
    LineEnds(line, []);
    assert line + [NEWLINE] + [] == line + [NEWLINE];
    PipeNamesHaveNoBlank(Basename(raw));
    GatewayUnderstands(base, operation, Basename(raw), bytes);
  }

  lemma PipeNamesHaveNoBlank(name: Name)
    requires ParsePipe(name).Some?
    ensures HasNoBlank(name)
  {
    var f := Split(name[6..], UNDERSCORE);
    forall k | 0 <= k < |f| ensures HasNoBlank(f[k]) {
      NumberHasNoBlank(f[k]);
    }
    FieldsHaveNoBlank(name[6..], UNDERSCORE);
    assert name == BUFFER + name[6..];
  }

  lemma NumberHasNoBlank(s: seq<Byte>)
    requires IsInteger(s)
    ensures HasNoBlank(s)
  {
    if !IsDigits(s) {
      assert s == [s[0]] + s[1..];
    }
  }

  lemma {:induction false} FieldsHaveNoBlank(s: seq<Byte>, separator: Byte)
    requires !IsBlank(separator) && forall k | 0 <= k < |Split(s, separator)| :: HasNoBlank(Split(s, separator)[k])
    ensures HasNoBlank(s)
    decreases |s|
  {
    if s != [] {
      var f, rest := Split(s, separator), Split(s[1..], separator);
      forall k | 0 <= k < |rest| ensures HasNoBlank(rest[k]) {
        if s[0] == separator {
          assert f[k + 1] == rest[k];
        } else if k == 0 {
          assert f[0] == [s[0]] + rest[0] && f[0][1..] == rest[0];
        } else {
          assert f[k] == rest[k];
        }
      }
      FieldsHaveNoBlank(s[1..], separator);
      if s[0] != separator {
        assert f[0][0] == s[0];
      }
      assert s == [s[0]] + s[1..];
    }
  }
}
