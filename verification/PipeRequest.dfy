/** How the gateway takes a request off a client connection, however the bytes arrive. */
module PipeRequest {
  import opened Options
  import opened PipeFrame
  import opened PipeLink
  import opened PipeGateway
  import opened PipeRouting
  import opened PipeWire

  /** The first line of a stream, if it ends within `limit` bytes. */
  function FirstLine(s: seq<Byte>, limit: nat): Option<seq<Byte>>
    decreases limit
  {
    if s == [] || limit == 0 then None
    else if s[0] == NEWLINE then Some([])
    else
      match FirstLine(s[1..], limit - 1)
      case None => None
      case Some(line) => Some([s[0]] + line)
  }

  /** What the gateway makes of everything a client sends: a request with its payload, or a refusal. */
  function RequestIn(base: nat, sent: seq<Byte>): Option<(Request, Payload)> {
    match FirstLine(sent, LINE_LIMIT)
    case None => None
    case Some(line) =>
      match GatewayRequest(base, line)
      case None => None
      case Some(r) =>
        var rest, bytes := Behind(sent, |line| + 1), if r.operation == LETTER_W then r.bytes else 0;
        if |rest| < bytes then None else Some((r, rest[..bytes]))
  }

  function Behind(s: seq<Byte>, n: nat): seq<Byte> {
    if n <= |s| then s[n..] else []
  }

  lemma {:induction false} LineIsFirst(line: seq<Byte>, rest: seq<Byte>, limit: nat)
    requires NEWLINE !in line
    ensures FirstLine(line + [NEWLINE] + rest, limit) == if |line| < limit then Some(line) else None
    decreases |line|
  {
    var s := line + [NEWLINE] + rest;
    if line != [] && limit > 0 {
      assert s[1..] == line[1..] + [NEWLINE] + rest;
      LineIsFirst(line[1..], rest, limit - 1);
      assert [line[0]] + line[1..] == line;
    }
  }

  lemma {:induction false} NoLine(s: seq<Byte>, limit: nat)
    requires NEWLINE !in s[..if |s| < limit then |s| else limit]
    ensures FirstLine(s, limit).None?
    decreases limit
  {
    if s != [] && limit > 0 {
      assert s[..if |s| < limit then |s| else limit][0] == s[0];
      assert s[1..][..if |s[1..]| < limit - 1 then |s[1..]| else limit - 1] == s[..if |s| < limit then |s| else limit][1..];
      NoLine(s[1..], limit - 1);
    }
  }

  /** The front part of `HandleClient`. */
  method ReadRequest(base: nat, socket: Socket) returns (r: Option<(Request, Payload)>)
    modifies socket
    ensures r == RequestIn(base, old(socket.pending))
  {
    ghost var sent := socket.pending;
    var ok, line := ReadLine(socket);
    if !ok {
      NoLine(sent, LINE_LIMIT);
      return None;
    }
    assert sent == line + [NEWLINE] + socket.pending;
    LineIsFirst(line, socket.pending, LINE_LIMIT);
    LineFits(sent, line, socket.pending);
    assert socket.pending == Behind(sent, |line| + 1);
    var request := GatewayRequest(base, line);
    if request.None? {
      return None;
    }
    if request.value.operation == LETTER_W {
      var complete, payload := ReadAll(socket, request.value.bytes);
      r := if complete then Some((request.value, payload)) else None;
    } else {
      r := Some((request.value, []));
    }
  }

  lemma LineFits(sent: seq<Byte>, line: seq<Byte>, rest: seq<Byte>)
    requires sent == line + [NEWLINE] + rest && NEWLINE !in line
    requires NEWLINE in sent[..if |sent| < LINE_LIMIT then |sent| else LINE_LIMIT]
    ensures |line| < LINE_LIMIT
  {
  }

  lemma {:induction false} DecimalLength(n: nat, digits: nat)
    requires n < Power(digits) && digits > 0
    ensures |Decimal(n)| <= digits
    decreases digits
  {
    if n >= 10 {
      assert digits > 1;
      Tenth(n, Power(digits - 1));
      DecimalLength(n / 10, digits - 1);
    }
  }

  lemma Tenth(n: nat, limit: nat)
    requires n < 10 * limit
    ensures n / 10 < limit
  {
  }

  function Power(digits: nat): nat {
    if digits == 0 then 1 else 10 * Power(digits - 1)
  }

  /** What the gateway takes off a connection that starts with a header: the request with exactly its
      payload, unless the line is too long, name or size do not fit, or the payload is not complete. */
  lemma RequestIsTaken(base: nat, operation: Byte, name: Name, bytes: nat, body: seq<Byte>)
    requires IsOperation(operation) && HasNoBlank(name) && name != []
    ensures var line, wanted := Header(operation, name, bytes), if operation == LETTER_W then bytes else 0;
      RequestIn(base, line + [NEWLINE] + body)
        == if |line| < LINE_LIMIT && Acceptable(base, name, bytes) && wanted <= |body|
           then Some((Request(operation, name, bytes), body[..wanted])) else None
  {
    var line := Header(operation, name, bytes);
    GatewayUnderstands(base, operation, name, bytes);
    LineIsFirst(line, body, LINE_LIMIT);
    assert Behind(line + [NEWLINE] + body, |line| + 1) == body;
  }

  /** Whatever request a client, or the router for it, is allowed to make, the gateway takes exactly
      this request and this payload off the connection, and nothing of what follows. */
  lemma RequestArrives(base: nat, operation: Byte, name: Name, bytes: nat, payload: Payload, more: seq<Byte>)
    requires IsOperation(operation) && HasNoBlank(name) && Acceptable(base, name, bytes)
    requires |payload| == if operation == LETTER_W then bytes else 0
    ensures RequestIn(base, Header(operation, name, bytes) + [NEWLINE] + payload + more)
         == Some((Request(operation, name, bytes), payload))
  {
    var line := Header(operation, name, bytes);
    assert Power(5) == 100000;
    DecimalLength(bytes, 5);
    RequestIsTaken(base, operation, name, bytes, payload + more);
    assert line + [NEWLINE] + payload + more == line + [NEWLINE] + (payload + more);
    assert (payload + more)[..|payload|] == payload;
  }
}
