/** Reading messages from a socket: the bounded reader and the two message readers built on it. */
module Readers {
  import opened Wrappers
  import opened Text
  import opened Headers
  import opened Lines
  import M = Messages

  /** One end of a connection.  What the peer will have sent before it closes is fixed in advance. */
  class Socket {
    const wholeReads: bool   // recv(n) delivers n characters when there are that many
    var incoming: string
    var outgoing: string

    constructor (incoming: string, wholeReads: bool)
      ensures this.incoming == incoming && outgoing == "" && this.wholeReads == wholeReads
    {
      this.incoming, outgoing, this.wholeReads := incoming, "", wholeReads;
    }

    /** recv(n): some characters that have arrived, none only at the end; a negative size is an error. */
    method Recv(n: int) returns (r: Option<string>)
      modifies this
      ensures outgoing == old(outgoing)
      ensures n < 0 ==> r.None? && incoming == old(incoming)
      ensures n >= 0 ==> r.Some? && old(incoming) == r.value + incoming && |r.value| <= n
      ensures n > 0 && old(incoming) != "" ==> r.value != ""
      ensures n >= 0 && wholeReads ==> |r.value| == n || incoming == ""
    {
      if n < 0 { return None; }
      var most := if n <= |incoming| then n else |incoming|;
      var k: nat := most;
      if !wholeReads && most > 1 { k :| 1 <= k <= most; }
      r := Some(incoming[..k]);
      incoming := incoming[k..];
    }

    method Send(data: string)
      modifies this
      ensures outgoing == old(outgoing) + data && incoming == old(incoming)
    {
      outgoing := outgoing + data;
    }
  }

  // ----- the bounded reader, as steps on what is left to read and the reader's own count -----

  datatype Counts = Counts(incoming: string, haveRead: int)

  datatype Call = UntilCall(until: string, max: int) | ReadCall(max: int) | ReadAllCall

  /** How far read_until goes at most: its own maximum and what the limit leaves. */
  function Cap(maxRead: int, haveRead: int, max: int): Option<int> {
    if maxRead == -1 then (if max == -1 then None else Some(max))
    else if max == -1 || maxRead - haveRead < max then Some(maxRead - haveRead)
    else Some(max)
  }

  /** A character that reaches the call's own maximum is not counted. */
  function CountAfterUntil(maxRead: int, haveRead: int, max: int, n: nat): int {
    if maxRead == -1 || n == 0 then haveRead
    else if max != -1 && max <= n then haveRead + n - 1
    else haveRead + n
  }

  function RequestedSize(maxRead: int, haveRead: int, max: int): int {
    if maxRead == -1 then max
    else if max == -1 || maxRead - haveRead < max then maxRead - haveRead
    else max
  }

  predicate AtEof(maxRead: int, haveRead: int) { maxRead != -1 && haveRead >= maxRead }

  /** What one call does.  The size that recv delivers is the environment's choice. */
  ghost predicate Step(maxRead: int, s: Counts, call: Call, t: Counts) {
    match call
    case UntilCall(until, max) =>
      var n := ReadLength(s.incoming, until, Cap(maxRead, s.haveRead, max));
      t == Counts(s.incoming[n..], CountAfterUntil(maxRead, s.haveRead, max, n))
    case ReadCall(max) => StepRead(maxRead, s, max, t)
    case ReadAllCall =>
      if maxRead == -1 || s.haveRead == maxRead then t == s else StepRead(maxRead, s, -1, t)
  }

  ghost predicate StepRead(maxRead: int, s: Counts, max: int, t: Counts) {
    var size := RequestedSize(maxRead, s.haveRead, max);
    && t.haveRead == s.haveRead + size
    && |t.incoming| <= |s.incoming| && t.incoming == s.incoming[|s.incoming|-|t.incoming|..]
    && |s.incoming| - |t.incoming| <= if size < 0 then 0 else size
  }

  class SocketStreamReader {
    const sock: Socket
    const maxRead: int
    var haveRead: int

    constructor (sock: Socket, maxRead: int)
      ensures this.sock == sock && this.maxRead == maxRead && haveRead == 0
    {
      this.sock, this.maxRead, haveRead := sock, maxRead, 0;
    }

    ghost function State(): Counts
      reads this, sock
    {
      Counts(sock.incoming, haveRead)
    }

    /** One character at a time up to the delimiter, the maximum, the limit, or the end. */
    method ReadUntil(until: string, max: int) returns (ret: string)
      modifies this, sock
      ensures Step(maxRead, old(State()), UntilCall(until, max), State())
      ensures ret + sock.incoming == old(sock.incoming) && sock.outgoing == old(sock.outgoing)
    {
      hide ReadLength, EndsWith;
      ghost var input := sock.incoming;
      ghost var cap := Cap(maxRead, haveRead, max);
      ReadLengthFits(input, until, cap);
      ret := "";
      while true
        invariant ret + sock.incoming == input && sock.outgoing == old(sock.outgoing)
        invariant haveRead == if maxRead == -1 then old(haveRead) else old(haveRead) + |ret|
        invariant ret == "" || max == -1 || |ret| < max
        invariant ret == "" || ReadLength(input, until, cap) > |ret|
               || (sock.incoming == "" && ReadLength(input, until, cap) == |ret|)
        decreases |sock.incoming|
      {
        var data := sock.Recv(1);
        if data.value == "" {
          break;
        }
        ret := ret + data.value;
        NextCharacter(input, until, cap, |ret|);
        assert input[..|ret|] == ret;
        if max != -1 && max <= |ret| {
          break;
        }
        if maxRead != -1 {
          haveRead := haveRead + 1;
        }
        if maxRead != -1 && haveRead >= maxRead {
          break;
        }
        if EndsWith(ret, until) {
          break;
        }
      }
      assert ret + sock.incoming == input && sock.outgoing == old(sock.outgoing);
      assert ReadLength(input, until, cap) == |ret|;
      assert input[|ret|..] == sock.incoming;
    }

    method Read(max: int) returns (r: Option<string>)
      modifies this, sock
      ensures Step(maxRead, old(State()), ReadCall(max), State())
      ensures r.Some? <==> RequestedSize(maxRead, old(haveRead), max) >= 0
      ensures r.Some? ==> r.value + sock.incoming == old(sock.incoming)
      ensures r.None? ==> sock.incoming == old(sock.incoming)
      ensures r.Some? && sock.wholeReads ==>
        |r.value| == RequestedSize(maxRead, old(haveRead), max) || sock.incoming == ""
      ensures sock.outgoing == old(sock.outgoing)
    {
      if maxRead == -1 {
        haveRead := haveRead + max;
        r := sock.Recv(max);
      } else {
        var toRead := if max == -1 || maxRead - haveRead < max then maxRead - haveRead else max;
        haveRead := haveRead + toRead;
        r := sock.Recv(toRead);
      }
      assert r.Some? ==> old(sock.incoming)[|r.value|..] == sock.incoming;
    }

    method ReadAll() returns (r: Option<string>)
      modifies this, sock
      ensures Step(maxRead, old(State()), ReadAllCall, State())
      ensures r.Some? ==> r.value + sock.incoming == old(sock.incoming)
      ensures r.None? ==> sock.incoming == old(sock.incoming)
      ensures sock.wholeReads && old(haveRead) == 0 ==>
        M.ReadBody(maxRead, old(sock.incoming)) == if r.None? then None else Some((r.value, sock.incoming))
      ensures sock.outgoing == old(sock.outgoing)
    {
      hide ReadLength, EndsWith;
      ghost var input := sock.incoming;
      if maxRead == -1 || haveRead == maxRead {
        assert input[..0] == "" && input[0..] == input;
        return Some("");
      }
      r := Read(-1);
      if r.Some? && sock.wholeReads && old(haveRead) == 0 {
        BodyDelivered(maxRead, r.value, sock.incoming);
        assert M.ReadBody(maxRead, input) == Some((r.value, sock.incoming));
      }
    }
  }

  lemma BodyDelivered(limit: int, body: string, rest: string)
    requires 0 <= |body| <= limit && (|body| == limit || rest == "")
    ensures M.ReadBody(limit, body + rest) == Some((body, rest))
  {
    assert (body + rest)[..|body|] == body && (body + rest)[|body|..] == rest;
    if rest == "" { assert body + rest == body; }
  }

  lemma ReadLengthFits(s: string, until: string, cap: Option<int>)
    ensures ReadLength(s, until, cap) <= |s|
  {
  }

  /** Where read_until stands after n characters: it has finished, or it goes on past them. */
  lemma NextCharacter(s: string, until: string, cap: Option<int>, n: nat)
    requires 1 <= n <= |s| && (n == 1 || ReadLength(s, until, cap) > n - 1)
    ensures if StopsAt(s, until, cap, n) then ReadLength(s, until, cap) == n else ReadLength(s, until, cap) > n
  {
    assert ReadLength(s, until, cap) == UntilFrom(s, until, cap, 1);
    assert StopsAt(s, until, cap, ReadLength(s, until, cap));
  }

  // ----- keeping to the limit -----

  /** The call is paid for: what it took from the socket is counted, and the count stays within the limit. */
  ghost predicate PaidFor(limit: int, s: Counts, t: Counts) {
    |s.incoming| - |t.incoming| <= t.haveRead - s.haveRead && t.haveRead <= limit
  }

  /** A condition the caller can check before the call (read_until's own maximum aside). */
  predicate Disciplined(limit: int, s: Counts, call: Call) {
    match call
    case UntilCall(until, max) =>
      || s.incoming == ""
      || (!AtEof(limit, s.haveRead)
          && !(max != -1 && max <= ReadLength(s.incoming, until, Cap(limit, s.haveRead, max))))
    case ReadCall(max) => max >= -1
    case ReadAllCall => true
  }

  /** A call keeps to the limit exactly when it is disciplined. */
  lemma PaidForExactly(limit: nat, s: Counts, call: Call, t: Counts)
    requires 0 <= s.haveRead <= limit && Step(limit, s, call, t)
    ensures PaidFor(limit, s, t) <==> Disciplined(limit, s, call)
  {
    if call.UntilCall? {
      PaidForUntil(limit, s, call, t);
    } else {
      PaidForRead(limit, s, call, t);
    }
  }

  lemma PaidForRead(limit: nat, s: Counts, call: Call, t: Counts)
    requires 0 <= s.haveRead <= limit && !call.UntilCall? && Step(limit, s, call, t)
    ensures PaidFor(limit, s, t) <==> Disciplined(limit, s, call)
  {
    if call.ReadAllCall? {
      assert s.haveRead == limit ==> t == s;
    } else {
      SizeAsked(limit, s.haveRead, call.max);
    }
  }

  lemma SizeAsked(limit: nat, haveRead: nat, max: int)
    requires haveRead <= limit
    ensures var size := RequestedSize(limit, haveRead, max);
      haveRead + size <= limit && (size >= 0 <==> max >= -1)
  {
  }

  lemma PaidForUntil(limit: nat, s: Counts, call: Call, t: Counts)
    requires 0 <= s.haveRead <= limit && call.UntilCall? && Step(limit, s, call, t)
    ensures PaidFor(limit, s, t) <==> Disciplined(limit, s, call)
  {
    UntilLength(limit, s, call.until, call.max);
    var n := ReadLength(s.incoming, call.until, Cap(limit, s.haveRead, call.max));
    assert |t.incoming| == |s.incoming| - n;
    assert t.haveRead == CountAfterUntil(limit, s.haveRead, call.max, n);
  }

  /** read_until takes a character whenever there is one, and stays within what is left unless nothing is. */
  lemma UntilLength(limit: nat, s: Counts, until: string, max: int)
    requires 0 <= s.haveRead <= limit
    ensures var n := ReadLength(s.incoming, until, Cap(limit, s.haveRead, max));
      && (s.incoming != "" ==> 1 <= n)
      && (s.haveRead < limit ==> n <= limit - s.haveRead)
  {
    var cap := Cap(limit, s.haveRead, max);
    var left := limit - s.haveRead;
    if s.incoming != "" && 0 < left <= |s.incoming| {
      assert ReadLength(s.incoming, until, cap) == UntilFrom(s.incoming, until, cap, 1);
      assert StopsAt(s.incoming, until, cap, left);
    }
  }

  ghost predicate Follows(limit: int, states: seq<Counts>, calls: seq<Call>) {
    && |states| == |calls| + 1
    && forall i | 0 <= i < |calls| :: Step(limit, states[i], calls[i], states[i+1])
  }

  /** Over any run of disciplined calls, a reader never takes more than its limit from the socket. */
  lemma {:induction false} BoundedRun(limit: nat, states: seq<Counts>, calls: seq<Call>, k: nat)
    requires Follows(limit, states, calls) && states[0].haveRead == 0
    requires forall i | 0 <= i < |calls| :: Disciplined(limit, states[i], calls[i])
    requires k <= |calls|
    ensures 0 <= |states[0].incoming| - |states[k].incoming| <= states[k].haveRead <= limit
  {
    if k > 0 {
      BoundedRun(limit, states, calls, k - 1);
      assert Step(limit, states[k-1], calls[k-1], states[k]);
      PaidForExactly(limit, states[k-1], calls[k-1], states[k]);
    }
  }

  // ----- reading whole messages -----

  /** The header loop: one fresh unlimited reader per line. */
  method ReadHeaders(sock: Socket) returns (headers: HeaderMap)
    modifies sock
    ensures (headers, sock.incoming) == M.ParseHeaders(old(sock.incoming), [])
    ensures sock.outgoing == old(sock.outgoing)
  {
    headers := [];
    ghost var start := sock.incoming;
    while true
      invariant M.ParseHeaders(sock.incoming, headers) == M.ParseHeaders(start, [])
      invariant sock.outgoing == old(sock.outgoing)
      decreases |sock.incoming|
    {
      var data := ReadLine(sock);
      var m := ParseHeaderLine(data);
      if m.None? {
        break;
      }
      headers := Put(headers, m.value.0, m.value.1);
    }
  }

  method ReadLine(sock: Socket) returns (data: string)
    modifies sock
    ensures var n := LineEnd(old(sock.incoming));
      data == old(sock.incoming)[..n] && sock.incoming == old(sock.incoming)[n..]
    ensures sock.outgoing == old(sock.outgoing)
  {
    var reader := new SocketStreamReader(sock, -1);
    ghost var input := sock.incoming;
    data := reader.ReadUntil(CRLF, -1);
    assert |data| == |input| - |sock.incoming|;
    assert input[..|data|] == data;
  }

  /** Request.unparse: None is the "Invalid head" error. */
  method UnparseRequest(sock: Socket) returns (r: Option<M.Request>)
    modifies sock
    ensures (r, sock.incoming) == M.ParseRequest(old(sock.incoming))
    ensures sock.outgoing == old(sock.outgoing)
  {
    var data := ReadLine(sock);
    var line := ParseRequestHead(data);
    if line.None? {
      return None;
    }
    var headers := ReadHeaders(sock);
    r := Some(M.Request(line.value.verb, line.value.url, line.value.version, headers, ""));
  }

  /** Response.unparse: the head, and a reader for the body limited to the announced length. */
  method UnparseResponse(sock: Socket) returns (r: Option<M.Response>, body: SocketStreamReader?)
    modifies sock
    ensures var (p, rest) := M.ParseResponse(old(sock.incoming));
      && sock.incoming == rest
      && (r.Some? <==> p.Some?) && (r.Some? <==> body != null)
      && (r.Some? ==> r.value == p.value.head && fresh(body) && body.haveRead == 0)
      && (r.Some? ==> body.sock == sock && body.maxRead == p.value.limit)
    ensures sock.outgoing == old(sock.outgoing)
  {
    body := null;
    var data := ReadLine(sock);
    var line := ParseResponseHead(data);
    if line.None? {
      return None, null;
    }
    var headers := ReadHeaders(sock);
    var limit := M.ContentLength(headers);
    if limit.None? {
      return None, null;
    }
    r := Some(M.Response(line.value.version, line.value.status, line.value.text, headers, ""));
    body := new SocketStreamReader(sock, limit.value);
  }

  /** Reading a response and then its whole body, as the client does. */
  method ReceiveResponse(sock: Socket) returns (r: Option<M.Response>)
    requires sock.wholeReads
    modifies sock
    ensures r.Some? ==> M.ParseResponses(1, old(sock.incoming)) == Some(([r.value], sock.incoming))
    ensures r.None? ==> M.ParseResponses(1, old(sock.incoming)) == None
    ensures sock.outgoing == old(sock.outgoing)
  {
    var head, reader := UnparseResponse(sock);
    if head.None? {
      return None;
    }
    var body := reader.ReadAll();
    if body.None? {
      return None;
    }
    r := Some(head.value.(body := body.value));
    assert M.ParseResponses(0, sock.incoming) == Some(([], sock.incoming));
    assert [r.value] + [] == [r.value];
  }
}
