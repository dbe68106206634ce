/** A client object on an errand: what it sends is what the server is fed, and what it is sent back it reads. */
module Errands {
  import opened Wrappers
  import opened Text
  import opened Headers
  import opened Lines
  import opened Messages
  import opened Ranges
  import opened Sessions
  import opened Server
  import opened Dialogue
  import opened Wire
  import opened Service
  import Client
  import Readers

  /** The stretch of a file that a range asks for. */
  function Part(file: string, range: Option<string>): string
    requires InRange(file, range)
  {
    if PlaysWhole(range) then file
    else
      var (start, end) := ParseRange(range.value).value;
      file[start..end.value+1]
  }

  /** What the client gets for its i-th range. */
  predicate IsPart(body: string, world: World, x: Errand, i: nat)
    requires i < |x.ranges|
  {
    && x.name in world.files && InRange(world.files[x.name], x.ranges[i])
    && body == Part(world.files[x.name], x.ranges[i])
  }

  lemma PartIsBody(h: HeaderMap, file: string, range: Option<string>)
    requires InRange(file, range)
    ensures var reply := PlayReply(h, file, Given(range));
      reply.Some? && reply.value.body == Part(file, range) && InRange(file, Given(range))
  {
    hide ParseRange;
    if !PlaysWhole(range) {
      var (start, end) := ParseRange(range.value).value;
      RangeExact(start, end.value, file);
    }
  }

  /** A framed response is read as its head and then its body, up to what follows. */
  lemma ReadsInTwo(r: Response, more: string)
    requires Sendable(r)
    ensures ContentLength(r.headers).Some?
    ensures var limit := ContentLength(r.headers).value;
      && ParseResponse(PrintResponse(r) + more) == (Some(Pending(ReceivedHead(r), limit)), r.body + more)
      && ReadBody(limit, r.body + more) == Some((r.body, more))
  {
    hide ParseResponse, ReadBody, PrintResponse, ResponseOk;
    assert ResponseOk(r) && ContentLength(r.headers).Some? by { SendableIsOk(r); }
    ResponseRoundTrip(r, more);
    FramingExact(r);
  }

  lemma SendableIsOk(r: Response)
    requires Sendable(r)
    ensures ResponseOk(r) && ContentLength(r.headers).Some?
  {
  }

  /** All replies of an errand, as they are due. */
  ghost predicate AllServed(world: World, gate: Gate, x: Errand, id: Id, replies: seq<Response>) {
    && Possible(world, gate, x) && ValueOk(world.idText(id))
    && Served(world, x, id, replies) && |replies| == |x.ranges| + 2
  }

  lemma SetupDue(world: World, gate: Gate, x: Errand, id: Id, replies: seq<Response>)
    requires AllServed(world, gate, x, id, replies)
    ensures var r := replies[0];
      Sendable(r) && r.status == 200 && r.body == "" && Find(r.headers, "Session") == Some(world.idText(id))
  {
    hide FileOf, InRange;
    assert Some(replies[0]) == ReplyFor(world, x, id, 0);
    KeysAreOk();
    ConstantIsValue();
    SetupReplySendable(world, id, "TCP");
    SetupReplyNames(world, id, "TCP");
  }

  lemma AllAreThere(world: World, gate: Gate, x: Errand, id: Id, replies: seq<Response>)
    requires AllServed(world, gate, x, id, replies)
    ensures x.name in world.files && |replies| == |x.ranges| + 2
  {
  }

  lemma ConstantIsValue()
    ensures ValueOk("TCP")
  {
  }

  lemma PlayDue(world: World, gate: Gate, x: Errand, id: Id, replies: seq<Response>, i: nat)
    requires AllServed(world, gate, x, id, replies) && i < |x.ranges|
    ensures InRange(world.files[x.name], x.ranges[i])
    ensures var r := replies[1+i];
      Sendable(r) && r.status == 206 && r.body == Part(world.files[x.name], x.ranges[i])
  {
    hide InRange, PlayReply, Part, Sendable;
    var file, h := world.files[x.name], Requests(x, world.idText(id))[0].headers;
    assert Some(replies[1+i]) == ReplyFor(world, x, id, 1 + i);
    RequestIsGood(world, gate, x, id, 0);
    PartIsBody(h, file, x.ranges[i]);
    PlayReplySendable(h, file, Given(x.ranges[i]));
  }

  lemma TeardownDue(world: World, gate: Gate, x: Errand, id: Id, replies: seq<Response>)
    requires AllServed(world, gate, x, id, replies)
    ensures Bare(replies[|x.ranges|+1]) && replies[|x.ranges|+1].status == 200
  {
    hide FileOf, InRange;
    assert Some(replies[|x.ranges|+1]) == ReplyFor(world, x, id, |x.ranges| + 1);
    ReplyHeadsOk();
  }

  lemma {:induction false} PrintedOneMore(rs: seq<Request>, r: Request)
    ensures PrintRequests(rs + [r]) == PrintRequests(rs) + PrintRequest(r)
  {
    if rs == [] {
      assert rs + [r] == [r] && [r][1..] == [];
    } else {
      assert (rs + [r])[1..] == rs[1..] + [r];
      PrintedOneMore(rs[1..], r);
    }
  }

  /** The print of the first n requests of an errand, after what was sent before. */
  function Sent(sent: string, x: Errand, session: string, n: nat): string
    requires n <= |x.ranges| + 2
  {
    RequestsAt(x, session, 0);
    sent + PrintRequests(Requests(x, session)[..n])
  }

  /** The stream from the i-th reply on. */
  function Stream(replies: seq<Response>, i: nat, tail: string): string
    requires i <= |replies|
  {
    PrintResponses(replies[i..]) + tail
  }

  lemma StreamStep(replies: seq<Response>, i: nat, tail: string)
    requires i < |replies|
    ensures Stream(replies, i, tail) == PrintResponse(replies[i]) + Stream(replies, i + 1, tail)
  {
    hide PrintResponse;
    assert replies[i..][1..] == replies[i+1..];
  }

  /** A client on its errand, with its SETUP and some plays behind it. */
  ghost predicate OnErrand(c: Client.Client, x: Errand, session: string,
                           replies: seq<Response>, tail: string, sent: string, n: nat)
    reads c, c.sock
  {
    && c.url == UrlFor(x.host, x.name) && c.sock.wholeReads
    && n <= |x.ranges| && |replies| == |x.ranges| + 2 && c.cseq == 1 + n && c.session == Some(session)
    && c.sock.outgoing == Sent(sent, x, session, 1 + n)
    && c.sock.incoming == Stream(replies, 1 + n, tail)
  }

  lemma RequestsAt(x: Errand, session: string, i: nat)
    requires i < |x.ranges| + 2
    ensures var rs, url := Requests(x, session), UrlFor(x.host, x.name);
      && |rs| == |x.ranges| + 2
      && rs[i] == if i == 0 then Client.SetupRequest(0, url, x.key)
                  else if i <= |x.ranges| then Client.PlayRequest(i, url, session, x.ranges[i-1])
                  else Client.TeardownRequest(i, url, session)
  {
  }

  /** The first n + 1 requests of an errand are the first n and one more. */
  lemma OneMoreSent(x: Errand, session: string, n: nat, sent: string)
    requires n < |x.ranges| + 2
    ensures n < |Requests(x, session)|
    ensures Sent(sent, x, session, n + 1) == Sent(sent, x, session, n) + PrintRequest(Requests(x, session)[n])
    ensures Sent(sent, x, session, 0) == sent
  {
    var rs := Requests(x, session);
    RequestsAt(x, session, n);
    hide Requests, PrintRequest;
    assert rs[..n+1] == rs[..n] + [rs[n]];
    PrintedOneMore(rs[..n], rs[n]);
    JoinLeft(sent, PrintRequests(rs[..n]), PrintRequest(rs[n]));
  }

  lemma JoinLeft(a: string, b: string, c: string)
    ensures a + (b + c) == a + b + c
  {
  }

  lemma AllSent(x: Errand, session: string, sent: string)
    ensures Sent(sent, x, session, |x.ranges| + 2) == sent + PrintRequests(Requests(x, session))
  {
    RequestsAt(x, session, 0);
    assert Requests(x, session)[..|x.ranges|+2] == Requests(x, session);
  }

  // ----- what each call sends, and finds on the stream -----

  lemma SetupSends(x: Errand, session: string, sent: string)
    ensures Sent(sent, x, session, 1) == sent + PrintRequest(Client.SetupRequest(0, UrlFor(x.host, x.name), x.key))
  {
    hide PrintRequest, Requests;
    RequestsAt(x, session, 0);
    OneMoreSent(x, session, 0, sent);
  }

  lemma PlaySends(x: Errand, session: string, n: nat, sent: string)
    requires n < |x.ranges|
    ensures Sent(sent, x, session, 2 + n)
         == Sent(sent, x, session, 1 + n)
            + PrintRequest(Client.PlayRequest(1 + n, UrlFor(x.host, x.name), session, x.ranges[n]))
  {
    hide PrintRequest, Requests, Sent;
    RequestsAt(x, session, 1 + n);
    OneMoreSent(x, session, 1 + n, sent);
  }

  lemma TeardownSends(x: Errand, session: string, sent: string)
    ensures sent + PrintRequests(Requests(x, session))
         == Sent(sent, x, session, 1 + |x.ranges|)
            + PrintRequest(Client.TeardownRequest(1 + |x.ranges|, UrlFor(x.host, x.name), session))
  {
    hide PrintRequest, Requests, Sent;
    RequestsAt(x, session, 1 + |x.ranges|);
    OneMoreSent(x, session, 1 + |x.ranges|, sent);
    AllSent(x, session, sent);
  }

  lemma SetupReads(world: World, gate: Gate, x: Errand, id: Id, replies: seq<Response>, tail: string)
    requires AllServed(world, gate, x, id, replies)
    ensures |replies| == |x.ranges| + 2
    ensures var (p, rest) := ParseResponse(Stream(replies, 0, tail));
      && p.Some? && p.value.head.status == 200
      && Find(p.value.head.headers, "Session") == Some(world.idText(id))
      && Client.AfterBody(p.value.limit, rest) == Stream(replies, 1, tail)
  {
    hide ParseResponse, ReadBody, AllServed, Sendable, PrintResponse, Find, Stream;
    AllAreThere(world, gate, x, id, replies);
    SetupDue(world, gate, x, id, replies);
    StreamStep(replies, 0, tail);
    ReadsInTwo(replies[0], Stream(replies, 1, tail));
  }

  lemma PlayReads(world: World, gate: Gate, x: Errand, id: Id, replies: seq<Response>, tail: string, n: nat)
    requires AllServed(world, gate, x, id, replies) && n < |x.ranges|
    ensures |replies| == |x.ranges| + 2
    ensures var (p, rest) := ParseResponse(Stream(replies, 1 + n, tail));
      && p.Some? && p.value.head.status == 206
      && var read := ReadBody(p.value.limit, rest);
      read.Some? && IsPart(read.value.0, world, x, n) && read.value.1 == Stream(replies, 2 + n, tail)
  {
    hide ParseResponse, ReadBody, AllServed, Sendable, PrintResponse, Part, InRange, Stream;
    AllAreThere(world, gate, x, id, replies);
    PlayDue(world, gate, x, id, replies, n);
    StreamStep(replies, 1 + n, tail);
    ReadsInTwo(replies[1+n], Stream(replies, 2 + n, tail));
  }

  lemma TeardownReads(world: World, gate: Gate, x: Errand, id: Id, replies: seq<Response>, tail: string)
    requires AllServed(world, gate, x, id, replies)
    ensures |replies| == |x.ranges| + 2
    ensures var (p, rest) := ParseResponse(Stream(replies, 1 + |x.ranges|, tail));
      && p.Some? && p.value.head.status == 200
      && Client.AfterBody(p.value.limit, rest) == CRLF + tail
  {
    hide ParseResponse, AllServed, Bare, PrintResponse;
    var n := |x.ranges| + 1;
    AllAreThere(world, gate, x, id, replies);
    TeardownDue(world, gate, x, id, replies);
    StreamStep(replies, n, tail);
    assert replies[n+1..] == [] && "" + tail == tail;
    BareIsRead(replies[n], tail);
  }

  // ----- the calls -----

  method SetUp(c: Client.Client, x: Errand, ghost world: World, ghost gate: Gate, ghost id: Id,
               ghost replies: seq<Response>, ghost tail: string) returns (ok: bool)
    requires AllServed(world, gate, x, id, replies)
    requires c.url == UrlFor(x.host, x.name) && c.session == None && c.cseq == 0 && c.sock.wholeReads
    requires c.sock.incoming == Stream(replies, 0, tail)
    modifies c, c.sock
    ensures ok && OnErrand(c, x, world.idText(id), replies, tail, old(c.sock.outgoing), 0)
  {
    hide AllServed, Sent, Stream, ParseResponse, PrintRequest, Find, Client.AfterBody, Client.SetupRequest, UrlFor;
    SetupReads(world, gate, x, id, replies, tail);
    SetupSends(x, world.idText(id), c.sock.outgoing);
    ok := c.Setup(x.key);
  }

  method PlayNext(c: Client.Client, x: Errand, n: nat, ghost world: World, ghost gate: Gate, ghost id: Id,
                  ghost replies: seq<Response>, ghost tail: string, ghost sent: string)
    returns (ok: bool, body: string)
    requires AllServed(world, gate, x, id, replies)
    requires n < |x.ranges| && OnErrand(c, x, world.idText(id), replies, tail, sent, n)
    modifies c, c.sock
    ensures ok && OnErrand(c, x, world.idText(id), replies, tail, sent, n + 1)
    ensures IsPart(body, world, x, n)
  {
    hide AllServed, Sent, Stream, ParseResponse, ReadBody, PrintRequest, Client.PlayRequest, UrlFor, IsPart;
    PlayReads(world, gate, x, id, replies, tail, n);
    PlaySends(x, world.idText(id), n, sent);
    assert c.SessionText() == world.idText(id) && c.cseq == 1 + n;
    var r, reader := c.Play(x.ranges[n]);
    if reader == null {
      return false, "";
    }
    assert c.sock.outgoing == Sent(sent, x, world.idText(id), 2 + n);
    ok, body := ReadWhole(reader);
  }

  /** The whole body behind a fresh reader. */
  method ReadWhole(reader: Readers.SocketStreamReader) returns (ok: bool, body: string)
    requires reader.haveRead == 0 && reader.sock.wholeReads
    modifies reader, reader.sock
    ensures reader.sock.outgoing == old(reader.sock.outgoing)
    ensures var read := old(ReadBody(reader.maxRead, reader.sock.incoming));
      (ok <==> read.Some?) && (ok ==> body == read.value.0 && reader.sock.incoming == read.value.1)
  {
    var read := reader.ReadAll();
    ok, body := read.Some?, if read.Some? then read.value else "";
  }

  method TearDown(c: Client.Client, x: Errand, ghost world: World, ghost gate: Gate, ghost id: Id,
                  ghost replies: seq<Response>, ghost tail: string, ghost sent: string) returns (ok: bool)
    requires AllServed(world, gate, x, id, replies)
    requires OnErrand(c, x, world.idText(id), replies, tail, sent, |x.ranges|)
    modifies c, c.sock
    ensures ok && c.sock.outgoing == sent + PrintRequests(Requests(x, world.idText(id)))
    ensures c.sock.incoming == CRLF + tail && c.session == Some(world.idText(id))
  {
    hide AllServed, Sent, Stream, ParseResponse, PrintRequests, PrintRequest, Requests, Client.AfterBody;
    hide Client.TeardownRequest, UrlFor;
    TeardownReads(world, gate, x, id, replies, tail);
    TeardownSends(x, world.idText(id), sent);
    ok := c.Teardown();
  }

  method PlayAll(c: Client.Client, x: Errand, ghost world: World, ghost gate: Gate, ghost id: Id,
                 ghost replies: seq<Response>, ghost tail: string, ghost sent: string)
    returns (ok: bool, bodies: seq<string>)
    requires AllServed(world, gate, x, id, replies) && OnErrand(c, x, world.idText(id), replies, tail, sent, 0)
    modifies c, c.sock
    ensures ok && OnErrand(c, x, world.idText(id), replies, tail, sent, |x.ranges|) && |bodies| == |x.ranges|
    ensures forall i: nat | i < |x.ranges| :: IsPart(bodies[i], world, x, i)
  {
    hide OnErrand, AllServed, IsPart;
    ok, bodies := true, [];
    while ok && |bodies| < |x.ranges|
      invariant ok && |bodies| <= |x.ranges|
      invariant OnErrand(c, x, world.idText(id), replies, tail, sent, |bodies|)
      invariant forall i: nat | i < |bodies| :: IsPart(bodies[i], world, x, i)
      decreases |x.ranges| - |bodies|
    {
      var played, body := PlayNext(c, x, |bodies|, world, gate, id, replies, tail, sent);
      ok, bodies := played, bodies + [body];
    }
  }

  /** The client sets up, plays every range and reads its body, and tears down.  If the replies due are what it is
  sent, every call succeeds, the bodies are the stretches it asked for, and what it has sent is its errand. */
  method Perform(c: Client.Client, x: Errand, ghost world: World, ghost gate: Gate, ghost id: Id,
                 ghost replies: seq<Response>, ghost tail: string)
    returns (ok: bool, bodies: seq<string>)
    requires AllServed(world, gate, x, id, replies)
    requires c.url == UrlFor(x.host, x.name) && c.session == None && c.cseq == 0 && c.sock.wholeReads
    requires c.sock.incoming == PrintResponses(replies) + tail
    modifies c, c.sock
    ensures ok && |bodies| == |x.ranges|
    ensures forall i: nat | i < |x.ranges| :: IsPart(bodies[i], world, x, i)
    ensures c.sock.outgoing == old(c.sock.outgoing) + PrintRequests(Requests(x, world.idText(id)))
    ensures c.sock.incoming == CRLF + tail && c.session == Some(world.idText(id))
  {
    hide OnErrand, AllServed, IsPart, PrintResponses, PrintRequests, Requests;
    ghost var sent := c.sock.outgoing;
    assert replies[0..] == replies;
    bodies := [];
    ok := SetUp(c, x, world, gate, id, replies, tail);
    if ok {
      ok, bodies := PlayAll(c, x, world, gate, id, replies, tail, sent);
    }
    if ok {
      ok := TearDown(c, x, world, gate, id, replies, tail, sent);
    }
  }

  // ----- OPTIONS -----

  /** What the server answers an OPTIONS with lets the client's call succeed, and leaves one blank line. */
  method AskOptions(c: Client.Client, ghost tail: string) returns (ok: bool)
    requires c.sock.incoming == PrintResponse(Plain(200, "OK", [])) + tail
    modifies c, c.sock
    ensures ok && c.cseq == old(c.cseq) + 1
    ensures c.sock.outgoing == old(c.sock.outgoing) + PrintRequest(Client.OptionsRequest(old(c.cseq), c.url))
    ensures c.sock.incoming == CRLF + tail
  {
    hide ParseResponse, PrintResponse, PrintRequest, Client.OptionsRequest;
    OptionsReads(tail);
    var r, body := c.Options();
    ok := r.Some?;
  }

  lemma OptionsReads(tail: string)
    ensures var (p, rest) := ParseResponse(PrintResponse(Plain(200, "OK", [])) + tail);
      p.Some? && p.value.head.status == 200 && rest == CRLF + tail
  {
    hide ParseResponse, PrintResponse;
    ReplyHeadsOk();
    BareIsRead(Plain(200, "OK", []), tail);
  }
}
