/** From end to end: the client of this repository, served by the server of this repository among any
other traffic, from the bytes the client prints to the bytes it reads back. */
module Service {
  import opened Wrappers
  import opened Text
  import opened Headers
  import opened Lines
  import opened Messages
  import opened Ranges
  import opened Sessions
  import opened Server
  import opened Guarantees
  import opened Dialogue
  import opened Wire
  import Client
  import Provenance

  // ----- what the client asks for -----

  /** A file on a host, a key if there is one, and the ranges to play. */
  datatype Errand = Errand(host: string, name: string, key: Option<string>, ranges: seq<Option<string>>)

  /** The file exists, the key is accepted, and the ranges are within its bounds. */
  ghost predicate Possible(world: World, gate: Gate, x: Errand) {
    && UrlOk(UrlFor(x.host, x.name)) && NamesFile(UrlFor(x.host, x.name), x.host, x.name) && x.name in world.files
    && KeyFits(gate, x.key)
    && forall i | 0 <= i < |x.ranges| :: OptionalOk("", x.ranges[i]) && InRange(world.files[x.name], x.ranges[i])
  }

  /** All that the client asks: one SETUP, a play for each range, one TEARDOWN, numbered from zero. */
  function Requests(x: Errand, session: string): seq<Request> {
    var url := UrlFor(x.host, x.name);
    [Client.SetupRequest(0, url, x.key)]
    + seq(|x.ranges|, i requires 0 <= i < |x.ranges| => Client.PlayRequest(1 + i, url, session, x.ranges[i]))
    + [Client.TeardownRequest(1 + |x.ranges|, url, session)]
  }

  lemma {:induction false} ReceivedAt(rs: seq<Request>, i: nat)
    ensures |ReceivedAll(rs)| == |rs| && (i < |rs| ==> ReceivedAll(rs)[i] == Received(rs[i]))
  {
    if rs != [] { ReceivedAt(rs[1..], if i > 0 then i - 1 else 0); }
  }

  /** An empty range is not sent. */
  function Given(range: Option<string>): Option<string> {
    if range.Some? && range.value != "" then range else None
  }

  lemma PlayIsGood(world: World, url: string, id: Id, file: string, range: Option<string>, cseq: nat)
    requires UrlOk(url) && ValueOk(world.idText(id)) && OptionalOk("", range) && InRange(file, range)
    ensures var r := Client.PlayRequest(cseq, url, world.idText(id), range);
      && IsDict(r.headers) && RequestOk(r) && r.body == "" && GoodPlay(world, id, file, Received(r))
      && Find(Received(r).headers, "Range") == Given(range)
  {
    PlayPrints(cseq, url, world.idText(id), range);
    ClientPlayIsGood(world, cseq, url, id, file, range);
  }

  lemma RequestIsGood(world: World, gate: Gate, x: Errand, id: Id, i: nat)
    requires Possible(world, gate, x) && ValueOk(world.idText(id)) && i < |x.ranges| + 2
    ensures var r := Requests(x, world.idText(id))[i];
      && IsDict(r.headers) && RequestOk(r) && r.body == ""
      && (i == 0 ==> GoodSetup(world, gate, Received(r)) && FileFor(world, Received(r)) == world.files[x.name])
      && (0 < i <= |x.ranges| ==> GoodPlay(world, id, world.files[x.name], Received(r))
                                  && Find(Received(r).headers, "Range") == Given(x.ranges[i-1]))
      && (i == |x.ranges| + 1 ==> GoodTeardown(world, id, Received(r)))
  {
    hide FileOf;
    hide InRange;
    var url, text := UrlFor(x.host, x.name), world.idText(id);
    if i == 0 {
      SetupPrints(0, url, x.key);
      ClientSetupIsGood(world, gate, 0, x.host, x.name, x.key);
    } else if i <= |x.ranges| {
      assert Requests(x, text)[i] == Client.PlayRequest(i, url, text, x.ranges[i-1]);
      PlayIsGood(world, url, id, world.files[x.name], x.ranges[i-1], i);
    } else {
      assert Requests(x, text)[i] == Client.TeardownRequest(i, url, text);
      TeardownPrints(i, url, text);
      ClientTeardownIsGood(world, i, url, id);
    }
  }

  /** The i-th request of an errand, as the server reads it, carries the number i. */
  lemma ErrandIsNumbered(x: Errand, session: string, i: nat)
    requires i < |x.ranges| + 2
    ensures |ReceivedAll(Requests(x, session))| == |x.ranges| + 2
    ensures NumberIs(ReceivedAll(Requests(x, session))[i], i)
  {
    hide NumberIs, ReceivedAll, Client.SetupRequest, Client.PlayRequest, Client.TeardownRequest;
    var rs := Requests(x, session);
    ReceivedAt(rs, i);
    RequestsAreNumbered(i, UrlFor(x.host, x.name), x.key, session, if 0 < i <= |x.ranges| then x.ranges[i-1] else None);
    SameNumber(rs[i], i);
  }

  lemma SameNumber(r: Request, cseq: nat)
    requires NumberIs(r, cseq)
    ensures NumberIs(Received(r), cseq)
  {
  }

  lemma RequestsAreSendable(world: World, gate: Gate, x: Errand, id: Id)
    requires Possible(world, gate, x) && ValueOk(world.idText(id))
    ensures SendableRequests(Requests(x, world.idText(id)))
  {
    hide FileOf;
    hide InRange;
    var rs := Requests(x, world.idText(id));
    forall i: nat | i < |rs| ensures IsDict(rs[i].headers) && RequestOk(rs[i]) && rs[i].body == "" {
      hide RequestOk;
      RequestIsGood(world, gate, x, id, i);
    }
    assert forall r | r in rs :: exists i: nat | i < |rs| :: rs[i] == r;
  }

  lemma RequestsAreScript(world: World, gate: Gate, x: Errand, id: Id)
    requires Possible(world, gate, x) && ValueOk(world.idText(id))
    ensures var rs := Requests(x, world.idText(id));
      && Script(world, gate, id, ReceivedAll(rs)) && Writable(world, id, ReceivedAll(rs))
      && |ReceivedAll(rs)| == |rs| == |x.ranges| + 2 && EndsInTeardown(ReceivedAll(rs))
  {
    hide FileOf;
    hide InRange;
    hide RequestOk;
    var rs := Requests(x, world.idText(id));
    var asked := ReceivedAll(rs);
    ReceivedAt(rs, 0);
    forall i: nat | i < |rs|
      ensures asked[i] == Received(rs[i])
      ensures i == 0 ==> GoodSetup(world, gate, asked[0]) && FileFor(world, asked[0]) == world.files[x.name]
      ensures i > 0 ==> GoodPlay(world, id, world.files[x.name], asked[i])
                        || (GoodTeardown(world, id, asked[i]) && i == |asked| - 1)
      ensures i == |rs| - 1 ==> asked[i].verb == "TEARDOWN"
    {
      ReceivedAt(rs, i);
      RequestIsGood(world, gate, x, id, i);
    }
    RequestIsGood(world, gate, x, id, 0);
    FirstIsWritable(world, id, rs);
  }

  lemma {:induction false} FirstIsWritable(world: World, id: Id, rs: seq<Request>)
    requires rs != [] && ValueOk(world.idText(id)) && IsDict(rs[0].headers) && RequestOk(rs[0])
    ensures Writable(world, id, ReceivedAll(rs))
  {
    ReceivedAt(rs, 0);
  }

  /** What the client prints is read by the server as a well-behaved dialogue, to the last character. */
  lemma ClientIsHeard(world: World, gate: Gate, x: Errand, id: Id, tail: string)
    requires Possible(world, gate, x) && ValueOk(world.idText(id))
    ensures var rs := Requests(x, world.idText(id));
      && SendableRequests(rs) && ParseRequests(|rs|, PrintRequests(rs) + tail) == Some((ReceivedAll(rs), tail))
      && Script(world, gate, id, ReceivedAll(rs)) && Writable(world, id, ReceivedAll(rs))
      && |ReceivedAll(rs)| == |rs| == |x.ranges| + 2 && EndsInTeardown(ReceivedAll(rs))
  {
    hide ParseRequests;
    hide Possible;
    hide Requests;
    hide Script;
    hide SendableRequests;
    RequestsAreSendable(world, gate, x, id);
    RequestsAreScript(world, gate, x, id);
    RequestStream(Requests(x, world.idText(id)), tail);
  }

  // ----- runs in which the server reads what the client wrote -----

  /** The event is a step of the worker that serves this connection. */
  predicate OnConn(s: State, e: Event, k: Sock) {
    !e.EnableAuth? && !e.AddAuth? && e.w < |s.workers| && HasSock(s.workers[e.w]) && s.workers[e.w].sock == k
  }

  /** What arrives on k is these bytes and k is not reset: a request is read when the parser reads one from
  them, and the worker gives up on the connection only when it does not. */
  predicate Fed(world: World, s: State, es: seq<Event>, k: Sock, unread: string)
    requires Run(world, s, es).Some?
    decreases |es|
  {
    if es == [] then true
    else
      var s' := Next(world, s, es[0]);
      var (got, rest) := ParseRequest(unread);
      if !OnConn(s, es[0], k) then Fed(world, s', es[1..], k, unread)
      else if es[0].Read? then got == Some(es[0].req) && Fed(world, s', es[1..], k, rest)
      else if es[0].BadHead? then got == None && Fed(world, s', es[1..], k, rest)
      else !es[0].Reset? && Fed(world, s', es[1..], k, unread)
  }

  /** How many steps of a run serve this connection. */
  function StepsOn(world: World, s: State, es: seq<Event>, k: Sock): nat
    requires Run(world, s, es).Some?
    decreases |es|
  {
    if es == [] then 0
    else (if OnConn(s, es[0], k) then 1 else 0) + StepsOn(world, Next(world, s, es[0]), es[1..], k)
  }

  /** How many requests were read on k. */
  function ReadOn(s: State, k: Sock): nat { if k in s.conns then |s.conns[k].asked| else 0 }

  /** What is left of the reply being worked on. */
  function Working(s: State, k: Sock): nat {
    if k in s.conns && s.conns[k].worker < |s.workers| then
      var pc := s.workers[s.conns[k].worker];
      if Owes(pc) && pc.sock == k then StepsLeft(pc) else 0
    else 0
  }

  /** The steps until all replies are sent: one to read each request and five to answer it, nine for the SETUP. */
  function Left(s: State, k: Sock, p: Plan): int {
    6 * (|p.asked| - ReadOn(s, k)) + (if ReadOn(s, k) == 0 then 4 else 0) + Working(s, k)
  }

  /** The steps after the last reply: closing, and removing the session. */
  function Tail(s: State, k: Sock): nat {
    if k in s.conns && s.conns[k].worker < |s.workers| then
      var pc := s.workers[s.conns[k].worker];
      if !HasSock(pc) || pc.sock != k then 0 else if pc.Pop? then 1 else 2
    else 2
  }

  /** All the steps on k that are still to come. */
  function Budget(s: State, k: Sock, p: Plan): int { Left(s, k, p) + Tail(s, k) }

  /** The unread bytes at the end of a run. */
  function UnreadAtEnd(world: World, s: State, es: seq<Event>, k: Sock, unread: string): string
    requires Run(world, s, es).Some?
    decreases |es|
  {
    if es == [] then unread
    else UnreadAtEnd(world, Next(world, s, es[0]), es[1..], k, UnreadAfter(s, es[0], k, unread))
  }

  /** Some step on k is possible that these bytes allow. */
  ghost predicate CanGoOn(s: State, k: Sock, unread: string) {
    exists e :: Enabled(s, e) && OnConn(s, e, k) && Allowed(s, e, k, unread)
  }

  /** A plan that is printed as these requests. */
  ghost predicate Printed(world: World, p: Plan, rs: seq<Request>) {
    && IsPlan(world, p) && SendableRequests(rs) && p.asked == ReceivedAll(rs) && |p.asked| == |rs|
    && EndsInTeardown(p.asked)
  }

  /** The dialogue is on its way, and what is unread is the rest of it. */
  ghost predicate Underway(s: State, k: Sock, p: Plan, rs: seq<Request>, unread: string) {
    && (k in s.conns ==> OnTrack(s, k, p) && Follows(p, s.conns[k]))
    && ReadOn(s, k) <= |rs| && unread == PrintRequests(rs[ReadOn(s, k)..])
  }

  lemma NextRequest(rs: seq<Request>, n: nat)
    requires SendableRequests(rs) && n < |rs|
    ensures ParseRequest(PrintRequests(rs[n..])) == (Some(Received(rs[n])), PrintRequests(rs[n+1..]))
  {
    var more := PrintRequests(rs[n..][1..]);
    assert rs[n..][1..] == rs[n+1..] && rs[n..][0] == rs[n] && "" + more == more;
    RequestRoundTrip(rs[n], more);
  }

  lemma StillToRead(s: State, k: Sock, p: Plan)
    requires Inv(s) && k in s.conns && OnTrack(s, k, p) && s.conns[k].asked <= p.asked && EndsInTeardown(p.asked)
    requires s.workers[s.conns[k].worker] == Waiting(k)
    ensures |s.conns[k].asked| < |p.asked|
  {
    var asked := s.conns[k].asked;
    assert |asked| == |p.asked| ==> asked == p.asked;
    assert WorkerOk(s, s.conns[k].worker);
  }

  lemma TeardownIsLast(world: World, p: Plan, asked: seq<Request>)
    requires IsPlan(world, p) && asked <= p.asked && EndsInTeardown(asked)
    ensures asked == p.asked
  {
    assert Due(world, p, |asked| - 1) && asked[|asked|-1] == p.asked[|asked|-1];
  }

  /** With nothing left to do, every reply has been sent. */
  lemma NothingLeft(s: State, k: Sock, p: Plan)
    requires Inv(s) && EndsInTeardown(p.asked) && |p.replies| == |p.asked|
    requires k in s.conns ==> OnTrack(s, k, p) && s.conns[k].asked <= p.asked
    requires ReadOn(s, k) <= |p.asked| && Left(s, k, p) <= 0
    ensures k in s.conns && s.conns[k].answers == p.replies
  {
    assert k in s.conns;
    assert WorkerOk(s, s.conns[k].worker);
  }

  // ----- one step -----

  lemma OnConnIsKnown(s: State, e: Event, k: Sock)
    requires Inv(s)
    ensures OnConn(s, e, k) ==> k in s.conns
  {
    assert OnConn(s, e, k) ==> WorkerOk(s, e.w);
  }

  /** A step on another connection changes nothing on this one. */
  lemma OffConn(world: World, s: State, e: Event, k: Sock)
    requires Inv(s) && Enabled(s, e) && k in s.conns && !OnConn(s, e, k)
    ensures var t := Next(world, s, e);
      k in t.conns && t.conns[k] == s.conns[k] && Working(t, k) == Working(s, k) && Tail(t, k) == Tail(s, k)
  {
    if e.Go? {
      GoStays(world, s, e.w);
    } else {
      OffConnElse(world, s, e, k);
    }
  }

  lemma OffConnElse(world: World, s: State, e: Event, k: Sock)
    requires Inv(s) && Enabled(s, e) && k in s.conns && !OnConn(s, e, k) && !e.Go?
    ensures var t := Next(world, s, e);
      k in t.conns && t.conns[k] == s.conns[k] && Working(t, k) == Working(s, k) && Tail(t, k) == Tail(s, k)
  {
    hide StepsLeft, Advance, Touch;
    if e.Reset? {
      assert WorkerOk(s, e.w);
      TouchLeaves(s, s.workers[e.w]);
    } else if !e.EnableAuth? && !e.AddAuth? {
      assert WorkerOk(s, e.w);
    }
  }

  /** A step of the worker that is not a read, and not the end of the connection. */
  predicate Serves(e: Event) { e.Go? || e.GiveId? }

  /** Where a worker is after its step. */
  function After(world: World, s: State, e: Event): Pc
    requires Enabled(s, e) && Serves(e)
  {
    var pc := s.workers[e.w];
    if e.Go? then Act(world, s, pc).next else Open(pc.sock, pc.req, pc.checked, e.id)
  }

  /** The place of the worker of k after one of its steps, and the account of k. */
  lemma ServingStays(world: World, s: State, e: Event, k: Sock)
    requires Inv(s) && Enabled(s, e) && Serves(e) && OnConn(s, e, k)
    ensures k in s.conns && s.conns[k].worker == e.w
    ensures var t := Next(world, s, e);
      && k in t.conns && t.conns[k].asked == s.conns[k].asked && t.conns[k].broken == s.conns[k].broken
      && t.conns[k].worker == e.w
      && t.workers[e.w] == After(world, s, e)
      && (HasSock(t.workers[e.w]) ==> t.workers[e.w].sock == k)
  {
    hide Act, Advance;
    assert WorkerOk(s, e.w);
    if e.Go? {
      GoStays(world, s, e.w);
      StopsOnMove(world, s, e.w);
    }
  }

  /** How many steps nearer to the reply a worker's step brings a dialogue: one, or three past the key. */
  function Stride(s: State, e: Event): nat
    requires Enabled(s, e) && Serves(e)
  {
    if SkipsKey(s, s.workers[e.w]) then 3 else 1
  }

  /** What a worker still owes, and the steps it takes after its last reply. */
  function WorkOf(pc: Pc): nat { if Owes(pc) then StepsLeft(pc) else 0 }

  function TailOf(pc: Pc): nat { if !HasSock(pc) then 0 else if pc.Pop? then 1 else 2 }

  lemma SettingStride(world: World, s: State, pc: Pc, p: Plan)
    requires Moves(pc) && InSetup(pc) && GoodSetup(world, p.gate, pc.req) && GateHolds(s, p.gate)
    requires p.gate.Unlocked? ==> !pc.HasKey? && !pc.CompareKey?
    requires pc.Insert? ==> pc.file == FileFor(world, pc.req)
    ensures var next := Act(world, s, pc).next;
      if pc.ReplySetup? then next == Waiting(pc.sock)
      else Owes(next) && StepsLeft(next) == StepsLeft(pc) - if SkipsKey(s, pc) then 3 else 1
  {
    hide FileOf, Accepted, PlayReply;
    if !pc.ReplySetup? { SetupMoves(world, s, pc, p.gate); }
  }

  lemma HandlingStride(world: World, s: State, pc: Pc, k: Sock, p: Plan)
    requires FaithfulIds(world) && Handling(pc, p.id) && pc.sock == k && Asks(world, p.id, pc.req)
    requires p.id in s.sessions && s.sessions[p.id].sock == k
    requires pc.Play? ==> Act(world, s, pc).next == Waiting(k)
    ensures var next := Act(world, s, pc).next;
      if pc.Play? then next == Waiting(k)
      else if pc.ReplyTeardown? then next == Close(k, pc.req, pc.id)
      else Owes(next) && StepsLeft(next) == StepsLeft(pc) - 1
  {
    hide FileOf, Accepted, PlayReply;
    if !pc.Play? && !pc.ReplyTeardown? { HandlingMoves(world, s, pc, k, p.id); }
  }

  lemma ClosingStride(world: World, s: State, pc: Pc)
    requires (pc.Close? || pc.Pop?) && pc.id in s.sessions
    ensures var next := Act(world, s, pc).next; if pc.Close? then next.Pop? else next.Idle?
  {
    hide FileOf, Accepted, PlayReply;
  }

  predicate Asks(world: World, id: Id, r: Request) {
    && (r.verb == "PLAY" || r.verb == "TEARDOWN") && Find(r.headers, "Session") == Some(world.idText(id))
  }

  /** The last request of a dialogue, as its worker handles it. */
  lemma HandledRequest(world: World, s: State, w: nat, k: Sock, p: Plan)
    requires Inv(s) && w < |s.workers| && Moves(s.workers[w]) && s.workers[w].sock == k && Owes(s.workers[w])
    requires k in s.conns && s.conns[k].worker == w && InDialogue(s, k, p)
    requires IsPlan(world, p) && s.conns[k].asked <= p.asked
    ensures var pc := s.workers[w];
      && Live(s, k, p.id, p.file) && Handling(pc, p.id) && Asks(world, p.id, pc.req)
      && (pc.Play? ==> Act(world, s, pc).next == Waiting(k))
  {
    hide FileOf, PlayReply, Accepted, InRange;
    assert WorkerOk(s, w);
    var c, pc := s.conns[k], s.workers[w];
    var i := |c.asked| - 1;
    assert Live(s, k, p.id, p.file);
    assert i > 0 && Due(world, p, i) && c.asked[i] == p.asked[i] && c.asked[0] == p.asked[0];
    if pc.Play? {
      OwnFileIsOpen(s, w);
      InRangeReads(p.file, Find(pc.req.headers, "Range"));
      PlayActs(world, s, pc, k, c.asked[0], p.file, p.replies[i]);
    }
  }

  /** What a worker's step does to what it owes and to what comes after. */
  lemma ServingStride(world: World, s: State, e: Event, k: Sock, p: Plan)
    requires Inv(s) && Enabled(s, e) && Serves(e) && OnConn(s, e, k) && k in s.conns && s.conns[k].worker == e.w
    requires OnTrack(s, k, p) && IsPlan(world, p) && s.conns[k].asked <= p.asked
    requires FaithfulIds(world) && GateHolds(s, p.gate)
    ensures var pc := s.workers[e.w];
      var next := After(world, s, e);
      && WorkOf(next) + TailOf(next) == WorkOf(pc) + TailOf(pc) - Stride(s, e)
      && (Owes(pc) || s.conns[k].asked == p.asked)
  {
    hide Act, IsPlan, FileFor, GoodSetup, FileOf, PlayReply;
    var pc := s.workers[e.w];
    if e.Go? {
      if !Owes(pc) {
        NotOwing(world, s, e, k, p);
        assert WorkerOk(s, e.w);
        ClosingStride(world, s, pc);
      } else if Setting(s, k, p) {
        FirstRequest(world, s, k, p);
        SettingStride(world, s, pc, p);
      } else {
        HandledRequest(world, s, e.w, k, p);
        HandlingStride(world, s, pc, k, p);
      }
    }
  }

  lemma FirstRequest(world: World, s: State, k: Sock, p: Plan)
    requires k in s.conns && s.conns[k].asked != [] && s.conns[k].asked <= p.asked && IsPlan(world, p)
    ensures GoodSetup(world, p.gate, s.conns[k].asked[0]) && p.file == FileFor(world, s.conns[k].asked[0])
  {
    hide FileOf, FileFor, GoodSetup;
    assert s.conns[k].asked[0] == p.asked[0];
  }

  /** A step of the worker of a dialogue uses up the account of k. */
  lemma ServingStep(world: World, s: State, e: Event, k: Sock, p: Plan)
    requires Inv(s) && Enabled(s, e) && Serves(e) && OnConn(s, e, k) && k in s.conns
    requires OnTrack(s, k, p) && IsPlan(world, p) && s.conns[k].asked <= p.asked
    requires FaithfulIds(world) && GateHolds(s, p.gate)
    ensures var t := Next(world, s, e);
      && k in t.conns && t.conns[k].asked == s.conns[k].asked && t.conns[k].broken == s.conns[k].broken
      && Working(t, k) + Tail(t, k) == Working(s, k) + Tail(s, k) - Stride(s, e)
  {
    hide Next, Act, OnTrack, IsPlan, StepsLeft, Stride;
    ServingStays(world, s, e, k);
    ServingStride(world, s, e, k, p);
  }

  lemma ReadingStep(world: World, s: State, e: Event, k: Sock)
    requires Inv(s) && Enabled(s, e) && e.Read? && OnConn(s, e, k)
    ensures k in s.conns && Working(s, k) == 0
    ensures var t := Next(world, s, e);
      && k in t.conns && t.conns[k].asked == s.conns[k].asked + [e.req] && t.conns[k].broken == s.conns[k].broken
      && Working(t, k) == StepsLeft(Dispatch(k, e.req)) && Tail(t, k) == Tail(s, k) == 2
  {
    hide Advance, Touch;
    assert WorkerOk(s, e.w);
  }

  /** The unread bytes after an event. */
  function UnreadAfter(s: State, e: Event, k: Sock, unread: string): string {
    if OnConn(s, e, k) && e.Read? then ParseRequest(unread).1 else unread
  }

  /** The event is one that these bytes allow. */
  predicate Allowed(s: State, e: Event, k: Sock, unread: string) {
    OnConn(s, e, k) ==>
      && !e.Reset?
      && (e.Read? ==> ParseRequest(unread).0 == Some(e.req))
      && (e.BadHead? ==> ParseRequest(unread).0 == None)
  }

  /** The requests that were read are the client's, and reading goes on where they end. */
  lemma ReadsAsPrinted(world: World, s: State, e: Event, k: Sock, p: Plan, rs: seq<Request>, unread: string)
    requires Inv(s) && Enabled(s, e) && Printed(world, p, rs) && Underway(s, k, p, rs, unread)
    requires OnConn(s, e, k) && (e.Read? || e.BadHead?) && Allowed(s, e, k, unread)
    ensures e.Read? && k in s.conns && ReadOn(s, k) < |p.asked|
    ensures s.conns[k].asked + [e.req] <= p.asked
    ensures UnreadAfter(s, e, k, unread) == PrintRequests(rs[ReadOn(s, k)+1..])
  {
    hide ParseRequest, OnTrack, IsPlan, SendableRequests;
    OnConnIsKnown(s, e, k);
    assert WorkerOk(s, e.w);
    StillToRead(s, k, p);
    var n := ReadOn(s, k);
    NextRequest(rs, n);
    ReceivedAt(rs, n);
  }

  /** What a step does to the account of the dialogue. */
  ghost predicate Accounted(s: State, t: State, e: Event, k: Sock, p: Plan, rs: seq<Request>, unread: string)
    requires Enabled(s, e)
  {
    && (k in t.conns ==> Follows(p, t.conns[k]))
    && ReadOn(t, k) <= |rs| && UnreadAfter(s, e, k, unread) == PrintRequests(rs[ReadOn(t, k)..])
    && Budget(t, k, p) == Budget(s, k, p) - Used(s, e, k)
  }

  /** What an event takes from the account of k. */
  function Used(s: State, e: Event, k: Sock): nat
    requires Enabled(s, e)
  {
    if !OnConn(s, e, k) then 0 else if Serves(e) then Stride(s, e) else 1
  }

  lemma OffAccounted(world: World, s: State, e: Event, k: Sock, p: Plan, rs: seq<Request>, unread: string)
    requires Inv(s) && Enabled(s, e) && Underway(s, k, p, rs, unread) && !OnConn(s, e, k)
    ensures Accounted(s, Next(world, s, e), e, k, p, rs, unread)
  {
    hide Advance, OnTrack, ParseRequest, Act, Touch;
    if k in s.conns {
      hide Next;
      OffConn(world, s, e, k);
    } else {
      OnlyAcceptAdds(world, s, e);
    }
  }

  lemma ReadAccounted(world: World, s: State, e: Event, k: Sock, p: Plan, rs: seq<Request>, unread: string)
    requires Inv(s) && Enabled(s, e) && Printed(world, p, rs) && Underway(s, k, p, rs, unread)
    requires OnConn(s, e, k) && (e.Read? || e.BadHead?) && Allowed(s, e, k, unread)
    ensures Accounted(s, Next(world, s, e), e, k, p, rs, unread)
  {
    hide OnTrack, IsPlan, UnreadAfter, Next, SendableRequests, ReceivedAll, EndsInTeardown, PrintRequests;
    ReadsAsPrinted(world, s, e, k, p, rs, unread);
    ReadingStep(world, s, e, k);
    NextVerb(world, p, ReadOn(s, k));
  }

  lemma NextVerb(world: World, p: Plan, i: nat)
    requires IsPlan(world, p) && i < |p.asked|
    ensures if i == 0 then p.asked[i].verb == "SETUP" else p.asked[i].verb == "PLAY" || p.asked[i].verb == "TEARDOWN"
  {
    hide FileOf, PlayReply, InRange;
    if i > 0 { LaterVerb(world, p, i); }
  }

  lemma ServeAccounted(world: World, s: State, e: Event, k: Sock, p: Plan, rs: seq<Request>, unread: string)
    requires Inv(s) && Enabled(s, e) && Printed(world, p, rs) && Underway(s, k, p, rs, unread)
    requires OnConn(s, e, k) && Serves(e) && FaithfulIds(world) && GateHolds(s, p.gate)
    ensures Accounted(s, Next(world, s, e), e, k, p, rs, unread)
  {
    hide OnTrack, IsPlan, Next, Stride, Working, Tail;
    OnConnIsKnown(s, e, k);
    ServingStep(world, s, e, k, p);
  }

  /** One step, whoever takes it, leaves the dialogue on its way. */
  lemma StepUnderway(world: World, s: State, e: Event, k: Sock, p: Plan, rs: seq<Request>, unread: string)
    requires Inv(s) && Enabled(s, e) && FaithfulIds(world) && Printed(world, p, rs) && GateHolds(s, p.gate)
    requires Underway(s, k, p, rs, unread) && Allowed(s, e, k, unread)
    requires var t := Next(world, s, e); k in t.conns ==> GivenItsId(world, p, t.conns[k])
    ensures Underway(Next(world, s, e), k, p, rs, UnreadAfter(s, e, k, unread))
    ensures Accounted(s, Next(world, s, e), e, k, p, rs, unread)
  {
    hide OnTrack, Next, Budget, UnreadAfter, Used;
    if !OnConn(s, e, k) {
      OffAccounted(world, s, e, k, p, rs, unread);
    } else if e.Read? || e.BadHead? {
      ReadAccounted(world, s, e, k, p, rs, unread);
    } else {
      ServeAccounted(world, s, e, k, p, rs, unread);
    }
    if k in Next(world, s, e).conns { TrackStep(world, s, e, k, p); }
  }

  /** A worker that goes on but owes nothing has answered everything. */
  lemma NotOwing(world: World, s: State, e: Event, k: Sock, p: Plan)
    requires Inv(s) && Enabled(s, e) && Serves(e) && OnConn(s, e, k) && IsPlan(world, p)
    requires k in s.conns && OnTrack(s, k, p) && s.conns[k].asked <= p.asked
    ensures Owes(s.workers[e.w]) || s.conns[k].asked == p.asked
  {
    hide FileOf, PlayReply, Accepted;
    assert WorkerOk(s, e.w);
    if !Owes(s.workers[e.w]) { TeardownIsLast(world, p, s.conns[k].asked); }
  }

  // ----- whole runs -----

  lemma FedStep(world: World, s: State, es: seq<Event>, k: Sock, unread: string)
    requires es != [] && Run(world, s, es).Some? && Fed(world, s, es, k, unread)
    ensures Allowed(s, es[0], k, unread)
    ensures Fed(world, Next(world, s, es[0]), es[1..], k, UnreadAfter(s, es[0], k, unread))
        || (es[0].BadHead? && OnConn(s, es[0], k))
  {
    hide ParseRequest;
  }

  /** The client goes on with the id it was given, also before the end of the run. */
  lemma ItsIdBefore(world: World, s: State, t: State, k: Sock, p: Plan)
    requires Later(s, t) && k in s.conns && GivenItsId(world, p, t.conns[k])
    ensures GivenItsId(world, p, s.conns[k])
  {
    assert ConnLater(s.conns[k], t.conns[k]);
  }

  /** Over a run that feeds the dialogue's bytes, the dialogue stays on its way, and each step on the connection is
  one of those that were to come; with authentication on, none of these is skipped. */
  lemma {:induction false} FedRun(world: World, s: State, es: seq<Event>, k: Sock,
                                  p: Plan, rs: seq<Request>, unread: string)
    requires Inv(s) && FaithfulIds(world) && Printed(world, p, rs) && GateHolds(s, p.gate)
    requires Underway(s, k, p, rs, unread)
    requires Run(world, s, es).Some? && Fed(world, s, es, k, unread)
    requires var t := Run(world, s, es).value;
      GateHolds(t, p.gate) && (k in t.conns ==> GivenItsId(world, p, t.conns[k]))
    ensures var t := Run(world, s, es).value;
      && Underway(t, k, p, rs, UnreadAtEnd(world, s, es, k, unread))
      && StepsOn(world, s, es, k) <= Budget(s, k, p) - Budget(t, k, p)
      && (s.useAuth ==> StepsOn(world, s, es, k) == Budget(s, k, p) - Budget(t, k, p))
    decreases |es|
  {
    if es != [] {
      hide Budget, Used, Next, Underway, Printed, GateHolds, FaithfulIds;
      var e := es[0];
      var s', t, unread' := Next(world, s, e), Run(world, s, es).value, UnreadAfter(s, e, k, unread);
      OneOrMore(s, e, k);
      FedStep(world, s, es, k, unread);
      FedOnward(world, s, es, k, p);
      StepUnderway(world, s, e, k, p, rs, unread);
      if OnConn(s, e, k) && (e.Read? || e.BadHead?) { ReadsAsPrinted(world, s, e, k, p, rs, unread); }
      FedRun(world, s', es[1..], k, p, rs, unread');
    }
  }

  lemma OneOrMore(s: State, e: Event, k: Sock)
    requires Enabled(s, e)
    ensures var n := if OnConn(s, e, k) then 1 else 0; Used(s, e, k) >= n && (s.useAuth ==> Used(s, e, k) == n)
  {
  }

  lemma FedOnward(world: World, s: State, es: seq<Event>, k: Sock, p: Plan)
    requires Inv(s) && es != [] && GateHolds(s, p.gate) && Run(world, s, es).Some?
    requires var t := Run(world, s, es).value;
      GateHolds(t, p.gate) && (k in t.conns ==> GivenItsId(world, p, t.conns[k]))
    ensures var s' := Next(world, s, es[0]);
      && Inv(s') && GateHolds(s', p.gate) && (k in s'.conns ==> GivenItsId(world, p, s'.conns[k]))
      && (s.useAuth ==> s'.useAuth)
  {
    var s', t := Next(world, s, es[0]), Run(world, s, es).value;
    InvNext(world, s, es[0]);
    LaterStep(world, s, es[0]);
    LaterRun(world, s', es[1..]);
    GateBetween(s, s', t, p.gate);
    if k in s'.conns { ItsIdBefore(world, s', t, k, p); }
  }

  // ----- nothing gets stuck -----

  /** The worker of k is on k. */
  predicate Attended(s: State, k: Sock) {
    && k in s.conns && s.conns[k].worker < |s.workers|
    && var pc := s.workers[s.conns[k].worker]; HasSock(pc) && pc.sock == k
  }

  /** While a reply is missing, the worker is there, and not yet at the end. */
  lemma Unfinished(world: World, s: State, k: Sock, p: Plan)
    requires k in s.conns && OnTrack(s, k, p) && IsPlan(world, p) && s.conns[k].asked <= p.asked
    requires Inv(s) && s.conns[k].answers != p.replies
    ensures Attended(s, k) && !s.workers[s.conns[k].worker].Pop?
  {
    hide FileOf, PlayReply, InRange, EntryFor;
    var asked := s.conns[k].asked;
    if EndsInTeardown(asked) { TeardownIsLast(world, p, asked); }
  }

  /** The worker of a dialogue can take its next step. */
  lemma NextStep(world: World, s: State, k: Sock, p: Plan, rs: seq<Request>, unread: string, id: Id) returns (e: Event)
    requires Inv(s) && Printed(world, p, rs) && Underway(s, k, p, rs, unread) && Attended(s, k) && id !in s.issued
    ensures Enabled(s, e) && OnConn(s, e, k) && Allowed(s, e, k, unread) && (e.Read? || Serves(e))
    ensures e.GiveId? ==> e.id == id
  {
    hide ParseRequest, IsPlan;
    var w := s.conns[k].worker;
    if s.workers[w].Waiting? {
      StillToRead(s, k, p);
      hide OnTrack;
      NextRequest(rs, ReadOn(s, k));
      e := Read(w, Received(rs[ReadOn(s, k)]));
    } else {
      e := if s.workers[w].NewId? then GiveId(w, id) else Go(w);
    }
  }

  lemma CanAlwaysGoOn(world: World, s: State, k: Sock, p: Plan, rs: seq<Request>, unread: string)
    requires Inv(s) && Printed(world, p, rs) && Underway(s, k, p, rs, unread) && Attended(s, k)
    ensures CanGoOn(s, k, unread)
  {
    hide Inv, Printed, Underway, Attended, Allowed;
    var id := Provenance.FreshId(s.issued.Keys);
    var e := NextStep(world, s, k, p, rs, unread, id);
  }

  /** A plan fed to a fresh connection: how many steps it can take there, and that it never gets stuck. */
  lemma PlanIsServed(world: World, s: State, es: seq<Event>, k: Sock, p: Plan, rs: seq<Request>)
    requires Inv(s) && FaithfulIds(world) && Printed(world, p, rs) && GateHolds(s, p.gate) && k !in s.conns
    requires Run(world, s, es).Some? && Fed(world, s, es, k, PrintRequests(rs))
    requires var t := Run(world, s, es).value;
      GateHolds(t, p.gate) && (k in t.conns ==> GivenItsId(world, p, t.conns[k]))
    ensures var t := Run(world, s, es).value;
      && StepsOn(world, s, es, k) <= 6 * |rs| + 6
      && (k in t.conns ==> OnTrack(t, k, p))
      && (k in t.conns && t.conns[k].answers != p.replies ==>
            StepsOn(world, s, es, k) < 6 * |rs| + 4 && CanGoOn(t, k, UnreadAtEnd(world, s, es, k, PrintRequests(rs))))
      && (s.useAuth && k in t.conns && !Attended(t, k) ==> StepsOn(world, s, es, k) == 6 * |rs| + 6)
  {
    hide FaithfulIds, Fed, GateHolds, OnTrack, IsPlan, CanGoOn, Attended;
    var t, unread := Run(world, s, es).value, UnreadAtEnd(world, s, es, k, PrintRequests(rs));
    assert rs[0..] == rs;
    FedRun(world, s, es, k, p, rs, PrintRequests(rs));
    LaterRun(world, s, es);
    hide Run, UnreadAtEnd, StepsOn, Later, Inv;
    if k in t.conns {
      PlanStands(world, t, k, p, rs, unread);
    } else {
      assert Budget(t, k, p) == 6 * |rs| + 6;
    }
  }

  lemma PlanStands(world: World, t: State, k: Sock, p: Plan, rs: seq<Request>, unread: string)
    requires Inv(t) && Printed(world, p, rs) && Underway(t, k, p, rs, unread) && k in t.conns
    ensures Budget(t, k, p) >= 0 && (!Attended(t, k) ==> Budget(t, k, p) == 0)
    ensures t.conns[k].answers != p.replies ==> Budget(t, k, p) >= 3 && CanGoOn(t, k, unread)
  {
    hide CanGoOn, IsPlan, OnTrack;
    assert |p.replies| == |p.asked| by { PlanLengths(world, p); }
    if t.conns[k].answers != p.replies {
      Unfinished(world, t, k, p);
      CanAlwaysGoOn(world, t, k, p, rs, unread);
      if Left(t, k, p) <= 0 { NothingLeft(t, k, p); }
    } else {
      LeftAlone(world, t, k, p);
    }
  }

  lemma PlanLengths(world: World, p: Plan)
    requires IsPlan(world, p)
    ensures |p.replies| == |p.asked|
  {
  }

  lemma LeftAlone(world: World, t: State, k: Sock, p: Plan)
    requires Inv(t) && k in t.conns && OnTrack(t, k, p) && IsPlan(world, p) && t.conns[k].asked <= p.asked
    requires EndsInTeardown(p.asked) && t.conns[k].answers == p.replies
    ensures Left(t, k, p) == 0 && t.conns[k].worker < |t.workers|
  {
    hide FileOf, PlayReply, InRange, EntryFor;
    assert WorkerOk(t, t.conns[k].worker) && ConnOk(t, k);
  }

  // ----- the main result -----

  /** The reply to the i-th request of an errand. */
  function ReplyFor(world: World, x: Errand, id: Id, i: nat): Option<Response>
    requires x.name in world.files && i < |x.ranges| + 2
  {
    if i == 0 then Some(SetupReply(world, id, "TCP"))
    else if i <= |x.ranges| then
      PlayReply(Requests(x, world.idText(id))[0].headers, world.files[x.name], Given(x.ranges[i-1]))
    else Some(Plain(200, "OK", []))
  }

  /** The replies in order, as far as they go. */
  predicate Served(world: World, x: Errand, id: Id, answers: seq<Response>)
    requires x.name in world.files
  {
    |answers| <= |x.ranges| + 2
    && forall i: nat | i < |answers| ::
         && Some(answers[i]) == ReplyFor(world, x, id, i)
         && answers[i].status == if 0 < i <= |x.ranges| then 206 else 200
  }

  lemma ReplyIsFor(world: World, gate: Gate, x: Errand, id: Id, i: nat)
    requires Possible(world, gate, x) && ValueOk(world.idText(id)) && i < |x.ranges| + 2
    requires |ReceivedAll(Requests(x, world.idText(id)))| == |x.ranges| + 2
    requires Script(world, gate, id, ReceivedAll(Requests(x, world.idText(id))))
    ensures var reply := ReplyTo(world, id, ReceivedAll(Requests(x, world.idText(id))), i);
      Some(reply) == ReplyFor(world, x, id, i) && reply.status == if 0 < i <= |x.ranges| then 206 else 200
  {
    hide FileOf;
    hide InRange;
    hide PlayReply;
    var rs := Requests(x, world.idText(id));
    var asked := ReceivedAll(rs);
    ReceivedAt(rs, 0);
    ReceivedAt(rs, i);
    RequestIsGood(world, gate, x, id, 0);
    RequestIsGood(world, gate, x, id, i);
    StatusesOfReplies(world, gate, id, asked, i);
    if i == 0 { SetupPrints(0, UrlFor(x.host, x.name), x.key); }
    if 0 < i <= |x.ranges| {
      InRangeReplies(asked[0].headers, world.files[x.name], Given(x.ranges[i-1]));
    }
  }

  /** In every run in which k is fed what the client prints and is not reset, whatever else goes on: the
  replies so far are the ones due, 200, then 206 for each range with its bytes, then 200, and are read
  back whole; while one is missing on an accepted connection, fewer steps were taken on k than it takes to
  send all, six for each request and four for the SETUP, and another is possible.  So a run that no step
  on k can extend has all of them; and no run has more than two steps on k beyond. */
  lemma ClientIsServed(world: World, s: State, es: seq<Event>, k: Sock, gate: Gate, x: Errand, id: Id)
    requires Inv(s) && FaithfulIds(world) && k !in s.conns && GateHolds(s, gate)
    requires Possible(world, gate, x) && ValueOk(world.idText(id))
    requires Run(world, s, es).Some? && Fed(world, s, es, k, PrintRequests(Requests(x, world.idText(id))))
    requires var t := Run(world, s, es).value;
      && GateHolds(t, gate)
      && (k in t.conns && t.conns[k].answers != [] ==>
            Find(t.conns[k].answers[0].headers, "Session") == Some(world.idText(id)))
    ensures var t := Run(world, s, es).value; k in t.conns ==>
      && Served(world, x, id, t.conns[k].answers)
      && ParseResponses(|t.conns[k].answers|, PrintResponses(t.conns[k].answers))
         == Some((ReceivedResponses(t.conns[k].answers),
                  if |t.conns[k].answers| == |x.ranges| + 2 then CRLF else ""))
    ensures var t := Run(world, s, es).value; k in t.conns && |t.conns[k].answers| < |x.ranges| + 2 ==>
      && StepsOn(world, s, es, k) < 6 * (|x.ranges| + 2) + 4
      && CanGoOn(t, k, UnreadAtEnd(world, s, es, k, PrintRequests(Requests(x, world.idText(id)))))
    ensures StepsOn(world, s, es, k) <= 6 * (|x.ranges| + 2) + 6
  {
    hide FaithfulIds, Fed, GateHolds, OnTrack, Possible, Requests, CanGoOn, Run, StepsOn, UnreadAtEnd, Served;
    hide IsPlan, ParseResponses, FileFor;
    var rs := Requests(x, world.idText(id));
    var t := Run(world, s, es).value;
    var p := PlanOf(world, gate, x, id);
    PlanOfErrand(world, gate, x, id);
    PlanIsServed(world, s, es, k, p, rs);
    if k in t.conns {
      OnTrackAnswers(t, k, p);
      AnswersFit(world, gate, x, id, t.conns[k].answers);
    }
  }

  /** The plan of an errand. */
  function PlanOf(world: World, gate: Gate, x: Errand, id: Id): Plan {
    var asked := ReceivedAll(Requests(x, world.idText(id)));
    Plan(gate, id, if asked == [] then "" else FileFor(world, asked[0]), asked, RepliesTo(world, id, asked))
  }

  lemma PlanOfErrand(world: World, gate: Gate, x: Errand, id: Id)
    requires Possible(world, gate, x) && ValueOk(world.idText(id))
    ensures var rs, p := Requests(x, world.idText(id)), PlanOf(world, gate, x, id);
      && Printed(world, p, rs) && |rs| == |x.ranges| + 2 == |p.replies|
      && p.replies == RepliesTo(world, id, ReceivedAll(rs)) && p.gate == gate && p.id == id
  {
    hide Possible, Requests, Script, IsPlan, FileFor, SendableRequests;
    ClientIsHeard(world, gate, x, id, "");
    ScriptIsPlan(world, gate, id, ReceivedAll(Requests(x, world.idText(id))));
  }

  lemma OnTrackAnswers(t: State, k: Sock, p: Plan)
    requires k in t.conns && OnTrack(t, k, p)
    ensures t.conns[k].answers <= p.replies
  {
  }

  lemma AnswersFit(world: World, gate: Gate, x: Errand, id: Id, answers: seq<Response>)
    requires Possible(world, gate, x) && ValueOk(world.idText(id))
    requires answers <= RepliesTo(world, id, ReceivedAll(Requests(x, world.idText(id))))
    ensures Served(world, x, id, answers)
    ensures ParseResponses(|answers|, PrintResponses(answers))
         == Some((ReceivedResponses(answers), if |answers| == |x.ranges| + 2 then CRLF else ""))
  {
    hide ParseResponses;
    hide Script;
    hide Possible;
    hide Requests;
    var asked := ReceivedAll(Requests(x, world.idText(id)));
    ClientIsHeard(world, gate, x, id, "");
    AnswersServe(world, gate, x, id, answers);
    AnswersAreRead(world, gate, id, asked, answers);
    LeavesAtTheEnd(world, gate, id, asked, |answers|);
  }

  lemma AnswersServe(world: World, gate: Gate, x: Errand, id: Id, answers: seq<Response>)
    requires Possible(world, gate, x) && ValueOk(world.idText(id))
    requires answers <= RepliesTo(world, id, ReceivedAll(Requests(x, world.idText(id))))
    ensures Served(world, x, id, answers)
  {
    hide ReplyFor;
    hide FileOf;
    hide InRange;
    hide PlayReply;
    var asked := ReceivedAll(Requests(x, world.idText(id)));
    ClientIsHeard(world, gate, x, id, "");
    forall i: nat | i < |answers|
      ensures Some(answers[i]) == ReplyFor(world, x, id, i)
      ensures answers[i].status == if 0 < i <= |x.ranges| then 206 else 200
    {
      ReplyIsFor(world, gate, x, id, i);
      assert answers[i] == RepliesTo(world, id, asked)[i];
    }
  }

  lemma LeavesAtTheEnd(world: World, gate: Gate, id: Id, asked: seq<Request>, n: nat)
    requires Script(world, gate, id, asked) && EndsInTeardown(asked) && n <= |asked|
    ensures LeftBehind(asked[..n]) == if n == |asked| then CRLF else ""
  {
    hide FileOf;
    hide InRange;
    assert asked[..|asked|] == asked;
    assert n > 0 ==> asked[..n][n-1] == asked[n-1];
  }
}
