/** One client's whole dialogue with the server, whatever other clients and workers do meanwhile.

The client sets a session up with an accepted key and an existing file, plays any number of
times with ranges inside the file, and may then tear the session down, all on one connection.
*/
module Dialogue {
  import opened Wrappers
  import opened Headers
  import opened Messages
  import opened Ranges
  import opened Sessions
  import opened Server
  import opened Guarantees
  import Provenance

  /** Reading back a printed id gives the id. */
  ghost predicate FaithfulIds(world: World) {
    forall id: Id :: world.idOf(world.idText(id)) == Some(id)
  }

  // ----- what the client asks -----

  /** What a SETUP must bring: nothing while authentication stays off, one of these keys otherwise. */
  datatype Gate = Unlocked | Locked(keys: seq<string>)

  predicate GateHolds(s: State, gate: Gate) {
    if gate.Unlocked? then !s.useAuth else gate.keys <= s.auths
  }

  predicate Passes(gate: Gate, r: Request) { gate.Unlocked? || Accepted(gate.keys, r) }

  predicate GoodSetup(world: World, gate: Gate, r: Request) {
    && r.verb == "SETUP" && Has(r.headers, "Transport") && Passes(gate, r)
    && var name := FileOf(r.url); name.Some? && name.value in world.files
  }

  function FileFor(world: World, r: Request): string {
    var name := FileOf(r.url);
    if name.Some? && name.value in world.files then world.files[name.value] else ""
  }

  predicate InRange(file: string, range: Option<string>) {
    || PlaysWhole(range)
    || match ParseRange(range.value)
       case Some((start, Some(end))) => start <= end < |file| && end > 0
       case _ => false
  }

  predicate GoodPlay(world: World, id: Id, file: string, r: Request) {
    && r.verb == "PLAY" && Find(r.headers, "Session") == Some(world.idText(id))
    && InRange(file, Find(r.headers, "Range"))
  }

  predicate GoodTeardown(world: World, id: Id, r: Request) {
    r.verb == "TEARDOWN" && Find(r.headers, "Session") == Some(world.idText(id))
  }

  /** What a whole dialogue is to be: its session, the file, the requests in order, and the replies due. */
  datatype Plan = Plan(gate: Gate, id: Id, file: string, asked: seq<Request>, replies: seq<Response>)

  /** SETUP, then plays, then perhaps TEARDOWN; each reply is a function of the dialogue alone. */
  ghost predicate IsPlan(world: World, p: Plan) {
    && |p.replies| == |p.asked|
    && (p.asked != [] ==> GoodSetup(world, p.gate, p.asked[0]) && p.file == FileFor(world, p.asked[0]))
    && forall i: nat | i < |p.asked| :: Due(world, p, i)
  }

  predicate Due(world: World, p: Plan, i: nat)
    requires i < |p.asked| == |p.replies|
  {
    var first, r := p.asked[0], p.asked[i];
    if i == 0 then
      var transport := Find(first.headers, "Transport");
      transport.Some? && p.replies[0] == SetupReply(world, p.id, transport.value)
    else
      || (GoodPlay(world, p.id, p.file, r)
          && PlayReply(first.headers, p.file, Find(r.headers, "Range")) == Some(p.replies[i]))
      || (GoodTeardown(world, p.id, r) && i == |p.asked| - 1 && p.replies[i] == Plain(200, "OK", []))
  }

  /** What has gone over the connection so far follows the plan, and the client uses the id it was given. */
  predicate Follows(p: Plan, c: Conn) {
    !c.broken && c.asked <= p.asked
  }

  predicate GivenItsId(world: World, p: Plan, c: Conn) {
    c.answers != [] ==> Find(c.answers[0].headers, "Session") == Some(world.idText(p.id))
  }

  /** The replies so far are the ones due, in order. */
  predicate AnsweredAsDue(p: Plan, c: Conn) {
    |c.answers| <= |c.asked| && c.answers <= p.replies
  }

  // ----- where the dialogue stands -----

  ghost predicate EntryFor(k: Sock, first: Request, file: string, e: Entry) {
    && e.sock == k && e.file == file && IsDict(first.headers)
    && (e.headers == first.headers || e.headers == WholeHeaders(first.headers, |file|))
  }

  predicate InSetup(pc: Pc) { pc.Dispatch? || pc.HasTransport? || PastTransport(pc) }

  /** The SETUP is not answered yet. */
  ghost predicate Setting(s: State, k: Sock, p: Plan)
    requires k in s.conns && s.conns[k].worker < |s.workers|
  {
    var c := s.conns[k];
    var pc := s.workers[c.worker];
    && c.answers == []
    && if c.asked == [] then pc == Waiting(k)
       else
         && |c.asked| == 1 && InSetup(pc) && pc.sock == k && pc.req == c.asked[0]
         && (p.gate.Unlocked? ==> !pc.HasKey? && !pc.CompareKey?)
         && (pc.Insert? ==> pc.file == p.file)
         && (pc.ReplySetup? ==> pc.id in s.sessions && EntryFor(k, pc.req, p.file, s.sessions[pc.id]))
  }

  predicate EndsInTeardown(asked: seq<Request>) { |asked| >= 2 && asked[|asked|-1].verb == "TEARDOWN" }

  predicate Handling(pc: Pc, id: Id) {
    || pc.Dispatch? || pc.HasSession?
    || ((pc.IsMember? || pc.IsOwner?) && pc.id == id)
    || (pc.Play? && pc.id == id && pc.req.verb == "PLAY")
    || (pc.ReplyTeardown? && pc.id == id && pc.req.verb == "TEARDOWN")
  }

  /** Between requests, on one, or closing. */
  predicate Stands(c: Conn, pc: Pc, id: Id) {
    if pc.Waiting? then |c.answers| == |c.asked| && !EndsInTeardown(c.asked)
    else if pc.Close? || pc.Pop? then pc.id == id && |c.answers| == |c.asked| && EndsInTeardown(c.asked)
    else |c.asked| >= 2 && |c.answers| == |c.asked| - 1 && Handling(pc, id) && pc.req == c.asked[|c.asked|-1]
  }

  ghost predicate Live(s: State, k: Sock, id: Id, file: string)
    requires k in s.conns && s.conns[k].worker < |s.workers| && s.conns[k].asked != []
  {
    var c := s.conns[k];
    var pc := s.workers[c.worker];
    && id in s.sessions && EntryFor(k, c.asked[0], file, s.sessions[id])
    && HasSock(pc) && pc.sock == k && Stands(c, pc, id)
  }

  predicate Over(c: Conn) { !c.open && |c.answers| == |c.asked| && EndsInTeardown(c.asked) }

  ghost predicate InDialogue(s: State, k: Sock, p: Plan)
    requires k in s.conns
  {
    && s.conns[k].worker < |s.workers| && s.conns[k].asked != [] && s.conns[k].answers != []
    && AnsweredAsDue(p, s.conns[k])
    && (Over(s.conns[k]) || Live(s, k, p.id, p.file))
  }

  ghost predicate OnTrack(s: State, k: Sock, p: Plan)
    requires k in s.conns
  {
    s.conns[k].worker < |s.workers| && (Setting(s, k, p) || InDialogue(s, k, p))
  }

  // ----- nobody else touches it -----

  predicate IsStepOf(e: Event, w: nat) { !e.EnableAuth? && !e.AddAuth? && e.w == w }

  ghost predicate SameFor(s: State, t: State, k: Sock)
    requires k in s.conns && s.conns[k].worker < |s.workers|
  {
    && k in t.conns && t.conns[k] == s.conns[k] && |t.workers| == |s.workers|
    && t.workers[s.conns[k].worker] == s.workers[s.conns[k].worker]
    && forall id | id in s.sessions && s.sessions[id].sock == k :: id in t.sessions && t.sessions[id] == s.sessions[id]
  }

  lemma TouchSameFor(s: State, pc: Pc, k: Sock)
    requires k in s.conns && s.conns[k].worker < |s.workers|
    requires pc.Insert? ==> pc.id !in s.sessions
    requires (pc.Play? || pc.Close? || pc.Pop?) && pc.id in s.sessions ==> s.sessions[pc.id].sock != k
    ensures SameFor(s, Touch(s, pc), k)
  {
  }

  lemma ActSameFor(world: World, s: State, w: nat, k: Sock, pc: Pc, next: Pc)
    requires k in s.conns && s.conns[k].worker < |s.workers| && w < |s.workers|
    requires w != s.conns[k].worker && HasSock(pc) && pc.sock != k
    ensures SameFor(s, At(s, w, next), k)
    ensures forall r :: SameFor(s, Answer(s, w, pc.sock, r, next), k)
  {
    forall r ensures SameFor(s, Answer(s, w, pc.sock, r, next), k) {
      var t := Answer(s, w, pc.sock, r, next);
      assert t.workers[s.conns[k].worker] == s.workers[s.conns[k].worker];
    }
  }

  /** Other workers leave a connection, its worker and its sessions exactly as they are. */
  lemma OthersLeaveAlone(world: World, s: State, e: Event, k: Sock)
    requires Inv(s) && Enabled(s, e) && k in s.conns && s.conns[k].worker < |s.workers|
    requires !IsStepOf(e, s.conns[k].worker)
    ensures SameFor(s, Next(world, s, e), k)
  {
    hide Advance, Touch;
    if e.Go? {
      OthersGo(world, s, e.w, k);
    } else if e.Reset? {
      OthersReset(world, s, e.w, k);
    } else if !e.EnableAuth? && !e.AddAuth? {
      assert WorkerOk(s, e.w);
      hide Inv, WorkerOk;
    }
  }

  lemma OthersReset(world: World, s: State, w: nat, k: Sock)
    requires Inv(s) && Enabled(s, Reset(w)) && k in s.conns && w != s.conns[k].worker < |s.workers|
    ensures SameFor(s, Next(world, s, Reset(w)), k)
  {
    hide Touch;
    assert WorkerOk(s, w);
    hide Inv, WorkerOk;
    var pc := s.workers[w];
    var s' := if pc.Play? then Touch(s, pc) else s;
    TouchLeaves(s, pc);
    if pc.Play? { TouchSameFor(s, pc, k); }
    HangUpSameFor(s', w, pc.sock, k);
    SameForTrans(s, s', Next(world, s, Reset(w)), k);
  }

  lemma HangUpSameFor(s: State, w: nat, j: Sock, k: Sock)
    requires k in s.conns && s.conns[k].worker < |s.workers| && w < |s.workers| && j in s.conns
    requires w != s.conns[k].worker && j != k
    ensures SameFor(s, At(s, w, Idle).(conns := s.conns[j := s.conns[j].(open := false, broken := true)]), k)
  {
  }

  lemma OthersGo(world: World, s: State, w: nat, k: Sock)
    requires Inv(s) && Enabled(s, Go(w)) && k in s.conns && w != s.conns[k].worker < |s.workers|
    ensures SameFor(s, Next(world, s, Go(w)), k)
  {
    hide Act;
    assert WorkerOk(s, w);
    var pc := s.workers[w];
    if Holds(pc) || Owns(pc) { assert IdOk(s, pc.id); }
    TouchSameFor(s, pc, k);
    var s' := Touch(s, pc);
    ActSameFor(world, s', w, k, pc, Act(world, s, pc).next);
    ActSameFor(world, s', w, k, pc, Dead);
    SameForTrans(s, s', Next(world, s, Go(w)), k);
  }

  lemma SameForTrans(a: State, b: State, c: State, k: Sock)
    requires k in a.conns && a.conns[k].worker < |a.workers| && SameFor(a, b, k) && SameFor(b, c, k)
    ensures SameFor(a, c, k)
  {
  }

  /** A closed connection stays as it is. */
  lemma ClosedStays(world: World, s: State, e: Event, k: Sock)
    requires Inv(s) && Enabled(s, e) && k in s.conns && !s.conns[k].open
    ensures var t := Next(world, s, e); k in t.conns && t.conns[k] == s.conns[k]
  {
    if e.Go? {
      GoLeavesClosed(world, s, e.w, k);
    } else if !e.EnableAuth? && !e.AddAuth? {
      assert WorkerOk(s, e.w);
      if e.Reset? { TouchLeaves(s, s.workers[e.w]); }
    }
  }

  lemma GoLeavesClosed(world: World, s: State, w: nat, k: Sock)
    requires Inv(s) && Enabled(s, Go(w)) && k in s.conns && !s.conns[k].open
    ensures var t := Next(world, s, Go(w)); k in t.conns && t.conns[k] == s.conns[k]
  {
    hide Act, Advance, Touch;
    assert WorkerOk(s, w);
    if s.workers[w].Pop? { PopEffect(world, s, w); } else { GoStays(world, s, w); }
  }

  // ----- the SETUP -----

  /** The worker is about to go past the key, for authentication is off. */
  predicate SkipsKey(s: State, pc: Pc) { pc.ReadFlag? && !s.useAuth }

  /** A good SETUP is refused nowhere. */
  lemma SetupMoves(world: World, s: State, pc: Pc, gate: Gate)
    requires InSetup(pc) && !pc.NewId? && !pc.ReplySetup? && GoodSetup(world, gate, pc.req)
    requires GateHolds(s, gate) && (gate.Unlocked? ==> !pc.HasKey? && !pc.CompareKey?)
    requires pc.Insert? ==> pc.file == FileFor(world, pc.req)
    ensures var a := Act(world, s, pc);
      && a.Move? && InSetup(a.next) && a.next.sock == pc.sock && a.next.req == pc.req
      && (gate.Unlocked? ==> !a.next.HasKey? && !a.next.CompareKey?)
      && (a.next.Insert? ==> a.next.file == FileFor(world, pc.req))
      && (a.next.ReplySetup? <==> pc.Insert?)
      && (pc.Insert? ==> a.next.id == pc.id)
      && StepsLeft(a.next) == StepsLeft(pc) - if SkipsKey(s, pc) then 3 else 1
  {
    hide FileOf, Accepted, PlayReply;
    if gate.Locked? { Provenance.KeysGrow(gate.keys, s.auths, pc.req); }
  }

  ghost predicate StillSetting(world: World, s: State, k: Sock, p: Plan) {
    k in s.conns && Enabled(s, Go(s.conns[k].worker)) ==>
    var t := Next(world, s, Go(s.conns[k].worker));
    && k in t.conns && t.conns[k] == s.conns[k] && t.conns[k].worker < |t.workers| && Setting(t, k, p)
  }

  lemma SetupGoes(world: World, s: State, k: Sock, p: Plan)
    requires k in s.conns && s.conns[k].asked != [] && s.conns[k].worker < |s.workers|
    requires var pc := s.workers[s.conns[k].worker]; Moves(pc) && !pc.ReplySetup?
    requires Inv(s) && Setting(s, k, p)
    requires GateHolds(s, p.gate) && GoodSetup(world, p.gate, s.conns[k].asked[0])
    requires p.file == FileFor(world, s.conns[k].asked[0])
    ensures StillSetting(world, s, k, p)
  {
    hide Act, FileOf, HeadersAfter;
    var w := s.conns[k].worker;
    assert WorkerOk(s, w);
    var pc := s.workers[w];
    SetupMoves(world, s, pc, p.gate);
    assert Next(world, s, Go(w)) == At(Touch(s, pc), w, Act(world, s, pc).next);
    TouchLeaves(s, pc);
  }

  /** The reply to SETUP names the session that is in the table. */
  lemma SetupAnswers(world: World, s: State, k: Sock, p: Plan)
    requires k in s.conns && s.conns[k].worker < |s.workers| && s.conns[k].asked != []
    requires s.workers[s.conns[k].worker].ReplySetup? && Inv(s) && Setting(s, k, p)
    ensures var w := s.conns[k].worker; var pc, t := s.workers[w], Next(world, s, Go(w));
      && k in t.conns && t.conns[k].asked == s.conns[k].asked && t.conns[k].worker == w && w < |t.workers|
      && Has(pc.req.headers, "Transport") && pc.req == s.conns[k].asked[0]
      && t.conns[k].answers == [SetupReply(world, pc.id, Find(pc.req.headers, "Transport").value)]
      && Live(t, k, pc.id, p.file)
  {
    hide FileOf, PlayReply, Accepted, HeadersAfter;
    var w := s.conns[k].worker;
    assert WorkerOk(s, w);
    var pc := s.workers[w];
    SendEffect(world, s, w);
  }

  // ----- the requests after it -----

  /** The reply to a play is the same from either form of the kept headers, and the kept headers stay in them. */
  lemma PlayFromEither(k: Sock, first: Request, e: Entry, range: Option<string>)
    requires EntryFor(k, first, e.file, e)
    ensures PlayReply(e.headers, e.file, range) == PlayReply(first.headers, e.file, range)
    ensures EntryFor(k, first, e.file, e.(headers := HeadersAfter(e.headers, e.file, range)))
  {
    WholeHeadersTwice(first.headers, |e.file|);
  }

  /** The session's own worker, on the request of the dialogue that is not answered yet. */
  ghost predicate OnRequest(s: State, k: Sock, p: Plan)
    requires k in s.conns
  {
    && InDialogue(s, k, p) && Live(s, k, p.id, p.file)
    && var pc := s.workers[s.conns[k].worker]; !pc.Waiting? && !pc.Close? && !pc.Pop?
  }

  /** Nothing is refused on the way to the play or the teardown. */
  lemma HandlingMoves(world: World, s: State, pc: Pc, k: Sock, id: Id)
    requires FaithfulIds(world) && Handling(pc, id) && !pc.Play? && !pc.ReplyTeardown? && pc.sock == k
    requires id in s.sessions && s.sessions[id].sock == k
    requires pc.req.verb == "PLAY" || pc.req.verb == "TEARDOWN"
    requires Find(pc.req.headers, "Session") == Some(world.idText(id))
    ensures var a := Act(world, s, pc);
      && a.Move? && Handling(a.next, id) && a.next.sock == k && a.next.req == pc.req
      && StepsLeft(a.next) == StepsLeft(pc) - 1
  {
    hide FileOf, Accepted, PlayReply;
  }

  /** The worker goes on handling the request, on the same connection. */
  predicate HandlesOn(a: Action, pc: Pc, k: Sock, id: Id) {
    && Carries(pc) && !pc.Play? && !pc.ReplyTeardown?
    && a.Move? && Handling(a.next, id) && a.next.sock == k && a.next.req == pc.req
  }

  /** The next step of the worker of k leaves the dialogue where it is to be. */
  ghost predicate GoStaysIn(world: World, s: State, k: Sock, p: Plan) {
    k in s.conns && Enabled(s, Go(s.conns[k].worker)) ==>
      var t := Next(world, s, Go(s.conns[k].worker)); k in t.conns && InDialogue(t, k, p)
  }

  lemma HandlingGoes(world: World, s: State, k: Sock, p: Plan)
    requires k in s.conns && s.conns[k].worker < |s.workers| && Moves(s.workers[s.conns[k].worker])
    requires HandlesOn(Act(world, s, s.workers[s.conns[k].worker]), s.workers[s.conns[k].worker], k, p.id)
    requires OnRequest(s, k, p)
    ensures GoStaysIn(world, s, k, p)
  {
    hide Act;
    var t := Next(world, s, Go(s.conns[k].worker));
    assert t.conns == s.conns && t.sessions == s.sessions;
    assert t.workers == s.workers[s.conns[k].worker := Act(world, s, s.workers[s.conns[k].worker]).next];
  }

  /** The reply that was due has been sent. */
  lemma AnsweredWell(s: State, t: State, k: Sock, p: Plan, next: Pc)
    requires k in s.conns && OnRequest(s, k, p) && |s.conns[k].answers| < |p.replies|
    requires var c := s.conns[k];
      && t.conns == s.conns[k := c.(answers := c.answers + [p.replies[|c.answers|]])]
      && t.workers == s.workers[c.worker := next]
      && HasSock(next) && next.sock == k && Stands(t.conns[k], next, p.id)
    requires p.id in t.sessions && EntryFor(k, s.conns[k].asked[0], p.file, t.sessions[p.id])
    ensures k in t.conns && InDialogue(t, k, p)
  {
  }

  lemma OwnFileIsOpen(s: State, w: nat)
    requires Inv(s) && w < |s.workers| && s.workers[w].Play?
    ensures s.workers[w].id !in s.closed
  {
    assert WorkerOk(s, w) && IdOk(s, s.workers[w].id);
  }

  lemma PlayActs(world: World, s: State, pc: Pc, k: Sock, first: Request, file: string, reply: Response)
    requires pc.Play? && pc.sock == k && pc.id in s.sessions && pc.id !in s.closed
    requires EntryFor(k, first, file, s.sessions[pc.id])
    requires PlayReply(first.headers, file, Find(pc.req.headers, "Range")) == Some(reply)
    requires !Raises(file, Find(pc.req.headers, "Range"))
    ensures Act(world, s, pc) == Send(reply, Waiting(k))
    ensures var t := Touch(s, pc); pc.id in t.sessions && EntryFor(k, first, file, t.sessions[pc.id])
  {
    PlayFromEither(k, first, s.sessions[pc.id], Find(pc.req.headers, "Range"));
  }

  predicate PlayIsDue(c: Conn, r: Request, p: Plan)
    requires c.asked != [] && |c.answers| < |p.replies|
  {
    && r.verb == "PLAY"
    && PlayReply(c.asked[0].headers, p.file, Find(r.headers, "Range")) == Some(p.replies[|c.answers|])
    && InRange(p.file, Find(r.headers, "Range"))
  }

  lemma PlayGoes(world: World, s: State, k: Sock, p: Plan)
    requires k in s.conns && s.conns[k].worker < |s.workers| && s.conns[k].asked != []
    requires s.workers[s.conns[k].worker].Play? && |s.conns[k].answers| < |p.replies|
    requires PlayIsDue(s.conns[k], s.workers[s.conns[k].worker].req, p)
    requires Inv(s) && OnRequest(s, k, p)
    ensures GoStaysIn(world, s, k, p)
  {
    hide FileOf, Accepted, HeadersAfter, PlayReply;
    var c := s.conns[k];
    OwnFileIsOpen(s, c.worker);
    PlayActs(world, s, s.workers[c.worker], k, c.asked[0], p.file, p.replies[|c.answers|]);
    SendEffect(world, s, c.worker);
    AnsweredWell(s, Next(world, s, Go(c.worker)), k, p, Waiting(k));
  }

  lemma TeardownReplies(world: World, s: State, k: Sock, p: Plan)
    requires Inv(s) && k in s.conns && OnRequest(s, k, p) && |s.conns[k].answers| < |p.replies|
    requires s.workers[s.conns[k].worker].ReplyTeardown? && p.replies[|s.conns[k].answers|] == Plain(200, "OK", [])
    ensures GoStaysIn(world, s, k, p)
  {
    hide FileOf, PlayReply, HeadersAfter;
    var c := s.conns[k];
    var pc := s.workers[c.worker];
    SendEffect(world, s, c.worker);
    AnsweredWell(s, Next(world, s, Go(c.worker)), k, p, Close(k, pc.req, p.id));
  }

  lemma ClosingGoes(world: World, s: State, k: Sock, p: Plan)
    requires Inv(s) && k in s.conns && InDialogue(s, k, p) && Live(s, k, p.id, p.file)
    requires var pc := s.workers[s.conns[k].worker]; pc.Close? || pc.Pop?
    ensures GoStaysIn(world, s, k, p)
  {
    var c := s.conns[k];
    var w := c.worker;
    assert WorkerOk(s, w);
    var pc := s.workers[w];
    var t := Next(world, s, Go(w));
    if pc.Close? {
      assert t.sessions == s.sessions && t.workers == s.workers[w := Pop(pc.sock, pc.req, pc.id)];
      assert t.conns == s.conns[k := c.(open := false)];
    } else {
      assert t.workers == s.workers[w := Idle] && t.conns == s.conns;
      assert Over(c);
    }
  }

  /** One step of the session's own worker on a request of the dialogue. */
  lemma DialogueGoes(world: World, s: State, k: Sock, p: Plan)
    requires Inv(s) && FaithfulIds(world) && k in s.conns && OnRequest(s, k, p)
    requires |s.conns[k].asked| <= |p.asked| == |p.replies|
    requires var c := s.conns[k]; var i := |c.asked| - 1;
      && c.asked[0] == p.asked[0] && c.asked[i] == p.asked[i]
      && (i > 0 ==> Due(world, p, i))
    ensures GoStaysIn(world, s, k, p)
  {
    var c := s.conns[k];
    var pc := s.workers[c.worker];
    var i := |c.asked| - 1;
    hide Next, Act, PlayReply, FileOf;
    assert i >= 1 && |c.answers| == i && pc.req == p.asked[i];
    if pc.Play? {
      PlayGoes(world, s, k, p);
    } else if pc.ReplyTeardown? {
      TeardownReplies(world, s, k, p);
    } else {
      HandlingMoves(world, s, pc, k, p.id);
      HandlingGoes(world, s, k, p);
    }
  }

  // ----- every step, and every run -----

  lemma SameForKeeps(s: State, t: State, k: Sock, p: Plan)
    requires k in s.conns && s.conns[k].worker < |s.workers| && SameFor(s, t, k) && OnTrack(s, k, p)
    ensures OnTrack(t, k, p)
  {
  }

  lemma ReadTracks(world: World, s: State, k: Sock, p: Plan, r: Request)
    requires Inv(s) && k in s.conns && OnTrack(s, k, p) && s.conns[k].open
    requires Enabled(s, Read(s.conns[k].worker, r))
    ensures var t := Next(world, s, Read(s.conns[k].worker, r)); k in t.conns && OnTrack(t, k, p)
  {
    hide Advance, Touch, Act;
    var w := s.conns[k].worker;
    assert WorkerOk(s, w);
    var t := Next(world, s, Read(w, r));
    assert t.conns[k] == s.conns[k].(asked := s.conns[k].asked + [r]);
  }

  lemma GiveIdTracks(world: World, s: State, k: Sock, p: Plan, id: Id)
    requires k in s.conns && OnTrack(s, k, p) && s.conns[k].open
    requires Enabled(s, GiveId(s.conns[k].worker, id))
    ensures var t := Next(world, s, GiveId(s.conns[k].worker, id)); k in t.conns && OnTrack(t, k, p)
  {
    hide Advance, Touch, Act;
  }

  lemma FirstAnswerTracks(world: World, s: State, k: Sock, p: Plan)
    requires Inv(s) && FaithfulIds(world) && k in s.conns && s.conns[k].worker < |s.workers| && Setting(s, k, p)
    requires s.conns[k].asked != [] && s.workers[s.conns[k].worker].ReplySetup?
    requires p.asked != [] && |p.replies| == |p.asked| && Due(world, p, 0) && s.conns[k].asked[0] == p.asked[0]
    requires var t := Next(world, s, Go(s.conns[k].worker)); k in t.conns && GivenItsId(world, p, t.conns[k])
    ensures var t := Next(world, s, Go(s.conns[k].worker)); OnTrack(t, k, p)
  {
    hide Next, Act, Advance;
    var pc := s.workers[s.conns[k].worker];
    SetupAnswers(world, s, k, p);
    SetupReplyNames(world, pc.id, Find(pc.req.headers, "Transport").value);
    assert world.idOf(world.idText(pc.id)) == Some(pc.id) && world.idOf(world.idText(p.id)) == Some(p.id);
  }

  lemma SetupReplyNames(world: World, id: Id, transport: string)
    ensures Find(SetupReply(world, id, transport).headers, "Session") == Some(world.idText(id))
  {
  }

  lemma GoTracks(world: World, s: State, k: Sock, p: Plan)
    requires k in s.conns && s.conns[k].worker < |s.workers| && Moves(s.workers[s.conns[k].worker])
    requires var t := Next(world, s, Go(s.conns[k].worker)); k in t.conns && GivenItsId(world, p, t.conns[k])
    requires Inv(s) && FaithfulIds(world) && OnTrack(s, k, p) && s.conns[k].open
    requires IsPlan(world, p) && GateHolds(s, p.gate) && s.conns[k].asked <= p.asked
    ensures var t := Next(world, s, Go(s.conns[k].worker)); OnTrack(t, k, p)
  {
    hide Act, Advance, FileOf;
    var c := s.conns[k];
    var pc := s.workers[c.worker];
    assert WorkerOk(s, c.worker);
    if Setting(s, k, p) {
      assert c.asked[0] == p.asked[0];
      if pc.ReplySetup? {
        assert Due(world, p, 0);
        FirstAnswerTracks(world, s, k, p);
      } else {
        SetupGoes(world, s, k, p);
      }
    } else if pc.Close? || pc.Pop? {
      ClosingGoes(world, s, k, p);
    } else {
      assert Due(world, p, |c.asked| - 1);
      DialogueGoes(world, s, k, p);
    }
  }

  lemma AcceptTracks(world: World, s: State, e: Event, k: Sock, p: Plan)
    requires Inv(s) && Enabled(s, e) && k !in s.conns && k in Next(world, s, e).conns
    ensures OnTrack(Next(world, s, e), k, p)
  {
    hide Advance, Touch;
    OnlyAcceptAdds(world, s, e);
    assert e.Accept? && e.sock == k;
  }

  lemma TrackStep(world: World, s: State, e: Event, k: Sock, p: Plan)
    requires Inv(s) && Enabled(s, e) && FaithfulIds(world) && IsPlan(world, p) && GateHolds(s, p.gate)
    requires k in s.conns ==> OnTrack(s, k, p)
    requires var t := Next(world, s, e); k in t.conns && Follows(p, t.conns[k]) && GivenItsId(world, p, t.conns[k])
    ensures OnTrack(Next(world, s, e), k, p)
  {
    hide Next, Act;
    var t := Next(world, s, e);
    LaterStep(world, s, e);
    if k !in s.conns {
      AcceptTracks(world, s, e, k, p);
    } else if !IsStepOf(e, s.conns[k].worker) {
      OthersLeaveAlone(world, s, e, k);
      SameForKeeps(s, t, k, p);
    } else if !s.conns[k].open {
      ClosedStays(world, s, e, k);
      ClosedTracks(s, t, k, p);
    } else {
      OwnStepTracks(world, s, e, k, p);
    }
  }

  lemma OnlyAcceptAdds(world: World, s: State, e: Event)
    requires Inv(s) && Enabled(s, e)
    ensures !e.Accept? ==> Next(world, s, e).conns.Keys == s.conns.Keys
    ensures e.Accept? ==> Next(world, s, e).conns.Keys == s.conns.Keys + {e.sock}
  {
    if e.Go? {
      GoAddsNone(world, s, e.w);
    } else if e.Reset? {
      TouchLeaves(s, s.workers[e.w]);
    } else {
      assert e.Read? ==> s.workers[e.w].sock in s.conns;
    }
  }

  lemma GoAddsNone(world: World, s: State, w: nat)
    requires Inv(s) && Enabled(s, Go(w))
    ensures Next(world, s, Go(w)).conns.Keys == s.conns.Keys
  {
    var pc := s.workers[w];
    if Act(world, s, pc).Send? {
      SendEffect(world, s, w);
    } else {
      TouchConns(s, pc);
    }
  }

  lemma TouchConns(s: State, pc: Pc)
    ensures Touch(s, pc).conns.Keys == s.conns.Keys
  {
  }

  /** Once the connection is closed the dialogue is over. */
  lemma ClosedTracks(s: State, t: State, k: Sock, p: Plan)
    requires Inv(s) && k in s.conns && OnTrack(s, k, p) && !s.conns[k].open
    requires k in t.conns && t.conns[k] == s.conns[k] && |t.workers| == |s.workers|
    ensures OnTrack(t, k, p)
  {
    assert WorkerOk(s, s.conns[k].worker);
  }

  lemma OwnStepTracks(world: World, s: State, e: Event, k: Sock, p: Plan)
    requires Inv(s) && Enabled(s, e) && FaithfulIds(world) && IsPlan(world, p) && GateHolds(s, p.gate)
    requires k in s.conns && OnTrack(s, k, p) && s.conns[k].open && IsStepOf(e, s.conns[k].worker)
    requires var t := Next(world, s, e); k in t.conns && Follows(p, t.conns[k]) && GivenItsId(world, p, t.conns[k])
    requires s.conns[k].asked <= Next(world, s, e).conns[k].asked
    ensures OnTrack(Next(world, s, e), k, p)
  {
    var w := s.conns[k].worker;
    assert WorkerOk(s, w);
    if e.Go? {
      PrefixTrans(s.conns[k].asked, Next(world, s, e).conns[k].asked, p.asked);
      GoTracks(world, s, k, p);
    } else {
      OtherStepTracks(world, s, e, k, p);
    }
  }

  lemma OtherStepTracks(world: World, s: State, e: Event, k: Sock, p: Plan)
    requires Inv(s) && Enabled(s, e) && !e.Go?
    requires k in s.conns && OnTrack(s, k, p) && s.conns[k].open && IsStepOf(e, s.conns[k].worker)
    requires var t := Next(world, s, e); k in t.conns && !t.conns[k].broken
    ensures OnTrack(Next(world, s, e), k, p)
  {
    hide Advance, Touch, Act;
    assert WorkerOk(s, s.conns[k].worker);
    match e
    case Read(_, r) => ReadTracks(world, s, k, p, r);
    case GiveId(_, id) => GiveIdTracks(world, s, k, p, id);
    case _ => BreaksOff(world, s, e, k);
  }

  lemma BreaksOff(world: World, s: State, e: Event, k: Sock)
    requires Inv(s) && Enabled(s, e) && k in s.conns && s.conns[k].open && IsStepOf(e, s.conns[k].worker)
    requires (e.BadHead? || e.Reset?) && HasSock(s.workers[e.w]) && s.workers[e.w].sock == k
    ensures var t := Next(world, s, e); k in t.conns && t.conns[k].broken
  {
    if e.Reset? { TouchLeaves(s, s.workers[e.w]); }
  }

  /** A gate that holds at both ends of a run holds in between. */
  lemma GateBetween(a: State, b: State, c: State, gate: Gate)
    requires Later(a, b) && Later(b, c) && GateHolds(a, gate) && GateHolds(c, gate)
    ensures GateHolds(b, gate)
  {
    if gate.Locked? { PrefixTrans(gate.keys, a.auths, b.auths); }
  }

  lemma {:induction false} TrackRun(world: World, s: State, es: seq<Event>, k: Sock, p: Plan)
    requires Inv(s) && FaithfulIds(world) && IsPlan(world, p) && GateHolds(s, p.gate)
    requires k in s.conns ==> OnTrack(s, k, p)
    requires var t := Run(world, s, es);
      && t.Some? && GateHolds(t.value, p.gate)
      && k in t.value.conns && Follows(p, t.value.conns[k]) && GivenItsId(world, p, t.value.conns[k])
    ensures OnTrack(Run(world, s, es).value, k, p)
    decreases |es|
  {
    hide OnTrack, IsPlan, FaithfulIds, Enabled, Inv;
    if es != [] {
      var s', t := Next(world, s, es[0]), Run(world, s, es).value;
      InvNext(world, s, es[0]);
      LaterStep(world, s, es[0]);
      LaterRun(world, s', es[1..]);
      GateBetween(s, s', t, p.gate);
      if k in s'.conns {
        PrefixTrans(s'.conns[k].asked, t.conns[k].asked, p.asked);
        TrackStep(world, s, es[0], k, p);
      }
      TrackRun(world, s', es[1..], k, p);
    }
  }

  // ----- the main result -----

  /** A well-behaved client: SETUP with an existing file and what the gate asks for, plays inside the file,
  perhaps TEARDOWN. */
  predicate Script(world: World, gate: Gate, id: Id, asked: seq<Request>) {
    && (asked != [] ==> GoodSetup(world, gate, asked[0]))
    && (forall i | 1 <= i < |asked| ::
          GoodPlay(world, id, FileFor(world, asked[0]), asked[i])
          || (GoodTeardown(world, id, asked[i]) && i == |asked| - 1))
  }

  /** The reply to request i as a function of the dialogue alone: no other client or worker appears in it. */
  function ReplyTo(world: World, id: Id, asked: seq<Request>, i: nat): Response
    requires i < |asked|
  {
    var first := asked[0];
    if i == 0 then
      var transport := Find(first.headers, "Transport");
      SetupReply(world, id, if transport.Some? then transport.value else "")
    else if asked[i].verb == "PLAY" then
      var reply := PlayReply(first.headers, FileFor(world, first), Find(asked[i].headers, "Range"));
      if reply.Some? then reply.value else Plain(0, "", [])
    else
      Plain(200, "OK", [])
  }

  function RepliesTo(world: World, id: Id, asked: seq<Request>): seq<Response> {
    seq(|asked|, i requires 0 <= i < |asked| => ReplyTo(world, id, asked, i))
  }

  lemma InRangeReads(file: string, range: Option<string>)
    requires InRange(file, range)
    ensures !Raises(file, range)
  {
  }

  lemma InRangeReplies(h: HeaderMap, file: string, range: Option<string>)
    requires InRange(file, range)
    ensures PlayReply(h, file, range).Some?
  {
  }

  lemma ScriptIsPlan(world: World, gate: Gate, id: Id, asked: seq<Request>)
    requires Script(world, gate, id, asked)
    ensures var file := if asked == [] then "" else FileFor(world, asked[0]);
      IsPlan(world, Plan(gate, id, file, asked, RepliesTo(world, id, asked)))
  {
    var file := if asked == [] then "" else FileFor(world, asked[0]);
    var p := Plan(gate, id, file, asked, RepliesTo(world, id, asked));
    forall i: nat | i < |asked| ensures Due(world, p, i) {
      assert p.replies[i] == ReplyTo(world, id, asked, i);
      if i > 0 && GoodPlay(world, id, file, asked[i]) {
        InRangeReplies(asked[0].headers, file, Find(asked[i].headers, "Range"));
      }
    }
  }

  /** The steps that the last request of a dialogue needs at most: a SETUP nine, any other five. */
  function Needed(asked: seq<Request>): nat { if |asked| == 1 then 9 else 5 }

  /** The replies on k are the ones due, in order; at most the last is outstanding, with
  a worker that is on it; the session is in the table until the TEARDOWN. */
  predicate AnsweredInOrder(t: State, k: Sock, id: Id, due: seq<Response>)
    requires k in t.conns
  {
    var c := t.conns[k];
    && c.answers <= due && |c.asked| <= |c.answers| + 1
    && c.worker < |t.workers|
    && (|c.answers| < |c.asked| ==>
          var pc := t.workers[c.worker];
          && Owes(pc) && pc.sock == k && pc.req == c.asked[|c.asked|-1] && StepsLeft(pc) <= Needed(c.asked))
    && (c.answers != [] && !EndsInTeardown(c.asked) ==> id in t.sessions && t.sessions[id].sock == k)
  }

  /** Under every interleaving with other workers and clients, a well-behaved dialogue on one unbroken
  connection has been answered in order with exactly the replies due to it; at most the last request
  is still being handled, by a worker that has not stopped, and the session is in the table until
  the TEARDOWN has been answered. */
  lemma DialogueIsAnswered(world: World, s: State, es: seq<Event>, k: Sock, gate: Gate, id: Id)
    requires Inv(s) && FaithfulIds(world) && k !in s.conns && GateHolds(s, gate)
    requires var t := Run(world, s, es);
      && t.Some? && GateHolds(t.value, gate) && k in t.value.conns && !t.value.conns[k].broken
      && Script(world, gate, id, t.value.conns[k].asked)
      && (t.value.conns[k].answers != [] ==>
            Find(t.value.conns[k].answers[0].headers, "Session") == Some(world.idText(id)))
    ensures var t := Run(world, s, es).value;
      AnsweredInOrder(t, k, id, RepliesTo(world, id, t.conns[k].asked))
  {
    var t := Run(world, s, es).value;
    var c := t.conns[k];
    var file := if c.asked == [] then "" else FileFor(world, c.asked[0]);
    var p := Plan(gate, id, file, c.asked, RepliesTo(world, id, c.asked));
    ScriptIsPlan(world, gate, id, c.asked);
    PlanIsAnswered(world, s, es, k, p);
  }

  lemma PlanIsAnswered(world: World, s: State, es: seq<Event>, k: Sock, p: Plan)
    requires Inv(s) && FaithfulIds(world) && k !in s.conns && IsPlan(world, p) && GateHolds(s, p.gate)
    requires var t := Run(world, s, es);
      && t.Some? && GateHolds(t.value, p.gate)
      && k in t.value.conns && Follows(p, t.value.conns[k]) && GivenItsId(world, p, t.value.conns[k])
    ensures AnsweredInOrder(Run(world, s, es).value, k, p.id, p.replies)
  {
    TrackRun(world, s, es, k, p);
    LaterRun(world, s, es);
    TrackMeans(world, Run(world, s, es).value, k, p);
  }

  lemma LaterVerb(world: World, p: Plan, i: nat)
    requires IsPlan(world, p) && 0 < i < |p.asked|
    ensures p.asked[i].verb == "PLAY" || p.asked[i].verb == "TEARDOWN"
  {
    hide FileOf, PlayReply, InRange;
    assert Due(world, p, i);
  }

  lemma TrackMeans(world: World, t: State, k: Sock, p: Plan)
    requires Inv(t) && k in t.conns && OnTrack(t, k, p) && IsPlan(world, p) && t.conns[k].asked <= p.asked
    ensures AnsweredInOrder(t, k, p.id, p.replies)
  {
    hide FileOf, PlayReply, InRange;
    var n := |t.conns[k].asked|;
    if n > 1 { LaterVerb(world, p, n - 1); }
    assert ConnOk(t, k) && WorkerOk(t, t.conns[k].worker);
  }

  /** The statuses are 200 for the SETUP, 206 for every PLAY, 200 for the TEARDOWN. */
  lemma StatusesOfReplies(world: World, gate: Gate, id: Id, asked: seq<Request>, i: nat)
    requires Script(world, gate, id, asked) && i < |asked|
    ensures ReplyTo(world, id, asked, i).status == if i > 0 && asked[i].verb == "PLAY" then 206 else 200
    ensures i > 0 && asked[i].verb == "PLAY" ==> Framed(ReplyTo(world, id, asked, i))
  {
    if i > 0 && asked[i].verb == "PLAY" {
      var file, range := FileFor(world, asked[0]), Find(asked[i].headers, "Range");
      InRangeReplies(asked[0].headers, file, range);
      PlayIsFramed(asked[0].headers, file, range);
    }
  }

  lemma PlayIsFramed(h: HeaderMap, file: string, range: Option<string>)
    requires InRange(file, range) && PlayReply(h, file, range).Some?
    ensures PlayReply(h, file, range).value.status == 206 && Framed(PlayReply(h, file, range).value)
  {
    if PlaysWhole(range) {
      WholeExact(h, file);
    } else {
      var (start, end) := ParseRange(range.value).value;
      RangeExact(start, end.value, file);
    }
  }

  // ----- how soon -----

  /** How many of its own steps a worker needs to answer, two fewer if a SETUP finds authentication off. */
  function StepsLeft(pc: Pc): nat {
    match pc
    case Dispatch(_, r) => if r.verb == "SETUP" then 9 else if r.verb == "PLAY" || r.verb == "TEARDOWN" then 5 else 1
    case HasTransport(_, _) => 8
    case ReadFlag(_, _) => 7
    case HasKey(_, _) => 6
    case CompareKey(_, _) => 5
    case NewId(_, _, _) => 4
    case Open(_, _, _, _) => 3
    case Insert(_, _, _, _, _) => 2
    case ReplySetup(_, _, _) => 1
    case HasSession(_, _) => 4
    case IsMember(_, _, _) => 3
    case IsOwner(_, _, _) => 2
    case Play(_, _, _) => 1
    case ReplyTeardown(_, _, _) => 1
    case _ => 0
  }

  function OwnSteps(es: seq<Event>, w: nat): nat {
    if es == [] then 0
    else (if IsOwnStep(es[0], w) then 1 else 0) + OwnSteps(es[1..], w)
  }

  /** A step of a worker that owes a reply answers, stops the worker, or brings the reply closer. */
  lemma OwnStepProgress(world: World, s: State, w: nat, e: Event)
    requires Inv(s) && Enabled(s, e) && IsOwnStep(e, w) && Owes(s.workers[w])
    ensures var pc, t := s.workers[w], Next(world, s, e);
      && w < |t.workers| && pc.sock in s.conns && pc.sock in t.conns
      && (t.workers[w].Dead?
          || |t.conns[pc.sock].answers| > |s.conns[pc.sock].answers|
          || (Owes(t.workers[w]) && t.workers[w].sock == pc.sock && StepsLeft(t.workers[w]) < StepsLeft(pc)
              && t.conns[pc.sock].worker == w))
  {
    hide Act, Advance, Touch;
    assert WorkerOk(s, w);
    LaterStep(world, s, e);
    if e.Go? {
      StopsOnMove(world, s, w);
      if Act(world, s, s.workers[w]).Send? {
        SendEffect(world, s, w);
      } else {
        MoveProgress(world, s, s.workers[w]);
      }
    }
  }

  lemma MoveProgress(world: World, s: State, pc: Pc)
    requires Owes(pc) && Moves(pc) && Act(world, s, pc).Move?
    ensures var next := Act(world, s, pc).next;
      next.Dead? || (Owes(next) && next.sock == pc.sock && StepsLeft(next) < StepsLeft(pc))
  {
    hide FileOf, PlayReply, Accepted;
  }

  /** Whether the worker has stopped, the connection was reset, or more was answered. */
  predicate Moved(s: State, t: State, w: nat, k: Sock)
    requires w < |t.workers| && k in s.conns && k in t.conns
  {
    t.workers[w].Dead? || t.conns[k].broken || |t.conns[k].answers| > |s.conns[k].answers|
  }

  predicate IsOwnStep(e: Event, w: nat) { e == Go(w) || (e.GiveId? && e.w == w) }

  /** Whatever runs in between, nine of its own steps bring a request its reply, unless its worker stops
  on an error or the connection is reset. */
  lemma {:induction false} AnsweredWithinNineOwnSteps(world: World, s: State, es: seq<Event>, w: nat)
    requires Inv(s) && w < |s.workers| && Owes(s.workers[w]) && s.workers[w].sock in s.conns
    requires Run(world, s, es).Some?
    ensures StepsLeft(s.workers[w]) <= 9
    ensures var k, t := s.workers[w].sock, Run(world, s, es).value;
      w < |t.workers| && k in t.conns && (OwnSteps(es, w) >= StepsLeft(s.workers[w]) ==> Moved(s, t, w, k))
    decreases |es|
  {
    hide Next;
    var k := s.workers[w].sock;
    assert WorkerOk(s, w);
    LaterRun(world, s, es);
    assert ConnLater(s.conns[k], Run(world, s, es).value.conns[k]);
    if es != [] {
      var s' := Next(world, s, es[0]);
      InvNext(world, s, es[0]);
      LaterRun(world, s', es[1..]);
      WorkingStep(world, s, es[0], w);
      if s'.workers[w].Dead? {
        DeadStays(world, s', es[1..], w);
      } else if !Moved(s, s', w, k) {
        AnsweredWithinNineOwnSteps(world, s', es[1..], w);
      } else {
        assert ConnLater(s'.conns[k], Run(world, s, es).value.conns[k]);
      }
    }
  }

  /** One step while a reply is owed: of the worker itself, or of others. */
  lemma WorkingStep(world: World, s: State, e: Event, w: nat)
    requires Inv(s) && Enabled(s, e) && w < |s.workers| && Owes(s.workers[w]) && s.workers[w].sock in s.conns
    ensures var k, t := s.workers[w].sock, Next(world, s, e);
      && w < |t.workers| && k in t.conns && |t.conns[k].answers| >= |s.conns[k].answers|
      && (Moved(s, t, w, k)
          || (Owes(t.workers[w]) && t.workers[w].sock == k
              && StepsLeft(t.workers[w]) + OwnSteps([e], w) <= StepsLeft(s.workers[w])))
  {
    var k := s.workers[w].sock;
    assert WorkerOk(s, w);
    LaterStep(world, s, e);
    assert ConnLater(s.conns[k], Next(world, s, e).conns[k]);
    assert OwnSteps([e], w) == if IsOwnStep(e, w) then 1 else 0;
    if IsOwnStep(e, w) {
      OwnStepProgress(world, s, w, e);
    } else if !IsStepOf(e, w) {
      OthersLeaveAlone(world, s, e, k);
    } else {
      BreaksOff(world, s, e, k);
    }
  }

  lemma {:induction false} DeadStays(world: World, s: State, es: seq<Event>, w: nat)
    requires w < |s.workers| && s.workers[w].Dead? && Run(world, s, es).Some? && Inv(s)
    ensures var t := Run(world, s, es).value; w < |t.workers| && t.workers[w].Dead?
    decreases |es|
  {
    if es != [] {
      InvNext(world, s, es[0]);
      LaterStep(world, s, es[0]);
      DeadStep(world, s, es[0], w);
      DeadStays(world, Next(world, s, es[0]), es[1..], w);
    }
  }

  lemma DeadStep(world: World, s: State, e: Event, w: nat)
    requires Inv(s) && Enabled(s, e) && w < |s.workers| && s.workers[w].Dead?
    ensures var t := Next(world, s, e); w < |t.workers| && t.workers[w].Dead?
  {
    if e.Go? {
      Provenance.SameAuths(world, s, e.w);
    } else if e.Reset? {
      Provenance.TouchSameAuths(s, s.workers[e.w]);
    }
  }

  // ----- the dialogue in full -----

  /** The worker has a step to take. */
  ghost predicate CanStep(s: State, w: nat) {
    w < |s.workers| && (Moves(s.workers[w]) || (s.workers[w].NewId? && exists id: Id :: Enabled(s, GiveId(w, id))))
  }

  lemma OwesCanStep(s: State, w: nat)
    requires w < |s.workers| && Owes(s.workers[w])
    ensures CanStep(s, w)
  {
    var id := Provenance.FreshId(s.issued.Keys);
    assert s.workers[w].NewId? ==> Enabled(s, GiveId(w, id));
  }

  /** No worker ever blocks another: in every state that satisfies the invariant a worker that has not stopped can take
  any new connection, any request, any bad head or a reset, any new id, or its next step, as its place has it; and there
  is always one it can take. */
  lemma NobodyIsBlocked(s: State, w: nat)
    requires Inv(s) && w < |s.workers| && !s.workers[w].Dead?
    ensures var pc := s.workers[w];
      && (pc.Idle? ==> forall k | k !in s.conns :: Enabled(s, Accept(w, k)))
      && (pc.Waiting? ==> forall r: Request | IsDict(r.headers) :: Enabled(s, Read(w, r)))
      && (pc.Waiting? ==> Enabled(s, BadHead(w)) && Enabled(s, Reset(w)))
      && (pc.NewId? ==> forall id | id !in s.issued :: Enabled(s, GiveId(w, id)))
      && (!pc.Idle? && !pc.Waiting? && !pc.NewId? ==> Enabled(s, Go(w)))
      && exists e :: IsStepOf(e, w) && Enabled(s, e)
  {
    assert WorkerOk(s, w);
    var k := Provenance.FreshId(s.conns.Keys);
    var id := Provenance.FreshId(s.issued.Keys);
    var pc := s.workers[w];
    var e := if pc.Idle? then Accept(w, k) else if pc.Waiting? then BadHead(w) else if pc.NewId? then GiveId(w, id)
             else Go(w);
    assert IsStepOf(e, w) && Enabled(s, e);
  }

  /** Once a well-behaved dialogue has been read, whatever ran in between, every request of it has its reply,
  unless its worker has taken fewer steps since than the last request needs, and then it has another to take. */
  lemma DialogueIsFinished(world: World, s: State, a: seq<Event>, b: seq<Event>, k: Sock, gate: Gate, id: Id)
    requires Inv(s) && FaithfulIds(world) && k !in s.conns && GateHolds(s, gate)
    requires var t := Run(world, s, a + b);
      && t.Some? && GateHolds(t.value, gate) && k in t.value.conns && !t.value.conns[k].broken
      && Script(world, gate, id, t.value.conns[k].asked)
      && (t.value.conns[k].answers != [] ==>
            Find(t.value.conns[k].answers[0].headers, "Session") == Some(world.idText(id)))
    requires var m, t := Run(world, s, a), Run(world, s, a + b).value;
      m.Some? && k in m.value.conns && m.value.conns[k].asked == t.conns[k].asked
    ensures var t := Run(world, s, a + b).value; var c := t.conns[k];
      || c.answers == RepliesTo(world, id, c.asked)
      || (OwnSteps(b, c.worker) < Needed(c.asked) && CanStep(t, c.worker))
  {
    hide Script, RepliesTo, GateHolds, EndsInTeardown, Find, Needed, CanStep;
    var m, t := Run(world, s, a).value, Run(world, s, a + b).value;
    RunSplit(world, s, a, b);
    LaterRun(world, s, a);
    LaterRun(world, m, b);
    GateBetween(s, m, t, gate);
    assert ConnLater(m.conns[k], t.conns[k]);
    hide Later, StepsLeft, OwnSteps, FaithfulIds, Run;
    DialogueIsAnswered(world, s, a, k, gate, id);
    DialogueIsAnswered(world, s, a + b, k, gate, id);
    RepliesLength(world, id, t.conns[k].asked);
    if |t.conns[k].answers| < |t.conns[k].asked| {
      OwesCanStep(t, t.conns[k].worker);
      AnsweredWithinNineOwnSteps(world, m, b, m.conns[k].worker);
    }
  }

  lemma RepliesLength(world: World, id: Id, asked: seq<Request>)
    ensures |RepliesTo(world, id, asked)| == |asked|
  {
  }
}
