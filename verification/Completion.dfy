/** Complete runs: left to itself, a dialogue that is on its way comes to its end, and from the start of the
server a client's whole errand can be served. */
module Completion {
  import opened Wrappers
  import opened Headers
  import opened Lines
  import opened Messages
  import opened Ranges
  import opened Sessions
  import opened Server
  import opened Guarantees
  import opened Dialogue
  import opened Wire
  import opened Service
  import Provenance

  // ----- such runs exist -----

  /** The id that the client uses is the one its SETUP has, or can still be given. */
  predicate IdFits(s: State, k: Sock, p: Plan) {
    k in s.conns && s.conns[k].worker < |s.workers| && s.conns[k].answers == [] ==>
      var pc := s.workers[s.conns[k].worker];
      if pc.Open? || pc.Insert? || pc.ReplySetup? then pc.id == p.id else p.id !in s.issued
  }

  /** A step of the dialogue's own worker that gives it no id but the client's. */
  ghost predicate GoodStep(s: State, e: Event, k: Sock, p: Plan, unread: string) {
    && Enabled(s, e) && OnConn(s, e, k) && Allowed(s, e, k, unread) && (e.Read? || Serves(e))
    && (e.GiveId? ==> e.id == p.id)
  }

  /** The dialogue, on its way, with the client's id, and its gate standing. */
  ghost predicate Going(world: World, s: State, k: Sock, p: Plan, rs: seq<Request>, unread: string) {
    && Inv(s) && Underway(s, k, p, rs, unread) && k in s.conns
    && GateHolds(s, p.gate) && IdFits(s, k, p) && GivenItsId(world, p, s.conns[k])
  }

  /** A step of a worker generates no id, and leaves authentication as it is. */
  lemma ServingKeeps(world: World, s: State, e: Event, k: Sock)
    requires Enabled(s, e) && OnConn(s, e, k) && (e.Read? || Serves(e))
    ensures var t := Next(world, s, e);
      t.auths == s.auths && t.useAuth == s.useAuth && (!e.GiveId? ==> t.issued == s.issued)
  {
    hide Act, Touch;
    if e.Go? {
      Provenance.SameAuths(world, s, e.w);
      TouchIssued(s, s.workers[e.w]);
    }
  }

  lemma TouchIssued(s: State, pc: Pc)
    ensures Touch(s, pc).issued == s.issued
  {
    hide HeadersAfter;
  }

  /** A step of a SETUP before its reply. */
  lemma SettingKeepsId(world: World, s: State, e: Event, k: Sock, p: Plan)
    requires Inv(s) && Enabled(s, e) && Serves(e) && OnConn(s, e, k) && k in s.conns && s.conns[k].worker == e.w
    requires Setting(s, k, p) && IsPlan(world, p) && s.conns[k].asked <= p.asked && GateHolds(s, p.gate)
    requires IdFits(s, k, p) && (e.GiveId? ==> e.id == p.id) && !s.workers[e.w].ReplySetup?
    ensures var next := After(world, s, e);
      if next.Open? || next.Insert? || next.ReplySetup? then next.id == p.id else e.Go? && p.id !in s.issued
    ensures var t := Next(world, s, e); k in t.conns && t.conns[k].answers == []
  {
    hide FileOf, Accepted, PlayReply, IsPlan, GateHolds, Advance;
    var pc := s.workers[e.w];
    if e.Go? {
      FirstRequest(world, s, k, p);
      SetupGoes(world, s, k, p);
      SetupMoves(world, s, pc, p.gate);
      if pc.Open? { OpenActs(world, s, pc); }
    }
  }

  lemma IdStep(world: World, s: State, e: Event, k: Sock, p: Plan, rs: seq<Request>, unread: string)
    requires Going(world, s, k, p, rs, unread) && Printed(world, p, rs) && GoodStep(s, e, k, p, unread)
    ensures var t := Next(world, s, e);
      k in t.conns && IdFits(t, k, p) && GivenItsId(world, p, t.conns[k])
  {
    hide Act, IsPlan, SendableRequests, Allowed, GateHolds;
    assert WorkerOk(s, e.w);
    var t := Next(world, s, e);
    ServingKeeps(world, s, e, k);
    LaterStep(world, s, e);
    assert ConnLater(s.conns[k], t.conns[k]);
    if e.Read? {
      ReadingStep(world, s, e, k);
      ReadKeepsId(world, s, e, k, p);
    } else {
      ServingStays(world, s, e, k);
      hide Next, Later;
      if s.conns[k].answers == [] {
        AnswerlessIsSetting(s, k, p);
        if s.workers[e.w].ReplySetup? {
          SetupAnswers(world, s, k, p);
          var pc := s.workers[e.w];
          SetupReplyNames(world, pc.id, Find(pc.req.headers, "Transport").value);
        } else {
          SettingKeepsId(world, s, e, k, p);
        }
      }
    }
  }

  lemma ReadKeepsId(world: World, s: State, e: Event, k: Sock, p: Plan)
    requires Inv(s) && Enabled(s, e) && e.Read? && OnConn(s, e, k) && IdFits(s, k, p)
    requires k in s.conns && s.conns[k].worker == e.w
    ensures var t := Next(world, s, e);
      k in t.conns && IdFits(t, k, p) && t.conns[k].answers == s.conns[k].answers
  {
    hide Advance, Touch;
  }

  lemma AnswerlessIsSetting(s: State, k: Sock, p: Plan)
    requires k in s.conns && OnTrack(s, k, p) && s.conns[k].answers == []
    ensures Setting(s, k, p)
  {
  }

  lemma GoingStep(world: World, s: State, e: Event, k: Sock, p: Plan, rs: seq<Request>, unread: string)
    requires Going(world, s, k, p, rs, unread) && Printed(world, p, rs) && GoodStep(s, e, k, p, unread)
    requires FaithfulIds(world)
    ensures Going(world, Next(world, s, e), k, p, rs, UnreadAfter(s, e, k, unread))
    ensures Budget(Next(world, s, e), k, p) < Budget(s, k, p)
  {
    hide Next, FaithfulIds, Printed, Budget, Underway, IdFits, GivenItsId, Used, Allowed;
    InvNext(world, s, e);
    ServingKeeps(world, s, e, k);
    IdStep(world, s, e, k, p, rs, unread);
    StepUnderway(world, s, e, k, p, rs, unread);
    OneOrMore(s, e, k);
  }

  lemma FedCons(world: World, s: State, e: Event, es: seq<Event>, k: Sock, unread: string)
    requires Enabled(s, e) && OnConn(s, e, k) && Allowed(s, e, k, unread) && !e.BadHead?
    requires Run(world, Next(world, s, e), es).Some?
    requires Fed(world, Next(world, s, e), es, k, UnreadAfter(s, e, k, unread))
    ensures Run(world, s, [e] + es) == Run(world, Next(world, s, e), es)
    ensures Fed(world, s, [e] + es, k, unread)
    ensures UnreadAtEnd(world, s, [e] + es, k, unread)
         == UnreadAtEnd(world, Next(world, s, e), es, k, UnreadAfter(s, e, k, unread))
  {
    hide ParseRequest, Next;
    assert ([e] + es)[1..] == es;
  }

  lemma NextGoodStep(world: World, s: State, k: Sock, p: Plan, rs: seq<Request>, unread: string) returns (e: Event)
    requires Going(world, s, k, p, rs, unread) && Printed(world, p, rs) && Attended(s, k)
    ensures GoodStep(s, e, k, p, unread)
  {
    hide Allowed, IsPlan, SendableRequests, GateHolds;
    var id := p.id;
    if p.id in s.issued { id := Provenance.FreshId(s.issued.Keys); }
    e := NextStep(world, s, k, p, rs, unread, id);
    assert WorkerOk(s, e.w);
    if e.GiveId? { NewIdIsSetting(s, k, p); }
  }

  lemma NewIdIsSetting(s: State, k: Sock, p: Plan)
    requires Inv(s) && k in s.conns && OnTrack(s, k, p) && Attended(s, k) && s.workers[s.conns[k].worker].NewId?
    ensures s.conns[k].answers == []
  {
    assert WorkerOk(s, s.conns[k].worker);
  }

  /** Left to itself, a dialogue that is on its way comes to its end. */
  lemma {:induction false} Finish(world: World, s: State, k: Sock, p: Plan, rs: seq<Request>, unread: string)
    returns (es: seq<Event>)
    requires Going(world, s, k, p, rs, unread) && Printed(world, p, rs) && FaithfulIds(world)
    ensures Run(world, s, es).Some? && Fed(world, s, es, k, unread)
    ensures var t := Run(world, s, es).value;
      && Going(world, t, k, p, rs, UnreadAtEnd(world, s, es, k, unread))
      && !Attended(t, k) && t.conns[k].answers == p.replies
    decreases Budget(s, k, p)
  {
    hide Next, FaithfulIds, Printed, Budget, Underway, IdFits, GivenItsId, GateHolds, Attended, Allowed;
    PlanStands(world, s, k, p, rs, unread);
    if Attended(s, k) {
      var e := NextGoodStep(world, s, k, p, rs, unread);
      GoingStep(world, s, e, k, p, rs, unread);
      var rest := Finish(world, Next(world, s, e), k, p, rs, UnreadAfter(s, e, k, unread));
      FedCons(world, s, e, rest, k, unread);
      es := [e] + rest;
    } else {
      es := [];
      UnattendedIsDone(world, s, k, p, rs, unread);
    }
  }

  lemma UnattendedIsDone(world: World, s: State, k: Sock, p: Plan, rs: seq<Request>, unread: string)
    requires Inv(s) && Printed(world, p, rs) && Underway(s, k, p, rs, unread) && k in s.conns && !Attended(s, k)
    ensures s.conns[k].answers == p.replies
  {
    hide IsPlan, OnTrack, Attended;
    if s.conns[k].answers != p.replies { Unfinished(world, s, k, p); }
  }

  // ----- from the start -----

  lemma {:induction false} KeysAdded(world: World, keys: seq<string>) returns (es: seq<Event>)
    ensures Run(world, Initial(1), es) == Some(Initial(1).(auths := keys))
    decreases |keys|
  {
    if keys == [] {
      es := [];
    } else {
      var n := |keys| - 1;
      es := KeysAdded(world, keys[..n]);
      RunAppend(world, Initial(1), es, AddAuth(keys[n]));
      assert keys[..n] + [keys[n]] == keys;
      es := es + [AddAuth(keys[n])];
    }
  }

  /** The server is set up as the gate says: its keys, and authentication on; or neither. */
  function SetUp(gate: Gate): State {
    if gate.Unlocked? then Initial(1) else Initial(1).(auths := gate.keys, useAuth := true)
  }

  lemma IsSetUp(world: World, gate: Gate) returns (es: seq<Event>)
    ensures Run(world, Initial(1), es) == Some(SetUp(gate)) && Inv(SetUp(gate)) && GateHolds(SetUp(gate), gate)
  {
    InitialInv(1);
    if gate.Unlocked? {
      es := [];
    } else {
      es := KeysAdded(world, gate.keys);
      RunAppend(world, Initial(1), es, EnableAuth);
      es := es + [EnableAuth];
    }
    InvRun(world, Initial(1), es);
  }

  /** The connection is accepted, and the dialogue can begin. */
  lemma Begins(world: World, s: State, k: Sock, p: Plan, rs: seq<Request>)
    requires Inv(s) && GateHolds(s, p.gate) && |s.workers| > 0 && s.workers[0].Idle? && k !in s.conns
    requires Printed(world, p, rs) && p.id !in s.issued
    ensures Enabled(s, Accept(0, k)) && Going(world, Next(world, s, Accept(0, k)), k, p, rs, PrintRequests(rs))
  {
    hide IsPlan, SendableRequests, Inv, Printed;
    InvNext(world, s, Accept(0, k));
    assert rs[0..] == rs;
  }

  /** Accepting is no step on the connection. */
  lemma FedAfterAccept(world: World, s: State, k: Sock, es: seq<Event>, unread: string)
    requires Inv(s) && k !in s.conns && Enabled(s, Accept(0, k))
    requires Run(world, Next(world, s, Accept(0, k)), es).Some?
    requires Fed(world, Next(world, s, Accept(0, k)), es, k, unread)
    ensures var all := [Accept(0, k)] + es;
      && Run(world, s, all) == Run(world, Next(world, s, Accept(0, k)), es)
      && Fed(world, s, all, k, unread)
      && UnreadAtEnd(world, s, all, k, unread) == UnreadAtEnd(world, Next(world, s, Accept(0, k)), es, k, unread)
  {
    hide ParseRequest, Next;
    OnConnIsKnown(s, Accept(0, k), k);
    assert ([Accept(0, k)] + es)[1..] == es;
  }

  /** A plan is served to its end on a connection of its own. */
  lemma PlanCompletes(world: World, s: State, k: Sock, p: Plan, rs: seq<Request>) returns (es: seq<Event>)
    requires Inv(s) && GateHolds(s, p.gate) && |s.workers| > 0 && s.workers[0].Idle? && k !in s.conns
    requires Printed(world, p, rs) && p.id !in s.issued && FaithfulIds(world)
    ensures Run(world, s, es).Some? && Fed(world, s, es, k, PrintRequests(rs))
    ensures var t := Run(world, s, es).value;
      && GateHolds(t, p.gate) && k in t.conns && t.conns[k].answers == p.replies && GivenItsId(world, p, t.conns[k])
      && !CanGoOn(t, k, UnreadAtEnd(world, s, es, k, PrintRequests(rs)))
      && (s.useAuth ==> StepsOn(world, s, es, k) == 6 * |rs| + 6)
  {
    hide Next, FaithfulIds, Printed, Underway, IdFits, GivenItsId, GateHolds, Attended, CanGoOn, Fed;
    Begins(world, s, k, p, rs);
    var rest := Finish(world, Next(world, s, Accept(0, k)), k, p, rs, PrintRequests(rs));
    es := [Accept(0, k)] + rest;
    FedAfterAccept(world, s, k, rest, PrintRequests(rs));
    PlanIsServed(world, s, es, k, p, rs);
    NoMoreSteps(Run(world, s, es).value, k, UnreadAtEnd(world, s, es, k, PrintRequests(rs)));
  }

  lemma NoMoreSteps(s: State, k: Sock, unread: string)
    requires Inv(s) && k in s.conns && !Attended(s, k)
    ensures !CanGoOn(s, k, unread)
  {
    forall e ensures !OnConn(s, e, k) {
      assert OnConn(s, e, k) ==> WorkerOk(s, e.w);
    }
  }

  /** Every errand that is possible is served: a run from the start of the server sets it up, another feeds a
  connection what the client prints until no step is left on it, and all replies have been sent.  With
  authentication on, that takes six steps for each request, and six more. */
  lemma ErrandCompletes(world: World, gate: Gate, x: Errand, id: Id) returns (before: seq<Event>, es: seq<Event>)
    requires FaithfulIds(world) && Possible(world, gate, x) && ValueOk(world.idText(id))
    ensures Run(world, Initial(1), before) == Some(SetUp(gate)) && Inv(SetUp(gate)) && GateHolds(SetUp(gate), gate)
    ensures var printed := PrintRequests(Requests(x, world.idText(id)));
      && Run(world, SetUp(gate), es).Some? && Fed(world, SetUp(gate), es, 0, printed)
      && !CanGoOn(Run(world, SetUp(gate), es).value, 0, UnreadAtEnd(world, SetUp(gate), es, 0, printed))
    ensures var t := Run(world, SetUp(gate), es).value;
      && GateHolds(t, gate) && 0 in t.conns && |t.conns[0].answers| == |x.ranges| + 2
      && Find(t.conns[0].answers[0].headers, "Session") == Some(world.idText(id))
    ensures gate.Locked? ==> StepsOn(world, SetUp(gate), es, 0) == 6 * (|x.ranges| + 2) + 6
  {
    hide FaithfulIds, Possible, Requests, Fed, CanGoOn, Inv, StepsOn, UnreadAtEnd, PrintRequests;
    before := IsSetUp(world, gate);
    PlanOfErrand(world, gate, x, id);
    var rs := Requests(x, world.idText(id));
    var p := PlanOf(world, gate, x, id);
    hide Printed, PlanOf;
    es := PlanCompletes(world, SetUp(gate), 0, p, rs);
  }
}
