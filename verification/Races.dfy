/** The two races of the server, each by a run from its start. */
module Races {
  import opened Wrappers
  import opened Headers
  import opened Messages
  import opened Ranges
  import opened Sessions
  import opened Server
  import opened Guarantees
  import Provenance

  /** A run and where it leads. */
  datatype Walk = Walk(events: seq<Event>, end: State)

  ghost predicate Leads(world: World, s: State, r: Walk) { Run(world, s, r.events) == Some(r.end) }

  lemma Extend(world: World, s: State, r: Walk, e: Event) returns (r': Walk)
    requires Leads(world, s, r) && Enabled(r.end, e)
    ensures Leads(world, s, r') && r' == Walk(r.events + [e], Next(world, r.end, e))
  {
    RunAppend(world, s, r.events, e);
    r' := Walk(r.events + [e], Next(world, r.end, e));
  }

  lemma Stays(world: World, s: State) returns (r: Walk)
    ensures Leads(world, s, r) && r == Walk([], s)
  {
    r := Walk([], s);
  }

  lemma Join(world: World, s: State, a: Walk, b: Walk) returns (r: Walk)
    requires Leads(world, s, a) && Leads(world, a.end, b)
    ensures Leads(world, s, r) && r == Walk(a.events + b.events, b.end)
  {
    RunSplit(world, s, a.events, b.events);
    r := Walk(a.events + b.events, b.end);
  }

  predicate OnlyMoves(pc: Pc) { Moves(pc) && !pc.Insert? && !pc.Play? && !pc.Close? && !pc.Pop? }

  /** A worker's step that touches nothing else. */
  lemma Goes(world: World, s: State, r: Walk, base: State, w: nat, pc: Pc, next: Pc) returns (r': Walk)
    requires w < |base.workers| && Leads(world, s, r) && r.end == At(base, w, pc)
    requires OnlyMoves(pc) && Act(world, r.end, pc) == Move(next)
    ensures Leads(world, s, r') && r'.end == At(base, w, next)
  {
    hide Act;
    r' := Extend(world, s, r, Go(w));
    assert r'.end == At(r.end, w, next);
  }

  lemma Accepts(world: World, s: State, w: nat, k: Sock, q: Request) returns (r: Walk)
    requires w < |s.workers| && s.workers[w].Idle? && k !in s.conns && IsDict(q.headers)
    ensures Leads(world, s, r)
    ensures r.end == At(s, w, Dispatch(k, q)).(conns := s.conns[k := Conn(true, w, [q], [], false)])
  {
    hide Advance;
    r := Extend(world, s, Walk([], s), Accept(w, k));
    r := Extend(world, s, r, Read(w, q));
    assert [] + [q] == [q];
    assert r.end.workers == s.workers[w := Dispatch(k, q)];
    assert r.end.conns == s.conns[k := Conn(true, w, [q], [], false)];
  }

  // ----- a SETUP that is past the flag when authentication is turned on -----

  predicate IsSetup(world: World, q: Request) {
    && q.verb == "SETUP" && IsDict(q.headers) && Has(q.headers, "Transport")
    && var name := FileOf(q.url); name.Some? && name.value in world.files
  }

  /** A SETUP on a new connection reads that authentication is off. */
  lemma Begins(world: World, s: State, w: nat, k: Sock, q: Request) returns (r: Walk)
    requires w < |s.workers| && s.workers[w].Idle? && k !in s.conns && !s.useAuth && IsSetup(world, q)
    ensures Leads(world, s, r)
    ensures r.end == At(s, w, NewId(k, q, false)).(conns := s.conns[k := Conn(true, w, [q], [], false)])
  {
    hide Act, FileOf, Find, Leads;
    r := Accepts(world, s, w, k, q);
    var base := s.(conns := s.conns[k := Conn(true, w, [q], [], false)]);
    SetupMovesOn(world, r.end, k, q);
    r := Goes(world, s, r, base, w, Dispatch(k, q), HasTransport(k, q));
    SetupMovesOn(world, r.end, k, q);
    r := Goes(world, s, r, base, w, HasTransport(k, q), ReadFlag(k, q));
    SetupMovesOn(world, r.end, k, q);
    r := Goes(world, s, r, base, w, ReadFlag(k, q), NewId(k, q, false));
  }

  lemma SetupMovesOn(world: World, s: State, k: Sock, q: Request)
    requires q.verb == "SETUP" && Has(q.headers, "Transport") && !s.useAuth
    ensures Act(world, s, Dispatch(k, q)) == Move(HasTransport(k, q))
    ensures Act(world, s, HasTransport(k, q)) == Move(ReadFlag(k, q))
    ensures Act(world, s, ReadFlag(k, q)) == Move(NewId(k, q, false))
  {
    hide FileOf;
    hide PlayReply;
    hide Accepted;
  }

  /** From the start of a server with one worker: authentication is turned on over an empty table, and yet
  a session whose key was never asked for gets in. */
  lemma LateFromStart(world: World, q: Request) returns (before: seq<Event>, after: seq<Event>, id: Id)
    requires IsSetup(world, q)
    ensures var t := Run(world, Initial(1), before);
      && t.Some? && t.value.sessions == map[] && |t.value.workers| == 1 && Provenance.Late(world, t.value.workers[0])
    ensures var u := Run(world, Initial(1), before + [EnableAuth] + after);
      u.Some? && u.value.useAuth && id in u.value.sessions && !u.value.sessions[id].checked
  {
    hide FileOf;
    var r := Begins(world, Initial(1), 0, 0, q);
    before := r.events;
    r := Extend(world, Initial(1), r, EnableAuth);
    after, id := Provenance.LateSetupGetsIn(world, r.end, 0);
    RunSplit(world, Initial(1), r.events, after);
    FlagStays(world, r.end, after);
  }

  lemma {:induction false} FlagStays(world: World, s: State, es: seq<Event>)
    requires s.useAuth && Run(world, s, es).Some?
    ensures Run(world, s, es).value.useAuth
    decreases |es|
  {
    if es != [] {
      FlagStep(world, s, es[0]);
      FlagStays(world, Next(world, s, es[0]), es[1..]);
    }
  }

  lemma FlagStep(world: World, s: State, e: Event)
    requires s.useAuth && Enabled(s, e)
    ensures Next(world, s, e).useAuth
  {
    hide Advance;
    if e.Go? {
      Provenance.SameAuths(world, s, e.w);
    } else if e.Reset? {
      Provenance.TouchSameAuths(s, s.workers[e.w]);
    }
  }

  // ----- a session that is removed between check and lookup -----

  /** The SETUP goes on to the table. */
  lemma Finishes(world: World, s: State, w: nat, k: Sock, q: Request, id: Id) returns (r: Walk)
    requires w < |s.workers| && s.workers[w] == NewId(k, q, false) && id !in s.issued && IsSetup(world, q)
    requires k in s.conns && s.conns[k].open
    ensures Leads(world, s, r) && r.end.workers == s.workers[w := Waiting(k)]
    ensures id in r.end.sessions && r.end.sessions[id].sock == k
    ensures r.end.conns.Keys == s.conns.Keys && r.end.conns[k].open
  {
    hide FileOf, Advance, Leads, Find;
    var file := world.files[FileOf(q.url).value];
    r := Stays(world, s);
    r := Extend(world, s, r, GiveId(w, id));
    var base := s.(issued := s.issued[id := w]);
    assert r.end == At(base, w, Open(k, q, false, id));
    r := Goes(world, s, r, base, w, Open(k, q, false, id), Insert(k, q, false, id, file));
    r := Inserts(world, s, r, w);
    r := Announces(world, s, r, w);
    assert r.end.workers == s.workers[w := Waiting(k)];
  }

  lemma Inserts(world: World, s: State, r: Walk, w: nat) returns (r': Walk)
    requires Leads(world, s, r) && w < |r.end.workers| && r.end.workers[w].Insert?
    ensures Leads(world, s, r')
    ensures var pc := r.end.workers[w];
      && r'.end.workers == r.end.workers[w := ReplySetup(pc.sock, pc.req, pc.id)] && r'.end.conns == r.end.conns
      && pc.id in r'.end.sessions && r'.end.sessions[pc.id].sock == pc.sock
  {
    hide FileOf, PlayReply, Accepted, HeadersAfter;
    r' := Extend(world, s, r, Go(w));
  }

  lemma Announces(world: World, s: State, r: Walk, w: nat) returns (r': Walk)
    requires Leads(world, s, r) && w < |r.end.workers| && r.end.workers[w].ReplySetup?
    requires var pc := r.end.workers[w];
      Has(pc.req.headers, "Transport") && pc.sock in r.end.conns && r.end.conns[pc.sock].open
    ensures Leads(world, s, r')
    ensures var k := r.end.workers[w].sock;
      && r'.end.workers == r.end.workers[w := Waiting(k)] && r'.end.sessions == r.end.sessions
      && r'.end.conns.Keys == r.end.conns.Keys && r'.end.conns[k].open
  {
    hide FileOf, PlayReply, Accepted, HeadersAfter;
    r' := Extend(world, s, r, Go(w));
  }

  predicate Names(world: World, q: Request, verb: string, id: Id) {
    && q.verb == verb && IsDict(q.headers) && Find(q.headers, "Session") == Some(world.idText(id))
    && world.idOf(world.idText(id)) == Some(id)
  }

  /** A worker finds the session of its request in the table. */
  lemma Finds(world: World, s: State, r: Walk, base: State, w: nat, k: Sock, q: Request, id: Id) returns (r': Walk)
    requires w < |base.workers| && Leads(world, s, r) && r.end == At(base, w, Dispatch(k, q)) && id in base.sessions
    requires Names(world, q, "PLAY", id) || Names(world, q, "TEARDOWN", id)
    ensures Leads(world, s, r') && r'.end == At(base, w, IsOwner(k, q, id))
  {
    hide Act, Find, Leads;
    DispatchMoves(world, r.end, k, q);
    r' := Goes(world, s, r, base, w, Dispatch(k, q), HasSession(k, q));
    LookupMoves(world, r'.end, k, q, id);
    r' := Goes(world, s, r', base, w, HasSession(k, q), IsMember(k, q, id));
    LookupMoves(world, r'.end, k, q, id);
    r' := Goes(world, s, r', base, w, IsMember(k, q, id), IsOwner(k, q, id));
  }

  lemma DispatchMoves(world: World, s: State, k: Sock, q: Request)
    requires q.verb == "PLAY" || q.verb == "TEARDOWN"
    ensures Act(world, s, Dispatch(k, q)) == Move(HasSession(k, q))
  {
    hide FileOf;
    hide PlayReply;
    hide Accepted;
  }

  lemma LookupMoves(world: World, s: State, k: Sock, q: Request, id: Id)
    requires Names(world, q, q.verb, id) && id in s.sessions
    ensures Act(world, s, HasSession(k, q)) == Move(IsMember(k, q, id))
    ensures Act(world, s, IsMember(k, q, id)) == Move(IsOwner(k, q, id))
  {
  }

  lemma Checks(world: World, s: State, v: nat, k: Sock, q: Request, id: Id) returns (r: Walk)
    requires v < |s.workers| && s.workers[v].Idle? && k !in s.conns && Names(world, q, "PLAY", id) && id in s.sessions
    ensures Leads(world, s, r)
    ensures r.end == At(s, v, IsOwner(k, q, id)).(conns := s.conns[k := Conn(true, v, [q], [], false)])
  {
    hide Act;
    r := Accepts(world, s, v, k, q);
    r := Finds(world, s, r, s.(conns := s.conns[k := Conn(true, v, [q], [], false)]), v, k, q, id);
  }

  /** The session's own worker comes to its last step. */
  lemma Closes(world: World, s: State, w: nat, k: Sock, d: Request, id: Id) returns (r: Walk)
    requires w < |s.workers| && s.workers[w] == Waiting(k) && k in s.conns && s.conns[k].open
    requires Names(world, d, "TEARDOWN", id) && id in s.sessions && s.sessions[id].sock == k
    ensures Leads(world, s, r) && r.end.workers == s.workers[w := Pop(k, d, id)]
  {
    hide Act;
    hide Advance;
    r := Extend(world, s, Walk([], s), Read(w, d));
    var base := s.(conns := s.conns[k := s.conns[k].(asked := s.conns[k].asked + [d])]);
    r := Finds(world, s, r, base, w, k, d, id);
    OwnerMoves(world, r.end, k, d, id);
    r := Goes(world, s, r, base, w, IsOwner(k, d, id), ReplyTeardown(k, d, id));
    r := TakesLeave(world, s, r, w);
    assert r.end.workers == s.workers[w := Pop(k, d, id)];
  }

  lemma OwnerMoves(world: World, s: State, k: Sock, d: Request, id: Id)
    requires d.verb == "TEARDOWN" && id in s.sessions && s.sessions[id].sock == k
    ensures Act(world, s, IsOwner(k, d, id)) == Move(ReplyTeardown(k, d, id))
  {
    hide FileOf;
    hide PlayReply;
    hide Accepted;
  }

  lemma TakesLeave(world: World, s: State, r: Walk, w: nat) returns (r': Walk)
    requires Leads(world, s, r) && w < |r.end.workers| && r.end.workers[w].ReplyTeardown?
    requires var pc := r.end.workers[w];
      pc.id in r.end.sessions && pc.sock in r.end.conns && r.end.conns[pc.sock].open
    ensures Leads(world, s, r')
    ensures var pc := r.end.workers[w]; r'.end.workers == r.end.workers[w := Pop(pc.sock, pc.req, pc.id)]
  {
    r' := Replies(world, s, r, w);
    r' := Shuts(world, s, r', w);
  }

  lemma Replies(world: World, s: State, r: Walk, w: nat) returns (r': Walk)
    requires Leads(world, s, r) && w < |r.end.workers| && r.end.workers[w].ReplyTeardown?
    requires r.end.workers[w].sock in r.end.conns && r.end.conns[r.end.workers[w].sock].open
    ensures Leads(world, s, r') && r'.end.sessions == r.end.sessions
    ensures var pc := r.end.workers[w]; r'.end.workers == r.end.workers[w := Close(pc.sock, pc.req, pc.id)]
  {
    hide FileOf, PlayReply, Accepted, HeadersAfter;
    r' := Extend(world, s, r, Go(w));
  }

  lemma Shuts(world: World, s: State, r: Walk, w: nat) returns (r': Walk)
    requires Leads(world, s, r) && w < |r.end.workers| && r.end.workers[w].Close?
    requires r.end.workers[w].id in r.end.sessions
    ensures Leads(world, s, r')
    ensures var pc := r.end.workers[w]; r'.end.workers == r.end.workers[w := Pop(pc.sock, pc.req, pc.id)]
  {
    hide FileOf, PlayReply, Accepted, HeadersAfter;
    r' := Extend(world, s, r, Go(w));
  }

  /** From the start of a server with two workers: one finds a session in the table, the other removes it, and
  the first stops at its lookup; had it gone first, it would not have. */
  lemma MissFromStart(world: World, q: Request, play: Request, teardown: Request) returns (es: seq<Event>)
    requires IsSetup(world, q) && Names(world, play, "PLAY", 0) && Names(world, teardown, "TEARDOWN", 0)
    ensures var t := Run(world, Initial(2), es + [Go(1)]);
      t.Some? && |t.value.workers| == 2 && !t.value.workers[1].Dead?
    ensures var t := Run(world, Initial(2), es + [Go(0), Go(1)]);
      t.Some? && |t.value.workers| == 2 && t.value.workers[1].Dead?
  {
    var s := Initial(2);
    var r := CheckedAndClosing(world, q, play, teardown);
    es := r.events;
    InitialInv(2);
    InvRun(world, s, es);
    MissOrNot(world, s, r, play, teardown);
  }

  /** Worker 1 is about to look the session up, worker 0 about to remove it. */
  predicate Racing(s: State, play: Request, teardown: Request) {
    s.workers == [Pop(0, teardown, 0), IsOwner(1, play, 0)]
  }

  lemma CheckedAndClosing(world: World, q: Request, play: Request, teardown: Request) returns (r: Walk)
    requires IsSetup(world, q) && Names(world, play, "PLAY", 0) && Names(world, teardown, "TEARDOWN", 0)
    ensures Leads(world, Initial(2), r) && Racing(r.end, play, teardown)
  {
    hide IsSetup, Names, Leads;
    var s := Initial(2);
    r := Begins(world, s, 0, 0, q);
    var b := Finishes(world, r.end, 0, 0, q, 0);
    r := Join(world, s, r, b);
    var c := Checks(world, r.end, 1, 1, play, 0);
    r := Join(world, s, r, c);
    var d := Closes(world, r.end, 0, 0, teardown, 0);
    r := Join(world, s, r, d);
  }

  lemma MissOrNot(world: World, s: State, r: Walk, play: Request, teardown: Request)
    requires Inv(r.end) && Leads(world, s, r) && Racing(r.end, play, teardown)
    ensures var t := Run(world, s, r.events + [Go(1)]);
      t.Some? && |t.value.workers| == 2 && !t.value.workers[1].Dead?
    ensures var t := Run(world, s, r.events + [Go(0), Go(1)]);
      t.Some? && |t.value.workers| == 2 && t.value.workers[1].Dead?
  {
    hide Next;
    hide Inv;
    LookupCanMiss(world, r.end, 1, 0);
    RunAppend(world, s, r.events, Go(1));
    var poppedFirst := Extend(world, s, r, Go(0));
    RunAppend(world, s, poppedFirst.events, Go(1));
    assert r.events + [Go(0)] + [Go(1)] == r.events + [Go(0), Go(1)];
  }

  // ----- sessions that are left behind -----

  /** From the start of a server with one worker: a session is set up, and the connection is then reset, or brings
  something that is no request.  Either way it is in the table in every later run. */
  lemma LeftFromStart(world: World, q: Request) returns (es: seq<Event>)
    requires IsSetup(world, q)
    ensures var r := Run(world, Initial(1), es + [Reset(0)]);
      r.Some? && Inv(r.value) && 0 in r.value.sessions && Abandoned(r.value, 0)
    ensures var b := Run(world, Initial(1), es + [BadHead(0)]);
      b.Some? && Inv(b.value) && 0 in b.value.sessions && Abandoned(b.value, 0)
  {
    var s := Initial(1);
    var a := Begins(world, s, 0, 0, q);
    var b := Finishes(world, a.end, 0, 0, q, 0);
    var r := Join(world, s, a, b);
    es := r.events;
    InitialInv(1);
    InvRun(world, s, es);
    LeavesBehind(world, r.end, Reset(0));
    LeavesBehind(world, r.end, BadHead(0));
    var reset := Extend(world, s, r, Reset(0));
    var bad := Extend(world, s, r, BadHead(0));
  }

  lemma LeavesBehind(world: World, s: State, e: Event)
    requires Inv(s) && |s.workers| == 1 && s.workers[0] == Waiting(0) && (e == Reset(0) || e == BadHead(0))
    requires 0 in s.sessions && s.sessions[0].sock == 0 && 0 in s.conns
    ensures Enabled(s, e)
    ensures var t := Next(world, s, e); Inv(t) && 0 in t.sessions && Abandoned(t, 0)
  {
    hide Advance;
    assert WorkerOk(s, 0) && IdOk(s, 0);
    InvNext(world, s, e);
  }
}
