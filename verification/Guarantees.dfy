/** What the session server keeps over every run, whatever the interleaving. */
module Guarantees {
  import opened Wrappers
  import opened Headers
  import opened Messages
  import opened Ranges
  import opened Sessions
  import opened Server

  lemma {:induction false} InvRun(world: World, s: State, es: seq<Event>)
    requires Inv(s)
    ensures Run(world, s, es).Some? ==> Inv(Run(world, s, es).value)
    decreases |es|
  {
    if es != [] && Enabled(s, es[0]) {
      InvNext(world, s, es[0]);
      InvRun(world, Next(world, s, es[0]), es[1..]);
    }
  }

  /** A run of two parts is the run of the second from where the first ends. */
  lemma {:induction false} RunSplit(world: World, s: State, a: seq<Event>, b: seq<Event>)
    requires Run(world, s, a).Some?
    ensures Run(world, s, a + b) == Run(world, Run(world, s, a).value, b)
    decreases |a|
  {
    if a == [] {
      assert a + b == b;
    } else {
      assert (a + b)[1..] == a[1..] + b;
      RunSplit(world, Next(world, s, a[0]), a[1..], b);
    }
  }

  lemma {:induction false} RunFront(world: World, s: State, a: seq<Event>, b: seq<Event>)
    requires Run(world, s, a + b).Some?
    ensures Run(world, s, a).Some?
    decreases |a|
  {
    hide Next, Enabled;
    if a != [] {
      assert (a + b)[1..] == a[1..] + b;
      RunFront(world, Next(world, s, a[0]), a[1..], b);
    }
  }

  lemma RunAppend(world: World, s: State, es: seq<Event>, e: Event)
    requires Run(world, s, es).Some? && Enabled(Run(world, s, es).value, e)
    ensures Run(world, s, es + [e]) == Some(Next(world, Run(world, s, es).value, e))
  {
    RunSplit(world, s, es, [e]);
    assert [e][1..] == [];
  }

  // ----- what only grows, and what stays -----

  /** t comes later than s: histories grow, and an entry keeps its owner and file until it is removed. */
  ghost predicate Later(s: State, t: State) {
    && |t.workers| == |s.workers|
    && s.popped <= t.popped && s.closed <= t.closed && s.closings <= t.closings && s.auths <= t.auths
    && (s.useAuth ==> t.useAuth)
    && (forall id | id in s.owners :: id in t.owners && t.owners[id] == s.owners[id])
    && (forall id | id in s.issued :: id in t.issued && t.issued[id] == s.issued[id])
    && (forall k | k in s.conns :: k in t.conns && ConnLater(s.conns[k], t.conns[k]))
    && (forall id | id in s.sessions && id !in t.popped ::
          id in t.sessions && SameEntry(s.sessions[id], t.sessions[id]))
  }

  predicate ConnLater(c: Conn, d: Conn) {
    && d.worker == c.worker && (d.open ==> c.open) && (c.broken ==> d.broken)
    && c.asked <= d.asked && c.answers <= d.answers
  }

  predicate SameEntry(a: Entry, b: Entry) {
    a.sock == b.sock && a.file == b.file && a.request == b.request && a.checked == b.checked
  }

  lemma LaterTrans(a: State, b: State, c: State)
    requires Later(a, b) && Later(b, c)
    ensures Later(a, c)
  {
    forall k | k in a.conns ensures k in c.conns && ConnLater(a.conns[k], c.conns[k]) {
      ConnLaterTrans(a.conns[k], b.conns[k], c.conns[k]);
    }
    PrefixTrans(a.closings, b.closings, c.closings);
    PrefixTrans(a.auths, b.auths, c.auths);
  }

  lemma PrefixTrans<T>(a: seq<T>, b: seq<T>, c: seq<T>)
    requires a <= b <= c
    ensures a <= c
  {
    assert a == b[..|a|] == c[..|b|][..|a|] == c[..|a|];
  }

  lemma ConnLaterTrans(a: Conn, b: Conn, c: Conn)
    requires ConnLater(a, b) && ConnLater(b, c)
    ensures ConnLater(a, c)
  {
    PrefixTrans(a.asked, b.asked, c.asked);
    PrefixTrans(a.answers, b.answers, c.answers);
  }

  lemma TouchIsLater(s: State, w: nat)
    requires Inv(s) && w < |s.workers|
    ensures Later(s, Touch(s, s.workers[w]))
  {
    assert WorkerOk(s, w);
    var pc := s.workers[w];
    if pc.Insert? {
      assert IdOk(s, pc.id);
      InsertIsLater(s, pc);
    } else if pc.Play? {
      PlayIsLater(s, pc);
    } else if pc.Close? {
      CloseIsLater(s, pc);
    } else if pc.Pop? {
      PopIsLater(s, pc);
    }
  }

  lemma InsertIsLater(s: State, pc: Pc)
    requires pc.Insert? && pc.id !in s.owners && pc.id !in s.sessions
    ensures Later(s, Touch(s, pc))
  {
  }

  lemma PlayIsLater(s: State, pc: Pc)
    requires pc.Play?
    ensures Later(s, Touch(s, pc))
  {
    hide FileOf, HeadersAfter;
  }

  lemma CloseIsLater(s: State, pc: Pc)
    requires pc.Close?
    ensures Later(s, Touch(s, pc))
  {
    hide HeadersAfter;
    if pc.id in s.sessions && s.sessions[pc.id].sock in s.conns {
      var k := s.sessions[pc.id].sock;
      var closed := s.(closed := s.closed + {pc.id}, closings := s.closings + [pc.id]);
      ConnIsLater(closed, k, s.conns[k].(open := false));
      assert Touch(s, pc) == closed.(conns := s.conns[k := s.conns[k].(open := false)]);
    }
  }

  lemma PopIsLater(s: State, pc: Pc)
    requires pc.Pop?
    ensures Later(s, Touch(s, pc))
  {
    hide HeadersAfter;
  }

  lemma MoveIsLater(s: State, w: nat, next: Pc)
    requires w < |s.workers|
    ensures Later(s, At(s, w, next))
  {
  }

  lemma AnswerIsLater(s: State, w: nat, k: Sock, r: Response, next: Pc)
    requires w < |s.workers|
    ensures Later(s, Answer(s, w, k, r, next))
  {
    if k in s.conns && s.conns[k].open {
      var c := s.conns[k].(answers := s.conns[k].answers + [r]);
      assert ConnLater(s.conns[k], c);
      ConnIsLater(At(s, w, next), k, c);
      MoveIsLater(s, w, next);
      LaterTrans(s, At(s, w, next), At(s, w, next).(conns := s.conns[k := c]));
    } else {
      MoveIsLater(s, w, Dead);
    }
  }

  lemma ConnIsLater(s: State, k: Sock, c: Conn)
    requires k in s.conns && ConnLater(s.conns[k], c)
    ensures Later(s, s.(conns := s.conns[k := c]))
  {
  }

  lemma HangUpIsLater(s: State, w: nat, k: Sock)
    requires w < |s.workers| && k in s.conns
    ensures Later(s, At(s, w, Idle).(conns := s.conns[k := s.conns[k].(open := false, broken := true)]))
  {
  }

  lemma GoIsLater(world: World, s: State, w: nat)
    requires Inv(s) && w < |s.workers| && HasSock(s.workers[w])
    ensures Later(s, Advance(world, s, w))
  {
    TouchIsLater(s, w);
    var pc := s.workers[w];
    var s' := Touch(s, pc);
    match Act(world, s, pc)
    case Move(next) =>
      MoveIsLater(s', w, next);
      LaterTrans(s, s', At(s', w, next));
    case Send(reply, next) =>
      AnswerIsLater(s', w, pc.sock, reply, next);
      LaterTrans(s, s', Answer(s', w, pc.sock, reply, next));
  }

  lemma LaterStep(world: World, s: State, e: Event)
    requires Inv(s) && Enabled(s, e)
    ensures Later(s, Next(world, s, e))
  {
    match e
    case Go(w) => GoIsLater(world, s, w);
    case Reset(w) => ResetIsLater(world, s, w);
    case _ => PlainIsLater(world, s, e);
  }

  lemma ResetIsLater(world: World, s: State, w: nat)
    requires Inv(s) && Enabled(s, Reset(w))
    ensures Later(s, Next(world, s, Reset(w)))
  {
    var pc := s.workers[w];
    TouchIsLater(s, w);
    var s' := if pc.Play? then Touch(s, pc) else s;
    assert s'.conns == s.conns;
    HangUpIsLater(s', w, pc.sock);
    if pc.Play? {
      LaterTrans(s, s', Next(world, s, Reset(w)));
    }
  }

  lemma PlainIsLater(world: World, s: State, e: Event)
    requires Enabled(s, e) && (e.Accept? || e.Read? || e.BadHead? || e.GiveId? || e.EnableAuth? || e.AddAuth?)
    ensures Later(s, Next(world, s, e))
  {
    hide Advance, Touch;
  }

  lemma {:induction false} LaterRun(world: World, s: State, es: seq<Event>)
    requires Inv(s)
    ensures var t := Run(world, s, es); t.Some? ==> Inv(t.value) && Later(s, t.value)
    decreases |es|
  {
    if es != [] && Enabled(s, es[0]) {
      var s' := Next(world, s, es[0]);
      InvNext(world, s, es[0]);
      LaterStep(world, s, es[0]);
      LaterRun(world, s', es[1..]);
      if Run(world, s, es).Some? { LaterTrans(s, s', Run(world, s, es).value); }
    }
  }

  /** Once in the table, a session keeps its connection and file until it is removed, whatever the others do. */
  lemma OwnershipIsStable(world: World, s: State, es: seq<Event>, id: Id)
    requires Inv(s) && id in s.sessions && Run(world, s, es).Some?
    ensures var t := Run(world, s, es).value;
      id in t.popped || (id in t.sessions && SameEntry(s.sessions[id], t.sessions[id]))
  {
    LaterRun(world, s, es);
  }

  /** Only the worker serving the session's own connection removes it, and only on TEARDOWN's last step. */
  lemma OnlyTheOwnerRemoves(world: World, s: State, e: Event, id: Id)
    requires Inv(s) && Enabled(s, e) && id in s.sessions && id !in Next(world, s, e).sessions
    ensures e.Go? && s.workers[e.w].Pop? && s.workers[e.w].id == id
         && s.workers[e.w].sock == s.sessions[id].sock && id in s.closed
  {
    if e.Go? {
      assert WorkerOk(s, e.w);
      AdvanceTable(world, s, e.w);
      TouchRemoves(s, s.workers[e.w], id);
    } else {
      OthersRemoveNone(world, s, e, id);
    }
  }

  lemma OthersRemoveNone(world: World, s: State, e: Event, id: Id)
    requires Enabled(s, e) && !e.Go? && id in s.sessions
    ensures id in Next(world, s, e).sessions
  {
  }

  lemma TouchRemoves(s: State, pc: Pc, id: Id)
    requires id in s.sessions && id !in Touch(s, pc).sessions
    ensures pc.Pop? && pc.id == id
  {
  }

  /** The worker's own part of a step does not change the table. */
  lemma AdvanceTable(world: World, s: State, w: nat)
    requires w < |s.workers| && HasSock(s.workers[w])
    ensures Advance(world, s, w).sessions == Touch(s, s.workers[w]).sessions
  {
    hide Act, HeadersAfter;
  }

  /** A removed session never comes back. */
  lemma RemovedStaysOut(world: World, s: State, es: seq<Event>, id: Id)
    requires Inv(s) && id in s.popped && Run(world, s, es).Some?
    ensures id !in Run(world, s, es).value.sessions
  {
    LaterRun(world, s, es);
    assert IdOk(Run(world, s, es).value, id);
  }

  // ----- closing -----

  predicate FindsFileOpen(s: State, pc: Pc)
    requires pc.Play?
  {
    pc.id in s.sessions && pc.id !in s.closed && pc.sock in s.conns && s.conns[pc.sock].open
  }

  /** In every run from the start each session's file is closed at most once, and a PLAY never finds it closed. */
  lemma NoUseAfterClose(world: World, n: nat, es: seq<Event>)
    requires Run(world, Initial(n), es).Some?
    ensures var t := Run(world, Initial(n), es).value;
      && NoRepeat(t.closings)
      && (forall id :: id in t.closed <==> id in t.closings)
      && (forall w: nat | w < |t.workers| && t.workers[w].Play? ::
            FindsFileOpen(t, t.workers[w]))
  {
    InitialInv(n);
    InvRun(world, Initial(n), es);
    hide Inv, Run, Initial;
    ClosedOnce(Run(world, Initial(n), es).value);
  }

  lemma ClosedOnce(t: State)
    requires Inv(t)
    ensures NoRepeat(t.closings) && forall id :: id in t.closed <==> id in t.closings
    ensures forall w: nat | w < |t.workers| && t.workers[w].Play? :: FindsFileOpen(t, t.workers[w])
  {
    forall id ensures id in t.closed <==> id in t.closings {
      assert IdOk(t, id);
    }
    forall w: nat | w < |t.workers| && t.workers[w].Play? ensures FindsFileOpen(t, t.workers[w]) {
      OwnSessionIsOpen(t, w);
    }
  }

  lemma OwnSessionIsOpen(t: State, w: nat)
    requires Inv(t) && w < |t.workers| && t.workers[w].Play?
    ensures FindsFileOpen(t, t.workers[w])
  {
    assert WorkerOk(t, w) && IdOk(t, t.workers[w].id);
  }

  // ----- resets -----

  /** A connection may turn out to be reset wherever its worker reads a request or sends a reply; the worker is then
  free for another, and the connection is closed for good. */
  lemma ResetsAnywhere(world: World, s: State, w: nat)
    requires Inv(s) && w < |s.workers| && HasSock(s.workers[w])
    requires s.workers[w].Waiting? || (Enabled(s, Go(w)) && Act(world, s, s.workers[w]).Send?)
    ensures Enabled(s, Reset(w))
    ensures var k, t := s.workers[w].sock, Next(world, s, Reset(w));
      && t.workers[w] == Idle && k in t.conns && !t.conns[k].open && t.conns[k].answers == s.conns[k].answers
      && t.sessions.Keys == s.sessions.Keys
  {
    hide FileOf, PlayReply, Accepted, HeadersAfter;
    assert WorkerOk(s, w);
  }

  // ----- what ends a worker -----

  predicate UnreadableRange(r: Request) {
    var range := Find(r.headers, "Range");
    !PlaysWhole(range) && (ParseRange(range.value).None? || ParseRange(range.value).value.1.None?)
  }

  predicate NamesDirectory(world: World, r: Request) {
    var name := FileOf(r.url); name.Some? && name.value in world.directories && name.value !in world.files
  }

  /** The five things that make a worker stop while it handles a request. */
  predicate Fatal(world: World, s: State, pc: Pc) {
    || (pc.Open? && NamesDirectory(world, pc.req))
    || (pc.HasSession? && var text := Find(pc.req.headers, "Session"); text.Some? && world.idOf(text.value).None?)
    || (pc.IsOwner? && pc.id in s.popped)
    || (pc.Play? && UnreadableRange(pc.req))
    || (pc.Play? && pc.id in s.sessions && Raises(s.sessions[pc.id].file, Find(pc.req.headers, "Range")))
  }

  /** A worker stops exactly on a head that is no request, and on an unreadable id, an unreadable range
  or one that starts too far past its end, a name that cannot be opened, or a session removed since the membership
  check. */
  lemma StopsExactly(world: World, s: State, e: Event, w: nat)
    requires Inv(s) && Enabled(s, e) && w < |s.workers| && !s.workers[w].Dead?
    ensures var t := Next(world, s, e);
      w < |t.workers| && (t.workers[w].Dead? <==> e == BadHead(w) || (e == Go(w) && Fatal(world, s, s.workers[w])))
  {
    if e.Go? {
      GoStays(world, s, e.w);
      if e.w == w { GoStopsExactly(world, s, w); }
    } else {
      hide Advance;
      if e.Reset? { TouchLeaves(s, s.workers[e.w]); }
    }
  }

  lemma GoStopsExactly(world: World, s: State, w: nat)
    requires Inv(s) && Enabled(s, Go(w))
    ensures Next(world, s, Go(w)).workers[w].Dead? <==> Fatal(world, s, s.workers[w])
  {
    assert WorkerOk(s, w);
    var pc := s.workers[w];
    if Owns(pc) || pc.IsOwner? { assert IdOk(s, pc.id); }
    StopsOnMove(world, s, w);
    if pc.Insert? || pc.Play? || pc.Close? || pc.Pop? || pc.IsOwner? || pc.ReplySetup? {
      FatalTouch(world, s, pc);
    } else {
      FatalElsewhere(world, s, pc);
    }
  }

  lemma FatalTouch(world: World, s: State, pc: Pc)
    requires pc.Insert? || pc.Play? || pc.Close? || pc.Pop? || pc.IsOwner? || pc.ReplySetup?
    requires Owns(pc) ==> pc.id in s.sessions
    requires pc.Play? ==> pc.id !in s.closed
    requires pc.IsOwner? ==> (pc.id in s.sessions <==> pc.id !in s.popped)
    requires pc.ReplySetup? ==> Has(pc.req.headers, "Transport")
    ensures Act(world, s, pc).next.Dead? <==> Fatal(world, s, pc)
  {
    hide FileOf, Accepted;
  }

  lemma FatalElsewhere(world: World, s: State, pc: Pc)
    requires Moves(pc)
    requires !(pc.Insert? || pc.Play? || pc.Close? || pc.Pop? || pc.IsOwner? || pc.ReplySetup?)
    ensures Act(world, s, pc).next.Dead? <==> Fatal(world, s, pc)
  {
    hide FileOf, PlayReply, Accepted, PlaysWhole;
  }

  /** Sends never fail for the connection being closed. */
  lemma StopsOnMove(world: World, s: State, w: nat)
    requires Inv(s) && w < |s.workers| && Moves(s.workers[w])
    ensures Advance(world, s, w).workers[w] == Act(world, s, s.workers[w]).next
  {
    assert WorkerOk(s, w);
    TouchLeaves(s, s.workers[w]);
    if Act(world, s, s.workers[w]).Send? { SendsFrom(world, s, s.workers[w]); }
  }

  lemma TouchLeaves(s: State, pc: Pc)
    ensures Touch(s, pc).workers == s.workers
    ensures !pc.Close? ==> Touch(s, pc).conns == s.conns
  {
  }

  /** Only where a reply is owed is one sent. */
  lemma SendsFrom(world: World, s: State, pc: Pc)
    requires HasSock(pc) && Act(world, s, pc).Send?
    ensures Owes(pc)
  {
  }

  /** What sending a reply does. */
  lemma SendEffect(world: World, s: State, w: nat)
    requires Inv(s) && w < |s.workers| && Moves(s.workers[w]) && Act(world, s, s.workers[w]).Send?
    ensures var pc := s.workers[w]; var a := Act(world, s, pc); var t := Next(world, s, Go(w));
      && pc.sock in s.conns && s.conns[pc.sock].worker == w
      && t.workers == s.workers[w := a.next]
      && t.conns == s.conns[pc.sock := s.conns[pc.sock].(answers := s.conns[pc.sock].answers + [a.reply])]
      && t.sessions == Touch(s, pc).sessions
  {
    hide FileOf, PlayReply, Accepted, HeadersAfter;
    assert WorkerOk(s, w);
    assert Touch(s, s.workers[w]).conns == s.conns && Touch(s, s.workers[w]).workers == s.workers;
  }

  /** A worker's own step stays on its connection and reads nothing. */
  lemma GoStays(world: World, s: State, w: nat)
    requires Inv(s) && Enabled(s, Go(w))
    ensures var k, t := s.workers[w].sock, Next(world, s, Go(w));
      && k in s.conns && k in t.conns && s.conns[k].worker == w
      && t.conns == s.conns[k := t.conns[k]] && t.workers == s.workers[w := t.workers[w]]
      && t.conns[k].asked == s.conns[k].asked && t.conns[k].worker == w
      && t.conns[k].broken == s.conns[k].broken
      && (HasSock(t.workers[w]) ==> t.workers[w].sock == k)
  {
    hide FileOf, PlayReply, Accepted, HeadersAfter;
    assert WorkerOk(s, w);
    var pc := s.workers[w];
    ActSock(world, s, pc);
    StopsOnMove(world, s, w);
    if Act(world, s, pc).Send? {
      SendEffect(world, s, w);
    } else {
      TouchLeaves(s, pc);
    }
  }

  lemma ActSock(world: World, s: State, pc: Pc)
    requires HasSock(pc)
    ensures var next := Act(world, s, pc).next; HasSock(next) ==> next.sock == pc.sock
  {
    hide FileOf;
    hide PlayReply;
    hide Accepted;
  }

  /** The lookup after the membership check can only miss a session of another connection. */
  lemma MissedLookupIsForeign(s: State, w: nat)
    requires Inv(s) && w < |s.workers| && s.workers[w].IsOwner? && s.workers[w].id !in s.sessions
    ensures var id := s.workers[w].id; id in s.popped && id in s.owners && s.owners[id] != s.workers[w].sock
  {
    assert WorkerOk(s, w);
    assert IdOk(s, s.workers[w].id);
  }

  /** It does happen: the owner's last step between another worker's check and lookup stops that worker. */
  lemma LookupCanMiss(world: World, s: State, w: nat, v: nat)
    requires Inv(s) && w < |s.workers| && v < |s.workers| && v != w
    requires s.workers[w].IsOwner? && s.workers[v].Pop? && s.workers[v].id == s.workers[w].id
    ensures !Next(world, s, Go(w)).workers[w].Dead?
    ensures var s' := Next(world, s, Go(v));
      Enabled(s', Go(w)) && Next(world, s', Go(w)).workers[w].Dead?
  {
    hide FileOf, PlayReply, Accepted, HeadersAfter;
    GoStopsExactly(world, s, w);
    assert IdOk(s, s.workers[w].id) && WorkerOk(s, v);
    PopEffect(world, s, v);
    InvNext(world, s, Go(v));
    GoStopsExactly(world, Next(world, s, Go(v)), w);
  }

  lemma PopEffect(world: World, s: State, v: nat)
    requires v < |s.workers| && s.workers[v].Pop? && s.workers[v].id in s.sessions
    ensures var t := Next(world, s, Go(v));
      && t.workers == s.workers[v := Idle] && t.popped == s.popped + {s.workers[v].id}
      && t.conns == s.conns
  {
    hide FileOf, PlayReply, Accepted, HeadersAfter;
  }

  // ----- sessions that nobody can remove any more -----

  /** The session is in the table, but the worker of its connection is not there any more, or is leaving. */
  predicate Abandoned(s: State, id: Id) {
    && id in s.sessions
    && var k := s.sessions[id].sock;
    k in s.conns && s.conns[k].worker < |s.workers|
    && var pc := s.workers[s.conns[k].worker];
    !(HasSock(pc) && pc.sock == k && (pc.Pop? ==> pc.id == id))
  }

  /** The worker of the session's connection leaves it otherwise than by removing the session. */
  predicate Leaves(world: World, s: State, e: Event, id: Id)
    requires id in s.sessions
  {
    && (e.Go? || e.Reset? || e.BadHead?) && e.w < |s.workers|
    && var pc := s.workers[e.w];
    && HasSock(pc) && pc.sock == s.sessions[id].sock
    && (e.Go? ==> Fatal(world, s, pc) || (pc.Close? && pc.id != id))
  }

  lemma EntryStays(world: World, s: State, e: Event, id: Id)
    requires Inv(s) && Enabled(s, e) && id in s.sessions && id in Next(world, s, e).sessions
    ensures var t := Next(world, s, e); var k := s.sessions[id].sock;
      && t.sessions[id].sock == k && k in s.conns && k in t.conns && t.conns[k].worker == s.conns[k].worker
      && |t.workers| == |s.workers|
  {
    assert IdOk(s, id);
    LaterStep(world, s, e);
    InvNext(world, s, e);
    assert IdOk(Next(world, s, e), id);
    assert ConnLater(s.conns[s.sessions[id].sock], Next(world, s, e).conns[s.sessions[id].sock]);
  }

  lemma AbandonedStep(world: World, s: State, e: Event, id: Id)
    requires Inv(s) && Enabled(s, e) && Abandoned(s, id)
    ensures Abandoned(Next(world, s, e), id)
  {
    var k := s.sessions[id].sock;
    assert WorkerOk(s, s.conns[k].worker);
    AbandonedRemains(world, s, e, id);
    EntryStays(world, s, e, id);
    if e.Go? {
      GoStays(world, s, e.w);
      PopLeaves(world, s, e.w);
    } else {
      ElseStays(world, s, e);
    }
  }

  lemma AbandonedRemains(world: World, s: State, e: Event, id: Id)
    requires Inv(s) && Enabled(s, e) && Abandoned(s, id)
    ensures id in Next(world, s, e).sessions
  {
    hide Next;
    assert e.Go? ==> WorkerOk(s, e.w);
    if id !in Next(world, s, e).sessions { OnlyTheOwnerRemoves(world, s, e, id); }
  }

  lemma PopLeaves(world: World, s: State, w: nat)
    requires Inv(s) && Enabled(s, Go(w))
    ensures s.workers[w].Pop? ==> Next(world, s, Go(w)).workers[w].Idle?
    ensures Next(world, s, Go(w)).workers[w].Idle? ==> s.workers[w].Pop?
    ensures Next(world, s, Go(w)).workers[w].Pop? <==> s.workers[w].Close?
    ensures s.workers[w].Close? ==> Next(world, s, Go(w)).workers[w].id == s.workers[w].id
  {
    assert WorkerOk(s, w);
    StopsOnMove(world, s, w);
    ActLeaves(world, s, s.workers[w]);
  }

  lemma ActLeaves(world: World, s: State, pc: Pc)
    requires Moves(pc) && (pc.Close? || pc.Pop? ==> pc.id in s.sessions)
    ensures var next := Act(world, s, pc).next;
      && (next.Idle? <==> pc.Pop?) && (next.Pop? <==> pc.Close?) && (pc.Close? ==> next.id == pc.id)
  {
    hide FileOf;
    hide PlayReply;
    hide Accepted;
  }

  /** What an event that is no worker's own step does to worker w. */
  predicate KeepsPlace(e: Event, w: nat, pc: Pc, next: Pc) {
    if e.EnableAuth? || e.AddAuth? || e.w != w then next == pc
    else
      match e
      case Accept(_, k) => pc.Idle? && next == Waiting(k)
      case Read(_, r) => pc.Waiting? && next == Dispatch(pc.sock, r)
      case BadHead(_) => pc.Waiting? && next.Dead?
      case Reset(_) => Sends(pc) && next.Idle?
      case GiveId(_, id) => pc.NewId? && next == Open(pc.sock, pc.req, pc.checked, id)
      case _ => true
  }

  /** Events other than a worker's own steps touch one worker, and leave it where it is or nowhere. */
  lemma ElseStays(world: World, s: State, e: Event)
    requires Enabled(s, e) && !e.Go?
    ensures forall w: nat | w < |s.workers| :: KeepsPlace(e, w, s.workers[w], Next(world, s, e).workers[w])
  {
    hide Advance, Touch;
    if e.Reset? { TouchLeaves(s, s.workers[e.w]); }
  }

  /** A session is abandoned exactly when its worker stops, is reset, or tears down another session of the
  connection. */
  lemma AbandonedExactly(world: World, s: State, e: Event, id: Id)
    requires Inv(s) && Enabled(s, e) && id in s.sessions && !Abandoned(s, id) && id in Next(world, s, e).sessions
    ensures Abandoned(Next(world, s, e), id) <==> Leaves(world, s, e, id)
  {
    hide Act, Advance, Touch, Fatal, Next;
    EntryStays(world, s, e, id);
    if e.Go? {
      GoAbandons(world, s, e.w, id);
    } else {
      var w := s.conns[s.sessions[id].sock].worker;
      if w < |s.workers| { assert WorkerOk(s, w); }
      if e.BadHead? || e.Reset? { assert WorkerOk(s, e.w); }
      ElseStays(world, s, e);
    }
  }

  lemma GoAbandons(world: World, s: State, w: nat, id: Id)
    requires Inv(s) && Enabled(s, Go(w)) && id in s.sessions && !Abandoned(s, id)
    requires id in Next(world, s, Go(w)).sessions
    ensures Abandoned(Next(world, s, Go(w)), id) <==> Leaves(world, s, Go(w), id)
  {
    hide Act, Advance, Fatal;
    EntryStays(world, s, Go(w), id);
    assert WorkerOk(s, w);
    GoStays(world, s, w);
    PopLeaves(world, s, w);
    GoStopsExactly(world, s, w);
    AdvanceTable(world, s, w);
  }

  /** An abandoned session is never removed: it stays in the table in every later run. */
  lemma {:induction false} AbandonedStays(world: World, s: State, es: seq<Event>, id: Id)
    requires Inv(s) && Abandoned(s, id) && Run(world, s, es).Some?
    ensures Abandoned(Run(world, s, es).value, id)
    decreases |es|
  {
    if es != [] {
      InvNext(world, s, es[0]);
      AbandonedStep(world, s, es[0], id);
      AbandonedStays(world, Next(world, s, es[0]), es[1..], id);
    }
  }

  // ----- one reply per request, and the size of the table -----

  /** Requests read and not answered on the connection of worker w. */
  function AnswersDue(s: State, w: nat): int
    requires w < |s.workers| && HasSock(s.workers[w]) && s.workers[w].sock in s.conns
  {
    |s.conns[s.workers[w].sock].asked| - |s.conns[s.workers[w].sock].answers|
  }

  /** Every request that was read on a connection has exactly one reply, except one still being handled. */
  lemma OneReplyPerRequest(world: World, n: nat, es: seq<Event>)
    requires Run(world, Initial(n), es).Some?
    ensures var t := Run(world, Initial(n), es).value;
      && (forall k | k in t.conns :: |t.conns[k].answers| <= |t.conns[k].asked| <= |t.conns[k].answers| + 1)
      && (forall w: nat | w < |t.workers| && HasSock(t.workers[w]) ::
            t.workers[w].sock in t.conns && AnswersDue(t, w) == if Owes(t.workers[w]) then 1 else 0)
  {
    hide Run, IdOk;
    InitialInv(n);
    InvRun(world, Initial(n), es);
    var t := Run(world, Initial(n), es).value;
    assert forall k | k in t.conns :: ConnOk(t, k);
    forall w: nat | w < |t.workers| && HasSock(t.workers[w])
      ensures t.workers[w].sock in t.conns && AnswersDue(t, w) == if Owes(t.workers[w]) then 1 else 0
    {
      assert WorkerOk(t, w);
    }
  }

  /** The table holds what was inserted and not removed; its size is the difference of the two counts. */
  lemma TableIsConserved(s: State)
    requires Inv(s)
    ensures s.popped <= s.owners.Keys && s.sessions.Keys == s.owners.Keys - s.popped
    ensures |s.sessions| == |s.owners| - |s.popped|
  {
    forall id: Id ensures id in s.sessions.Keys <==> id in s.owners.Keys - s.popped {
      assert IdOk(s, id);
    }
    forall id | id in s.popped ensures id in s.owners.Keys {
      assert IdOk(s, id);
    }
    assert s.owners.Keys == s.sessions.Keys + s.popped;
    assert |s.sessions.Keys + s.popped| == |s.sessions.Keys| + |s.popped|;
  }
}
