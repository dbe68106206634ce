/** Where sessions come from, and when authentication covers all of them. */
module Provenance {
  import opened Headers
  import opened Messages
  import opened Ranges
  import opened Sessions
  import opened Server
  import Guarantees

  /** A request that may set up a session playing this file. */
  predicate Grounds(world: World, r: Request, file: string) {
    && Has(r.headers, "Transport")
    && var name := FileOf(r.url); name.Some? && name.value in world.files && world.files[name.value] == file
  }

  predicate KeyAccepted(auths: seq<string>, checked: bool, r: Request) { checked ==> Accepted(auths, r) }

  ghost predicate PcTraced(world: World, s: State, pc: Pc) {
    && (PastTransport(pc) ==> Has(pc.req.headers, "Transport"))
    && (pc.NewId? || pc.Open? || pc.Insert? ==> KeyAccepted(s.auths, pc.checked, pc.req))
    && (pc.Insert? ==> Grounds(world, pc.req, pc.file))
  }

  /** Every session, in the table or about to be, has its grounds, and its key if it was asked for. */
  ghost predicate Traced(world: World, s: State) {
    && (forall w: nat | w < |s.workers| :: PcTraced(world, s, s.workers[w]))
    && (forall id | id in s.sessions :: EntryTraced(world, s, s.sessions[id]))
  }

  predicate EntryTraced(world: World, s: State, e: Entry) {
    Grounds(world, e.request, e.file) && KeyAccepted(s.auths, e.checked, e.request)
  }

  /** Authentication is on, and nothing in the table or on its way there went round it. */
  ghost predicate AllChecked(world: World, s: State) {
    && s.useAuth
    && (forall w: nat | w < |s.workers| :: !Late(world, s.workers[w]))
    && (forall id | id in s.sessions :: s.sessions[id].checked)
  }

  /** On the way to inserting a session whose key was never asked for. */
  predicate Late(world: World, pc: Pc) {
    && (pc.NewId? || pc.Open? || pc.Insert?) && !pc.checked
    && (pc.Insert? || (var name := FileOf(pc.req.url); name.Some? && name.value in world.files))
  }

  lemma KeysGrow(auths: seq<string>, more: seq<string>, r: Request)
    requires auths <= more && Accepted(auths, r)
    ensures Accepted(more, r)
  {
    var key := Find(r.headers, "Authorization").value;
    var i :| 0 <= i < |auths| && Keys(auths)[i] == key;
    assert Keys(more)[i] == key;
  }

  lemma TracedNext(world: World, s: State, e: Event)
    requires Traced(world, s) && Enabled(s, e)
    ensures Traced(world, Next(world, s, e))
    ensures AllChecked(world, s) ==> AllChecked(world, Next(world, s, e))
  {
    hide FileOf, Advance;
    var t := Next(world, s, e);
    assert s.auths <= t.auths by {
      if e.Go? { SameAuths(world, s, e.w); }
    }
    forall r | Accepted(s.auths, r) ensures Accepted(t.auths, r) { KeysGrow(s.auths, t.auths, r); }
    if e.Go? {
      TracedGo(world, s, e.w);
    } else {
      TracedElse(world, s, e);
    }
  }

  lemma TouchSameAuths(s: State, pc: Pc)
    ensures var t := Touch(s, pc); t.auths == s.auths && t.useAuth == s.useAuth && t.workers == s.workers
  {
  }

  lemma SameAuths(world: World, s: State, w: nat)
    requires w < |s.workers| && HasSock(s.workers[w])
    ensures var t := Advance(world, s, w);
      && t.auths == s.auths && t.useAuth == s.useAuth && t.sessions == Touch(s, s.workers[w]).sessions
      && (t.workers == s.workers[w := Act(world, s, s.workers[w]).next] || t.workers == s.workers[w := Dead])
  {
    hide FileOf, PlayReply, Accepted, HeadersAfter;
    TouchSameAuths(s, s.workers[w]);
  }

  lemma ActTraced(world: World, s: State, pc: Pc)
    requires PcTraced(world, s, pc)
    ensures PcTraced(world, s, Act(world, s, pc).next)
    ensures s.useAuth && !Late(world, pc) ==> !Late(world, Act(world, s, pc).next)
  {
    if pc.Open? {
      OpenTraced(world, s, pc);
    } else {
      OthersTraced(world, s, pc);
    }
  }

  lemma OpenTraced(world: World, s: State, pc: Pc)
    requires PcTraced(world, s, pc) && pc.Open?
    ensures PcTraced(world, s, Act(world, s, pc).next)
    ensures !Late(world, pc) ==> !Late(world, Act(world, s, pc).next)
  {
    hide FileOf, PlayReply, Keys;
  }

  lemma OthersTraced(world: World, s: State, pc: Pc)
    requires PcTraced(world, s, pc) && !pc.Open?
    ensures PcTraced(world, s, Act(world, s, pc).next)
    ensures s.useAuth && !Late(world, pc) ==> !Late(world, Act(world, s, pc).next)
  {
    hide FileOf;
    hide PlayReply;
    hide Accepted;
  }

  /** A session after a step was there before, but for its headers, or was just inserted. */
  lemma TouchEntry(s: State, pc: Pc, id: Id)
    requires id in Touch(s, pc).sessions
    ensures var e := Touch(s, pc).sessions[id];
      || (id in s.sessions && Guarantees.SameEntry(s.sessions[id], e))
      || (pc.Insert? && e == Entry(pc.sock, pc.req.headers, pc.file, pc.req, pc.checked))
  {
  }

  lemma TouchTraced(world: World, s: State, pc: Pc, id: Id)
    requires PcTraced(world, s, pc) && id in Touch(s, pc).sessions
    requires id in s.sessions ==> EntryTraced(world, s, s.sessions[id])
    ensures var e := Touch(s, pc).sessions[id];
      && EntryTraced(world, s, e)
      && (!Late(world, pc) && (id in s.sessions ==> s.sessions[id].checked) ==> e.checked)
  {
    TouchEntry(s, pc, id);
  }

  lemma TracedGo(world: World, s: State, w: nat)
    requires Traced(world, s) && w < |s.workers| && HasSock(s.workers[w])
    ensures Traced(world, Advance(world, s, w))
    ensures AllChecked(world, s) ==> AllChecked(world, Advance(world, s, w))
  {
    hide FileOf, Act, Accepted, Touch;
    var pc, t := s.workers[w], Advance(world, s, w);
    SameAuths(world, s, w);
    assert PcTraced(world, s, pc);
    ActTraced(world, s, pc);
    WorkersTraced(world, s, t);
    forall id | id in t.sessions
      ensures EntryTraced(world, t, t.sessions[id]) && (AllChecked(world, s) ==> t.sessions[id].checked)
    {
      TouchTraced(world, s, pc, id);
    }
  }

  lemma WorkersTraced(world: World, s: State, t: State)
    requires t.auths == s.auths && forall v: nat | v < |t.workers| :: PcTraced(world, s, t.workers[v])
    ensures forall v: nat | v < |t.workers| :: PcTraced(world, t, t.workers[v])
  {
    forall v: nat | v < |t.workers| ensures PcTraced(world, t, t.workers[v]) {
      PcTracedSame(world, s, t, t.workers[v]);
    }
  }

  lemma PcTracedSame(world: World, s: State, t: State, pc: Pc)
    requires t.auths == s.auths
    ensures PcTraced(world, s, pc) <==> PcTraced(world, t, pc)
  {
  }

  lemma TracedElse(world: World, s: State, e: Event)
    requires Traced(world, s) && Enabled(s, e) && !e.Go?
    requires forall r | Accepted(s.auths, r) :: Accepted(Next(world, s, e).auths, r)
    ensures Traced(world, Next(world, s, e))
    ensures AllChecked(world, s) ==> AllChecked(world, Next(world, s, e))
  {
    hide FileOf, Advance;
    var t := Next(world, s, e);
    assert |t.workers| == |s.workers|;
    forall v: nat | v < |t.workers|
      ensures PcTraced(world, t, t.workers[v])
      ensures Late(world, t.workers[v]) ==> Late(world, s.workers[v])
    {
      PcElse(world, s, e, v);
    }
    forall id | id in t.sessions
      ensures EntryTraced(world, t, t.sessions[id]) && (AllChecked(world, s) ==> t.sessions[id].checked)
    {
      EntryElse(world, s, e, id);
    }
  }

  lemma PcElse(world: World, s: State, e: Event, v: nat)
    requires Enabled(s, e) && !e.Go? && v < |s.workers| && PcTraced(world, s, s.workers[v])
    requires forall r | Accepted(s.auths, r) :: Accepted(Next(world, s, e).auths, r)
    ensures v < |Next(world, s, e).workers| && PcTraced(world, Next(world, s, e), Next(world, s, e).workers[v])
    ensures Late(world, Next(world, s, e).workers[v]) ==> Late(world, s.workers[v])
  {
    hide Next;
    Guarantees.ElseStays(world, s, e);
    hide Guarantees.KeepsPlace, PcTraced, Late, Accepted;
    assert Guarantees.KeepsPlace(e, v, s.workers[v], Next(world, s, e).workers[v]);
    PcTracedOn(world, s, Next(world, s, e), s.workers[v]);
    PlaceTraced(world, Next(world, s, e), e, v, s.workers[v], Next(world, s, e).workers[v]);
  }

  lemma PlaceTraced(world: World, t: State, e: Event, v: nat, pc: Pc, next: Pc)
    requires !e.Go? && Guarantees.KeepsPlace(e, v, pc, next) && PcTraced(world, t, pc)
    ensures PcTraced(world, t, next) && (Late(world, next) ==> Late(world, pc))
  {
    hide FileOf, Accepted;
  }

  lemma PcTracedOn(world: World, s: State, t: State, pc: Pc)
    requires PcTraced(world, s, pc)
    requires forall r | Accepted(s.auths, r) :: Accepted(t.auths, r)
    ensures PcTraced(world, t, pc)
  {
    hide FileOf, Accepted;
  }

  lemma EntryElse(world: World, s: State, e: Event, id: Id)
    requires Enabled(s, e) && !e.Go? && id in Next(world, s, e).sessions
    requires id in s.sessions ==> EntryTraced(world, s, s.sessions[id])
    requires forall r | Accepted(s.auths, r) :: Accepted(Next(world, s, e).auths, r)
    ensures id in s.sessions && EntryTraced(world, Next(world, s, e), Next(world, s, e).sessions[id])
    ensures Next(world, s, e).sessions[id].checked == s.sessions[id].checked
  {
    if e.Reset? { TouchEntry(s, s.workers[e.w], id); }
    SessionsElse(world, s, e);
  }

  lemma SessionsElse(world: World, s: State, e: Event)
    requires Enabled(s, e) && !e.Go?
    ensures Next(world, s, e).sessions
         == if e.Reset? && s.workers[e.w].Play? then Touch(s, s.workers[e.w]).sessions else s.sessions
  {
  }

  lemma {:induction false} TracedRun(world: World, s: State, es: seq<Event>)
    requires Traced(world, s)
    ensures var t := Run(world, s, es); t.Some? ==>
      Traced(world, t.value) && (AllChecked(world, s) ==> AllChecked(world, t.value))
    decreases |es|
  {
    if es != [] && Enabled(s, es[0]) {
      TracedNext(world, s, es[0]);
      TracedRun(world, Next(world, s, es[0]), es[1..]);
    }
  }

  /** In every run from the start, each live session was set up by a request with a Transport header
  and an address of the accepted form naming an existing file, which is the file it plays. */
  lemma SessionsHaveGrounds(world: World, n: nat, es: seq<Event>, id: Id)
    requires var t := Run(world, Initial(n), es); t.Some? && id in t.value.sessions
    ensures var t := Run(world, Initial(n), es).value;
      && Grounds(world, t.sessions[id].request, t.sessions[id].file)
      && (t.sessions[id].checked ==> Accepted(t.auths, t.sessions[id].request))
  {
    TracedRun(world, Initial(n), es);
    assert EntryTraced(world, Run(world, Initial(n), es).value, Run(world, Initial(n), es).value.sessions[id]);
  }

  // ----- turning authentication on -----

  lemma {:induction false} FreshId(ids: set<Id>) returns (id: Id)
    ensures id !in ids && forall i | i in ids :: i < id
    decreases |ids|
  {
    if ids == {} {
      id := 0;
    } else {
      var x :| x in ids;
      var y := FreshId(ids - {x});
      id := if x < y then y else x + 1;
      assert forall i | i in ids :: i == x || i in ids - {x};
    }
  }

  /** From here on, whatever happens, no unchecked session is ever in the table. */
  ghost predicate AlwaysChecked(world: World, s: State) {
    forall es: seq<Event>, id: Id :: Run(world, s, es).Some? && id in Run(world, s, es).value.sessions
      ==> Run(world, s, es).value.sessions[id].checked
  }

  /** Turned on over an empty table, authentication covers every later session exactly when no SETUP is past it. */
  lemma AuthenticationCoversExactly(world: World, s: State)
    requires Inv(s) && Traced(world, s) && s.sessions == map[]
    ensures AlwaysChecked(world, Next(world, s, EnableAuth))
       <==> forall w: nat | w < |s.workers| :: !Late(world, s.workers[w])
  {
    hide FileOf, Advance;
    var t := Next(world, s, EnableAuth);
    if forall w: nat | w < |s.workers| :: !Late(world, s.workers[w]) {
      TracedNext(world, s, EnableAuth);
      forall es: seq<Event>, id: Id | Run(world, t, es).Some? && id in Run(world, t, es).value.sessions
        ensures Run(world, t, es).value.sessions[id].checked
      {
        TracedRun(world, t, es);
      }
    } else {
      var w: nat :| w < |s.workers| && Late(world, s.workers[w]);
      InvNext(world, s, EnableAuth);
      var es, id := LateSetupGetsIn(world, t, w);
    }
  }

  /** A late SETUP reaches the table unchecked if its worker goes on. */
  lemma LateSetupGetsIn(world: World, s: State, w: nat) returns (es: seq<Event>, id: Id)
    requires w < |s.workers| && Late(world, s.workers[w])
    ensures var t := Run(world, s, es); t.Some? && id in t.value.sessions && !t.value.sessions[id].checked
  {
    es := [];
    var t := s;
    if t.workers[w].NewId? {
      id := FreshId(t.issued.Keys);
      Guarantees.RunAppend(world, s, es, GiveId(w, id));
      es, t := es + [GiveId(w, id)], Next(world, t, GiveId(w, id));
    }
    id := t.workers[w].id;
    if t.workers[w].Open? {
      OpenGoesOn(world, t, w);
      Guarantees.RunAppend(world, s, es, Go(w));
      es, t := es + [Go(w)], Next(world, t, Go(w));
    }
    InsertGetsIn(world, t, w);
    Guarantees.RunAppend(world, s, es, Go(w));
    es := es + [Go(w)];
  }

  lemma OpenGoesOn(world: World, s: State, w: nat)
    requires w < |s.workers| && s.workers[w].Open? && Late(world, s.workers[w])
    ensures var pc, t := s.workers[w], Advance(world, s, w);
      w < |t.workers| && t.workers[w].Insert? && t.workers[w].id == pc.id && !t.workers[w].checked
  {
    hide FileOf, PlayReply, Accepted;
  }

  lemma InsertGetsIn(world: World, s: State, w: nat)
    requires w < |s.workers| && s.workers[w].Insert? && !s.workers[w].checked
    ensures var id, t := s.workers[w].id, Advance(world, s, w); id in t.sessions && !t.sessions[id].checked
  {
    hide FileOf, PlayReply, Accepted;
  }
}
