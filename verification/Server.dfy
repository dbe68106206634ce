/** The multi-threaded session server as an interleaved state machine.

Several workers share one session table without a lock.  Every read or write of shared state
and every send is a step of its own, so another worker may run between a membership check and
the lookup that follows it, or between closing a session and removing it.  Uncaught errors end
the worker; a connection reset closes the connection.  Fields marked as history are written
but never read by the steps.
*/
module Server {
  import opened Wrappers
  import opened Headers
  import opened Messages
  import opened Ranges
  import opened Sessions

  type Id = nat
  type Sock = nat

  /** What lies outside: the files that can be named, other names that exist but cannot be opened, and
  how session ids are written and read. */
  datatype World = World(
    files: map<string, string>,
    directories: set<string>,
    idText: Id -> string,
    idOf: string -> Option<Id>)

  datatype Entry = Entry(
    sock: Sock,
    headers: HeaderMap,   // of the SETUP request, rewritten by whole plays
    file: string,
    request: Request,     // history: the SETUP request
    checked: bool)        // history: its key was compared

  /** Where a worker is, named after what it does next. */
  datatype Pc =
    | Idle
    | Waiting(sock: Sock)
    | Dispatch(sock: Sock, req: Request)
    | HasTransport(sock: Sock, req: Request)
    | ReadFlag(sock: Sock, req: Request)
    | HasKey(sock: Sock, req: Request)
    | CompareKey(sock: Sock, req: Request)
    | NewId(sock: Sock, req: Request, checked: bool)
    | Open(sock: Sock, req: Request, checked: bool, id: Id)
    | Insert(sock: Sock, req: Request, checked: bool, id: Id, file: string)
    | ReplySetup(sock: Sock, req: Request, id: Id)
    | HasSession(sock: Sock, req: Request)
    | IsMember(sock: Sock, req: Request, id: Id)
    | IsOwner(sock: Sock, req: Request, id: Id)
    | Play(sock: Sock, req: Request, id: Id)
    | ReplyTeardown(sock: Sock, req: Request, id: Id)
    | Close(sock: Sock, req: Request, id: Id)
    | Pop(sock: Sock, req: Request, id: Id)
    | Dead

  /** A connection: whether it is open; and as history, which worker accepted it, what went over it,
  and whether it was reset or delivered something that is no request. */
  datatype Conn = Conn(open: bool, worker: nat, asked: seq<Request>, answers: seq<Response>, broken: bool)

  datatype State = State(
    workers: seq<Pc>,
    sessions: map<Id, Entry>,
    useAuth: bool,
    auths: seq<string>,
    conns: map<Sock, Conn>,
    closed: set<Id>,          // sessions whose file is closed
    issued: map<Id, nat>,     // history: ids generated, and for which worker
    owners: map<Id, Sock>,    // history: ids ever in the table, and their connection
    popped: set<Id>,          // history: ids removed from the table
    closings: seq<Id>)        // history: the file closings, in order

  datatype Event =
    | Accept(w: nat, sock: Sock)
    | Read(w: nat, req: Request)
    | BadHead(w: nat)
    | Reset(w: nat)
    | GiveId(w: nat, id: Id)
    | Go(w: nat)
    | EnableAuth
    | AddAuth(key: string)

  // ----- replies -----

  function Plain(status: nat, text: string, h: HeaderMap): Response { Response(VERSION, status, text, h, "") }

  function SetupReply(world: World, id: Id, transport: string): Response {
    Plain(200, "OK", [("Session", world.idText(id)), ("Transport", transport)])
  }

  function Keys(auths: seq<string>): seq<string> {
    seq(|auths|, i requires 0 <= i < |auths| => "Bearer " + auths[i])
  }

  /** The request carries one of the keys. */
  predicate Accepted(auths: seq<string>, r: Request) {
    var key := Find(r.headers, "Authorization");
    key.Some? && key.value in Keys(auths)
  }

  // ----- steps -----

  /** What a worker does next, apart from the table: go somewhere, or send a reply and go on. */
  datatype Action = Move(next: Pc) | Send(reply: Response, next: Pc)

  function Act(world: World, s: State, pc: Pc): Action {
    match pc
    case Dispatch(k, r) =>
      if r.verb == "OPTIONS" then Send(Plain(200, "OK", []), Waiting(k))
      else if r.verb == "SETUP" then Move(HasTransport(k, r))
      else if r.verb == "PLAY" || r.verb == "TEARDOWN" then Move(HasSession(k, r))
      else Send(Plain(400, "Bad Request", []), Waiting(k))
    case HasTransport(k, r) =>
      if Has(r.headers, "Transport") then Move(ReadFlag(k, r))
      else Send(Plain(461, "Transport Not Found", []), Waiting(k))
    case ReadFlag(k, r) =>
      Move(if s.useAuth then HasKey(k, r) else NewId(k, r, false))
    case HasKey(k, r) =>
      if Has(r.headers, "Authorization") then Move(CompareKey(k, r))
      else Send(Plain(401, "Unauthorized", [("WWW-Authenticate", "Basic realm=\"dian\"")]), Waiting(k))
    case CompareKey(k, r) =>
      if Accepted(s.auths, r) then Move(NewId(k, r, true))
      else Send(Plain(403, "Forbidden", []), Waiting(k))
    case Open(k, r, checked, id) =>
      var name := FileOf(r.url);
      if name.None? then Send(Plain(400, "Bad Request", []), Waiting(k))
      else if name.value in world.files then Move(Insert(k, r, checked, id, world.files[name.value]))
      else if name.value in world.directories then Move(Dead)
      else Send(Plain(404, "Not Found", [("Session", world.idText(id))]), Waiting(k))
    case Insert(k, r, checked, id, file) => Move(ReplySetup(k, r, id))
    case ReplySetup(k, r, id) =>
      var transport := Find(r.headers, "Transport");
      if transport.None? then Move(Dead) else Send(SetupReply(world, id, transport.value), Waiting(k))
    case HasSession(k, r) =>
      var text := Find(r.headers, "Session");
      if text.None? then Send(Plain(453, "Session Not Found", []), Waiting(k))
      else
        var id := world.idOf(text.value);
        Move(if id.None? then Dead else IsMember(k, r, id.value))
    case IsMember(k, r, id) =>
      if id in s.sessions then Move(IsOwner(k, r, id))
      else Send(Plain(454, "Session Not Found", []), Waiting(k))
    case IsOwner(k, r, id) =>
      if id !in s.sessions then Move(Dead)
      else if s.sessions[id].sock != k then Send(Plain(455, "Session Not Current", []), Waiting(k))
      else Move(if r.verb == "PLAY" then Play(k, r, id) else ReplyTeardown(k, r, id))
    case Play(k, r, id) =>
      if id !in s.sessions || id in s.closed then Move(Dead)
      else
        var reply := PlayReply(s.sessions[id].headers, s.sessions[id].file, Find(r.headers, "Range"));
        if reply.None? then Move(Dead)
        else if Raises(s.sessions[id].file, Find(r.headers, "Range")) then Send(reply.value, Dead)
        else Send(reply.value, Waiting(k))
    case ReplyTeardown(k, r, id) => Send(Plain(200, "OK", []), Close(k, r, id))
    case Close(k, r, id) => Move(if id in s.sessions then Pop(k, r, id) else Dead)
    case Pop(k, r, id) => Move(if id in s.sessions then Idle else Dead)
    case _ => Move(pc)
  }

  /** What a step does to the table and to the sessions in it. */
  function Touch(s: State, pc: Pc): (t: State)
    ensures t.workers == s.workers
  {
    match pc
    case Insert(k, r, checked, id, file) =>
      s.(sessions := s.sessions[id := Entry(k, r.headers, file, r, checked)], owners := s.owners[id := k])
    case Play(_, r, id) =>
      // a whole play rewrites the kept headers, even if sending then fails
      if id !in s.sessions || id in s.closed then s
      else
        var e := s.sessions[id];
        s.(sessions := s.sessions[id := e.(headers := HeadersAfter(e.headers, e.file, Find(r.headers, "Range")))])
    case Close(_, _, id) =>
      if id !in s.sessions then s
      else
        var k := s.sessions[id].sock;
        s.(closed := s.closed + {id},
           closings := s.closings + [id],
           conns := if k in s.conns then s.conns[k := s.conns[k].(open := false)] else s.conns)
    case Pop(_, _, id) =>
      if id !in s.sessions then s
      else s.(sessions := s.sessions - {id}, popped := s.popped + {id})
    case _ => s
  }

  function At(s: State, w: nat, pc: Pc): State
    requires w < |s.workers|
  {
    s.(workers := s.workers[w := pc])
  }

  /** Sending on a closed connection is an uncaught error. */
  function Answer(s: State, w: nat, k: Sock, r: Response, next: Pc): (t: State)
    requires w < |s.workers|
    ensures |t.workers| == |s.workers|
  {
    if k in s.conns && s.conns[k].open then
      At(s, w, next).(conns := s.conns[k := s.conns[k].(answers := s.conns[k].answers + [r])])
    else
      At(s, w, Dead)
  }

  /** One step of worker w on its own. */
  function Advance(world: World, s: State, w: nat): (t: State)
    requires w < |s.workers| && HasSock(s.workers[w])
    ensures |t.workers| == |s.workers|
  {
    var pc := s.workers[w];
    match Act(world, s, pc)
    case Move(next) => At(Touch(s, pc), w, next)
    case Send(reply, next) => Answer(Touch(s, pc), w, pc.sock, reply, next)
  }

  predicate Moves(pc: Pc) { !pc.Idle? && !pc.Waiting? && !pc.NewId? && !pc.Dead? }

  /** Steps that send, where the connection may turn out to be reset. */
  predicate Sends(pc: Pc) {
    || pc.Waiting? || pc.Dispatch? || pc.HasTransport? || pc.HasKey? || pc.CompareKey? || pc.Open?
    || pc.ReplySetup? || pc.HasSession? || pc.IsMember? || pc.IsOwner? || pc.Play? || pc.ReplyTeardown?
  }

  predicate Enabled(s: State, e: Event) {
    match e
    case Accept(w, k) => w < |s.workers| && s.workers[w].Idle? && k !in s.conns
    case Read(w, r) => w < |s.workers| && s.workers[w].Waiting? && IsDict(r.headers) && s.workers[w].sock in s.conns
    case BadHead(w) => w < |s.workers| && s.workers[w].Waiting? && s.workers[w].sock in s.conns
    case Reset(w) => w < |s.workers| && Sends(s.workers[w]) && s.workers[w].sock in s.conns
    case GiveId(w, id) => w < |s.workers| && s.workers[w].NewId? && id !in s.issued
    case Go(w) => w < |s.workers| && Moves(s.workers[w])
    case EnableAuth => true
    case AddAuth(_) => true
  }

  function Next(world: World, s: State, e: Event): (t: State)
    requires Enabled(s, e)
    ensures |t.workers| == |s.workers|
  {
    match e
    case Accept(w, k) => At(s, w, Waiting(k)).(conns := s.conns[k := Conn(true, w, [], [], false)])
    case Read(w, r) =>
      var k := s.workers[w].sock;
      At(s, w, Dispatch(k, r)).(conns := s.conns[k := s.conns[k].(asked := s.conns[k].asked + [r])])
    case BadHead(w) =>
      var k := s.workers[w].sock;
      At(s, w, Dead).(conns := s.conns[k := s.conns[k].(broken := true)])
    case Reset(w) =>
      var pc := s.workers[w];
      var s' := if pc.Play? then Touch(s, pc) else s;
      At(s', w, Idle).(conns := s.conns[pc.sock := s.conns[pc.sock].(open := false, broken := true)])
    case GiveId(w, id) =>
      var pc := s.workers[w];
      At(s, w, Open(pc.sock, pc.req, pc.checked, id)).(issued := s.issued[id := w])
    case Go(w) => Advance(world, s, w)
    case EnableAuth => s.(useAuth := true)
    case AddAuth(key) => s.(auths := s.auths + [key])
  }

  function Initial(n: nat): State {
    State(seq(n, _ => Idle), map[], false, [], map[], {}, map[], map[], {}, [])
  }

  /** The run from s by these events, if every one of them is possible in its turn. */
  function Run(world: World, s: State, es: seq<Event>): Option<State>
    decreases |es|
  {
    if es == [] then Some(s)
    else if Enabled(s, es[0]) then Run(world, Next(world, s, es[0]), es[1..])
    else None
  }

  // ----- the invariant -----

  predicate HasSock(pc: Pc) { !pc.Idle? && !pc.Dead? }

  /** Between generating an id and inserting its session. */
  predicate Holds(pc: Pc) { pc.Open? || pc.Insert? }

  /** After the ownership check, or after inserting. */
  predicate Owns(pc: Pc) { pc.ReplySetup? || pc.Play? || pc.ReplyTeardown? || pc.Close? || pc.Pop? }

  /** Working on a request. */
  predicate Carries(pc: Pc) { HasSock(pc) && !pc.Waiting? }

  /** In a SETUP whose transport was found. */
  predicate PastTransport(pc: Pc) {
    pc.ReadFlag? || pc.HasKey? || pc.CompareKey? || pc.NewId? || pc.Open? || pc.Insert? || pc.ReplySetup?
  }

  /** A request was read and not answered yet. */
  predicate Owes(pc: Pc) { HasSock(pc) && !pc.Waiting? && !pc.Close? && !pc.Pop? }

  ghost predicate WorkerOk(s: State, w: nat)
    requires w < |s.workers|
  {
    var pc := s.workers[w];
    && (HasSock(pc) ==> pc.sock in s.conns && s.conns[pc.sock].worker == w && (s.conns[pc.sock].open <==> !pc.Pop?))
    && (HasSock(pc) ==> |s.conns[pc.sock].asked| == |s.conns[pc.sock].answers| + if Owes(pc) then 1 else 0)
    && (Holds(pc) ==> pc.id in s.issued && s.issued[pc.id] == w && pc.id !in s.owners)
    && (Owns(pc) ==> pc.id in s.sessions && s.sessions[pc.id].sock == pc.sock)
    && (pc.IsOwner? ==> pc.id in s.owners)
    && (pc.Pop? ==> pc.id in s.closed)
    && (Carries(pc) ==> IsDict(pc.req.headers))
    && (PastTransport(pc) ==> Has(pc.req.headers, "Transport"))
  }

  ghost predicate IdOk(s: State, id: Id) {
    && (id in s.owners <==> id in s.sessions || id in s.popped)
    && !(id in s.sessions && id in s.popped)
    && (id in s.owners ==> id in s.issued && s.owners[id] in s.conns)
    && (id in s.sessions ==> s.sessions[id].sock == s.owners[id] && IsDict(s.sessions[id].headers))
    && (id in s.popped ==> id in s.closed && !s.conns[s.owners[id]].open)
    && (id in s.closed ==> id in s.owners)
    && (id in s.closed && id in s.sessions ==>
          var w := s.conns[s.owners[id]].worker;
          w < |s.workers| && s.workers[w].Pop? && s.workers[w].id == id && s.workers[w].sock == s.owners[id])
    && (id in s.closed <==> id in s.closings)
  }

  ghost predicate ConnOk(s: State, k: Sock)
    requires k in s.conns
  {
    |s.conns[k].answers| <= |s.conns[k].asked| <= |s.conns[k].answers| + 1
  }

  predicate NoRepeat(ids: seq<Id>) { forall i, j | 0 <= i < j < |ids| :: ids[i] != ids[j] }

  ghost predicate Inv(s: State) {
    && (forall w: nat | w < |s.workers| :: WorkerOk(s, w))
    && (forall id: Id :: IdOk(s, id))
    && (forall k | k in s.conns :: ConnOk(s, k))
    && NoRepeat(s.closings)
  }

  lemma InitialInv(n: nat)
    ensures Inv(Initial(n))
  {
  }

  /** A step that only moves worker w, to a place where it may be. */
  lemma MoveKeeps(s: State, w: nat, pc: Pc)
    requires Inv(s) && w < |s.workers| && !s.workers[w].Pop?
    requires WorkerOk(At(s, w, pc), w)
    ensures Inv(At(s, w, pc))
  {
    var t := At(s, w, pc);
    forall v: nat | v < |t.workers| ensures WorkerOk(t, v) {
      assert WorkerOk(s, v);
    }
    forall id: Id ensures IdOk(t, id) {
      assert IdOk(s, id);
    }
    assert forall k | k in t.conns :: ConnOk(s, k) && ConnOk(t, k);
  }

  /** A worker that owes a reply sends it and waits for the next request, or goes on to close its session, or
  stops when the body cannot be read. */
  lemma AnswerKeeps(s: State, w: nat, r: Response, next: Pc)
    requires Inv(s) && w < |s.workers| && Owes(s.workers[w])
    requires var pc := s.workers[w];
      || next == Waiting(pc.sock) || (pc.ReplyTeardown? && next == Close(pc.sock, pc.req, pc.id))
      || (pc.Play? && next == Dead)
    ensures Answer(s, w, s.workers[w].sock, r, next).workers[w] == next
    ensures Inv(Answer(s, w, s.workers[w].sock, r, next))
  {
    assert WorkerOk(s, w);
    var k := s.workers[w].sock;
    var t := Answer(s, w, k, r, next);
    forall v: nat | v < |t.workers| ensures WorkerOk(t, v) {
      assert WorkerOk(s, v);
    }
    forall id: Id ensures IdOk(t, id) {
      assert IdOk(s, id);
    }
    forall k' | k' in t.conns ensures ConnOk(t, k') {
      assert ConnOk(s, k');
    }
  }

  lemma AcceptKeeps(s: State, w: nat, k: Sock)
    requires Inv(s) && w < |s.workers| && s.workers[w].Idle? && k !in s.conns
    ensures Inv(At(s, w, Waiting(k)).(conns := s.conns[k := Conn(true, w, [], [], false)]))
  {
    var t := At(s, w, Waiting(k)).(conns := s.conns[k := Conn(true, w, [], [], false)]);
    forall v: nat | v < |t.workers| ensures WorkerOk(t, v) {
      assert WorkerOk(s, v);
    }
    forall id: Id ensures IdOk(t, id) {
      assert IdOk(s, id);
    }
    forall k' | k' in t.conns ensures ConnOk(t, k') {
      assert k' != k ==> ConnOk(s, k');
    }
  }

  lemma ReadKeeps(world: World, s: State, w: nat, r: Request)
    requires Inv(s) && Enabled(s, Read(w, r))
    ensures Inv(Next(world, s, Read(w, r)))
  {
    hide Advance, Touch;
    assert WorkerOk(s, w);
    var t := Next(world, s, Read(w, r));
    forall v: nat | v < |t.workers| ensures WorkerOk(t, v) {
      assert WorkerOk(s, v);
    }
    forall id: Id ensures IdOk(t, id) {
      ReadIds(world, s, w, r, id);
    }
    forall k | k in t.conns ensures ConnOk(t, k) {
      assert ConnOk(s, k);
    }
  }

  lemma ReadIds(world: World, s: State, w: nat, r: Request, id: Id)
    requires Enabled(s, Read(w, r)) && IdOk(s, id)
    ensures IdOk(Next(world, s, Read(w, r)), id)
  {
  }

  lemma ResetKeeps(world: World, s: State, w: nat)
    requires Inv(s) && Enabled(s, Reset(w))
    ensures Inv(Next(world, s, Reset(w)))
  {
    var pc := s.workers[w];
    assert WorkerOk(s, w);
    if pc.Play? {
      assert IdOk(s, pc.id);
      TouchPlayKeeps(s, w);
      HangUpKeeps(Touch(s, pc), w);
    } else {
      HangUpKeeps(s, w);
    }
  }

  lemma HangUpKeeps(s: State, w: nat)
    requires Inv(s) && w < |s.workers| && Sends(s.workers[w]) && s.workers[w].sock in s.conns
    ensures var k := s.workers[w].sock;
      Inv(At(s, w, Idle).(conns := s.conns[k := s.conns[k].(open := false, broken := true)]))
  {
    assert WorkerOk(s, w);
    var k := s.workers[w].sock;
    var t := At(s, w, Idle).(conns := s.conns[k := s.conns[k].(open := false, broken := true)]);
    forall v: nat | v < |t.workers| ensures WorkerOk(t, v) {
      HangUpWorkers(s, w, v);
    }
    forall id: Id ensures IdOk(t, id) {
      HangUpIds(s, w, id);
    }
    forall k' | k' in t.conns ensures ConnOk(t, k') {
      assert ConnOk(s, k');
    }
  }

  lemma HangUpWorkers(s: State, w: nat, v: nat)
    requires w < |s.workers| && v < |s.workers| && WorkerOk(s, w) && WorkerOk(s, v)
    requires Sends(s.workers[w]) && s.workers[w].sock in s.conns
    ensures var k := s.workers[w].sock;
      WorkerOk(At(s, w, Idle).(conns := s.conns[k := s.conns[k].(open := false, broken := true)]), v)
  {
  }

  lemma HangUpIds(s: State, w: nat, id: Id)
    requires IdOk(s, id) && w < |s.workers| && Sends(s.workers[w]) && s.workers[w].sock in s.conns
    ensures var k := s.workers[w].sock;
      IdOk(At(s, w, Idle).(conns := s.conns[k := s.conns[k].(open := false, broken := true)]), id)
  {
  }

  lemma BadHeadKeeps(world: World, s: State, w: nat)
    requires Inv(s) && Enabled(s, BadHead(w))
    ensures Inv(Next(world, s, BadHead(w)))
  {
    hide Advance, Touch;
    assert WorkerOk(s, w);
    var t := Next(world, s, BadHead(w));
    forall v: nat | v < |t.workers| ensures WorkerOk(t, v) {
      assert WorkerOk(s, v);
    }
    forall id: Id ensures IdOk(t, id) {
      assert IdOk(s, id);
    }
    forall k | k in t.conns ensures ConnOk(t, k) {
      assert ConnOk(s, k);
    }
  }

  lemma GiveIdKeeps(world: World, s: State, w: nat, id: Id)
    requires Inv(s) && Enabled(s, GiveId(w, id))
    ensures Inv(Next(world, s, GiveId(w, id)))
  {
    hide Advance, Touch;
    assert WorkerOk(s, w);
    assert IdOk(s, id);
    var t := Next(world, s, GiveId(w, id));
    forall v: nat | v < |t.workers| ensures WorkerOk(t, v) {
      assert WorkerOk(s, v);
    }
    forall i: Id ensures IdOk(t, i) {
      assert IdOk(s, i);
    }
    assert forall k | k in t.conns :: ConnOk(s, k) && ConnOk(t, k);
  }

  lemma InsertKeeps(world: World, s: State, w: nat)
    requires Inv(s) && w < |s.workers| && s.workers[w].Insert?
    ensures Inv(Advance(world, s, w))
  {
    hide FileOf, PlayReply, Accepted;
    assert WorkerOk(s, w);
    var pc := s.workers[w];
    assert IdOk(s, pc.id);
    var t := Advance(world, s, w);
    forall v: nat | v < |t.workers| ensures WorkerOk(t, v) {
      assert WorkerOk(s, v);
    }
    forall id: Id ensures IdOk(t, id) {
      assert IdOk(s, id);
    }
    assert forall k | k in t.conns :: ConnOk(s, k) && ConnOk(t, k);
  }

  lemma CloseKeeps(world: World, s: State, w: nat)
    requires Inv(s) && w < |s.workers| && s.workers[w].Close?
    ensures Inv(Advance(world, s, w))
  {
    hide FileOf, PlayReply, Accepted;
    assert WorkerOk(s, w);
    var pc := s.workers[w];
    assert IdOk(s, pc.id);
    var t := Advance(world, s, w);
    forall v: nat | v < |t.workers| ensures WorkerOk(t, v) {
      assert WorkerOk(s, v);
    }
    forall id: Id ensures IdOk(t, id) {
      assert IdOk(s, id);
    }
    assert forall k | k in t.conns :: ConnOk(s, k) && ConnOk(t, k);
  }

  lemma PopKeeps(world: World, s: State, w: nat)
    requires Inv(s) && w < |s.workers| && s.workers[w].Pop?
    ensures Inv(Advance(world, s, w))
  {
    hide FileOf, PlayReply, Accepted;
    assert WorkerOk(s, w);
    var id := s.workers[w].id;
    assert IdOk(s, id);
    var t := At(s, w, Idle).(sessions := s.sessions - {id}, popped := s.popped + {id});
    forall v: nat | v < |t.workers| ensures WorkerOk(t, v) {
      assert WorkerOk(s, v);
    }
    forall i: Id ensures IdOk(t, i) {
      assert IdOk(s, i);
    }
    assert forall k | k in t.conns :: ConnOk(s, k) && ConnOk(t, k);
  }

  /** Rewriting the kept headers of one session. */
  lemma HeadersKeep(s: State, id: Id, h: HeaderMap)
    requires Inv(s) && id in s.sessions && IsDict(h)
    ensures Inv(s.(sessions := s.sessions[id := s.sessions[id].(headers := h)]))
  {
    var t := s.(sessions := s.sessions[id := s.sessions[id].(headers := h)]);
    assert IdOk(s, id);
    forall v: nat | v < |t.workers| ensures WorkerOk(t, v) {
      assert WorkerOk(s, v);
    }
    forall i: Id ensures IdOk(t, i) {
      assert IdOk(s, i);
    }
    assert forall k | k in t.conns :: ConnOk(s, k) && ConnOk(t, k);
  }

  lemma TouchPlayKeeps(s: State, w: nat)
    requires Inv(s) && w < |s.workers| && s.workers[w].Play?
    ensures Inv(Touch(s, s.workers[w]))
  {
    assert WorkerOk(s, w);
    var pc := s.workers[w];
    assert IdOk(s, pc.id);
    if pc.id !in s.closed {
      var e := s.sessions[pc.id];
      WholeHeadersDict(e.headers, |e.file|);
      HeadersKeep(s, pc.id, HeadersAfter(e.headers, e.file, Find(pc.req.headers, "Range")));
    }
  }

  lemma PlayKeeps(world: World, s: State, w: nat)
    requires Inv(s) && w < |s.workers| && s.workers[w].Play?
    ensures Inv(Advance(world, s, w))
  {
    hide FileOf, Accepted, HeadersAfter, PlayReply;
    var pc := s.workers[w];
    var s' := Touch(s, pc);
    assert WorkerOk(s, w);
    TouchPlayKeeps(s, w);
    match Act(world, s, pc)
    case Move(next) => MoveKeeps(s', w, Dead);
    case Send(reply, next) => AnswerKeeps(s', w, reply, next);
  }

  lemma DispatchKeeps(world: World, s: State, w: nat)
    requires Inv(s) && w < |s.workers| && s.workers[w].Dispatch?
    ensures Inv(Advance(world, s, w))
  {
    hide FileOf, PlayReply, Accepted;
    assert WorkerOk(s, w);
    hide Inv;
    var pc := s.workers[w];
    var r := pc.req;
    if r.verb == "OPTIONS" {
      AnswerKeeps(s, w, Plain(200, "OK", []), Waiting(pc.sock));
    } else if r.verb == "SETUP" {
      MoveKeeps(s, w, HasTransport(pc.sock, r));
    } else if r.verb == "PLAY" || r.verb == "TEARDOWN" {
      MoveKeeps(s, w, HasSession(pc.sock, r));
    } else {
      AnswerKeeps(s, w, Plain(400, "Bad Request", []), Waiting(pc.sock));
    }
  }

  lemma HasTransportKeeps(world: World, s: State, w: nat)
    requires Inv(s) && w < |s.workers| && s.workers[w].HasTransport?
    ensures Inv(Advance(world, s, w))
  {
    hide FileOf, PlayReply, Accepted;
    assert WorkerOk(s, w);
    hide Inv;
    var pc := s.workers[w];
    if Has(pc.req.headers, "Transport") {
      MoveKeeps(s, w, ReadFlag(pc.sock, pc.req));
    } else {
      AnswerKeeps(s, w, Plain(461, "Transport Not Found", []), Waiting(pc.sock));
    }
  }

  lemma ReadFlagKeeps(world: World, s: State, w: nat)
    requires Inv(s) && w < |s.workers| && s.workers[w].ReadFlag?
    ensures Inv(Advance(world, s, w))
  {
    hide FileOf, PlayReply, Accepted;
    assert WorkerOk(s, w);
    hide Inv;
    var pc := s.workers[w];
    MoveKeeps(s, w, if s.useAuth then HasKey(pc.sock, pc.req) else NewId(pc.sock, pc.req, false));
  }

  lemma HasKeyKeeps(world: World, s: State, w: nat)
    requires Inv(s) && w < |s.workers| && s.workers[w].HasKey?
    ensures Inv(Advance(world, s, w))
  {
    hide FileOf, PlayReply, Accepted;
    assert WorkerOk(s, w);
    hide Inv;
    var pc := s.workers[w];
    if Has(pc.req.headers, "Authorization") {
      MoveKeeps(s, w, CompareKey(pc.sock, pc.req));
    } else {
      AnswerKeeps(s, w, Plain(401, "Unauthorized", [("WWW-Authenticate", "Basic realm=\"dian\"")]), Waiting(pc.sock));
    }
  }

  lemma CompareKeyKeeps(world: World, s: State, w: nat)
    requires Inv(s) && w < |s.workers| && s.workers[w].CompareKey?
    ensures Inv(Advance(world, s, w))
  {
    hide FileOf, PlayReply, Accepted;
    assert WorkerOk(s, w);
    hide Inv;
    var pc := s.workers[w];
    if Accepted(s.auths, pc.req) {
      MoveKeeps(s, w, NewId(pc.sock, pc.req, true));
    } else {
      AnswerKeeps(s, w, Plain(403, "Forbidden", []), Waiting(pc.sock));
    }
  }

  lemma OpenActs(world: World, s: State, pc: Pc)
    requires pc.Open?
    ensures match Act(world, s, pc)
      case Send(_, next) => next == Waiting(pc.sock)
      case Move(next) =>
        next.Dead? || (next.Insert? && next.sock == pc.sock && next.req == pc.req && next.id == pc.id)
  {
  }

  lemma OpenKeeps(world: World, s: State, w: nat)
    requires Inv(s) && w < |s.workers| && s.workers[w].Open?
    ensures Inv(Advance(world, s, w))
  {
    hide FileOf, PlayReply, Accepted;
    assert WorkerOk(s, w);
    hide Inv;
    OpenActs(world, s, s.workers[w]);
    var a := Act(world, s, s.workers[w]);
    if a.Move? {
      MoveKeeps(s, w, a.next);
    } else {
      AnswerKeeps(s, w, a.reply, a.next);
    }
  }

  lemma ReplySetupKeeps(world: World, s: State, w: nat)
    requires Inv(s) && w < |s.workers| && s.workers[w].ReplySetup?
    ensures Inv(Advance(world, s, w))
  {
    hide FileOf, PlayReply, Accepted;
    assert WorkerOk(s, w);
    hide Inv;
    var pc := s.workers[w];
    AnswerKeeps(s, w, SetupReply(world, pc.id, Find(pc.req.headers, "Transport").value), Waiting(pc.sock));
  }

  lemma HasSessionKeeps(world: World, s: State, w: nat)
    requires Inv(s) && w < |s.workers| && s.workers[w].HasSession?
    ensures Inv(Advance(world, s, w))
  {
    hide FileOf, PlayReply, Accepted, Raises, HeadersAfter, IdOk, ConnOk;
    assert WorkerOk(s, w);
    hide Inv;
    var pc := s.workers[w];
    var text := Find(pc.req.headers, "Session");
    if text.None? {
      AnswerKeeps(s, w, Plain(453, "Session Not Found", []), Waiting(pc.sock));
    } else {
      var id := world.idOf(text.value);
      MoveKeeps(s, w, if id.None? then Dead else IsMember(pc.sock, pc.req, id.value));
    }
  }

  lemma IsMemberKeeps(world: World, s: State, w: nat)
    requires Inv(s) && w < |s.workers| && s.workers[w].IsMember?
    ensures Inv(Advance(world, s, w))
  {
    hide FileOf, PlayReply, Accepted;
    assert WorkerOk(s, w);
    var pc := s.workers[w];
    assert IdOk(s, pc.id);
    hide Inv;
    if pc.id in s.sessions {
      MoveKeeps(s, w, IsOwner(pc.sock, pc.req, pc.id));
    } else {
      AnswerKeeps(s, w, Plain(454, "Session Not Found", []), Waiting(pc.sock));
    }
  }

  lemma IsOwnerKeeps(world: World, s: State, w: nat)
    requires Inv(s) && w < |s.workers| && s.workers[w].IsOwner?
    ensures Inv(Advance(world, s, w))
  {
    hide FileOf, PlayReply, Accepted, Raises, HeadersAfter, IdOk, ConnOk;
    assert WorkerOk(s, w);
    hide Inv;
    var pc := s.workers[w];
    if pc.id !in s.sessions {
      MoveKeeps(s, w, Dead);
    } else if s.sessions[pc.id].sock != pc.sock {
      AnswerKeeps(s, w, Plain(455, "Session Not Current", []), Waiting(pc.sock));
    } else {
      MoveKeeps(s, w, if pc.req.verb == "PLAY" then Play(pc.sock, pc.req, pc.id)
                      else ReplyTeardown(pc.sock, pc.req, pc.id));
    }
  }

  lemma ReplyTeardownKeeps(world: World, s: State, w: nat)
    requires Inv(s) && w < |s.workers| && s.workers[w].ReplyTeardown?
    ensures Inv(Advance(world, s, w))
  {
    hide FileOf, PlayReply, Accepted;
    assert WorkerOk(s, w);
    hide Inv;
    var pc := s.workers[w];
    AnswerKeeps(s, w, Plain(200, "OK", []), Close(pc.sock, pc.req, pc.id));
  }

  lemma AdvanceKeeps(world: World, s: State, w: nat)
    requires Inv(s) && w < |s.workers| && Moves(s.workers[w])
    ensures Inv(Advance(world, s, w))
  {
    match s.workers[w]
    case Insert(_, _, _, _, _) => InsertKeeps(world, s, w);
    case Play(_, _, _) => PlayKeeps(world, s, w);
    case Close(_, _, _) => CloseKeeps(world, s, w);
    case Pop(_, _, _) => PopKeeps(world, s, w);
    case Dispatch(_, _) => DispatchKeeps(world, s, w);
    case HasTransport(_, _) => HasTransportKeeps(world, s, w);
    case ReadFlag(_, _) => ReadFlagKeeps(world, s, w);
    case HasKey(_, _) => HasKeyKeeps(world, s, w);
    case CompareKey(_, _) => CompareKeyKeeps(world, s, w);
    case Open(_, _, _, _) => OpenKeeps(world, s, w);
    case ReplySetup(_, _, _) => ReplySetupKeeps(world, s, w);
    case HasSession(_, _) => HasSessionKeeps(world, s, w);
    case IsMember(_, _, _) => IsMemberKeeps(world, s, w);
    case IsOwner(_, _, _) => IsOwnerKeeps(world, s, w);
    case ReplyTeardown(_, _, _) => ReplyTeardownKeeps(world, s, w);
    case _ =>
  }

  lemma InvNext(world: World, s: State, e: Event)
    requires Inv(s) && Enabled(s, e)
    ensures Inv(Next(world, s, e))
  {
    match e
    case Accept(w, k) => AcceptKeeps(s, w, k);
    case Read(w, r) => ReadKeeps(world, s, w, r);
    case BadHead(w) => BadHeadKeeps(world, s, w);
    case Reset(w) => ResetKeeps(world, s, w);
    case GiveId(w, id) => GiveIdKeeps(world, s, w, id);
    case Go(w) => AdvanceKeeps(world, s, w);
    case EnableAuth => SameTable(s, s.(useAuth := true));
    case AddAuth(key) => SameTable(s, s.(auths := s.auths + [key]));
  }

  lemma SameTable(s: State, t: State)
    requires Inv(s) && t == s.(useAuth := t.useAuth, auths := t.auths)
    ensures Inv(t)
  {
    forall v: nat | v < |t.workers| ensures WorkerOk(t, v) { assert WorkerOk(s, v); }
    forall id: Id ensures IdOk(t, id) { assert IdOk(s, id); }
    assert forall k | k in t.conns :: ConnOk(s, k) && ConnOk(t, k);
  }
}
