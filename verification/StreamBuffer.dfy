/** The growable stream buffer: one array, a get and a put area in it, and a maximum size.

The two areas are offsets into the array.  The buffer is a queue of characters: what is
between the get and the put pointer is its content.
*/
module StreamBuffer {
  import opened Wrappers

  const BUFFER_DELTA: nat := 128

  // ----- the plain queue that the buffer must behave like -----

  /** One use of the buffer.  Receive prepares room for want characters, writes data there and commits
  n of them; Peek is underflow. */
  datatype Op = Receive(want: nat, data: seq<char>, n: nat) | Put(c: char) | Consume(n: nat) | Peek

  /** A caller writes no more than it has room for, and commits no more than it wrote. */
  predicate Proper(op: Op) { op.Receive? ==> op.n <= |op.data| <= op.want }

  /** What the caller sees; Refused is the length error. */
  datatype Answer = Accepted | Refused | Head(c: Option<char>)

  function AnswerTo(content: seq<char>, maxSize: nat, op: Op): Answer {
    match op
    case Receive(want, _, _) => if |content| + want <= maxSize then Accepted else Refused
    case Put(_) => if |content| < maxSize then Accepted else Refused
    case Consume(_) => Accepted
    case Peek => Head(if content == [] then None else Some(content[0]))
  }

  function Appended(content: seq<char>, maxSize: nat, op: Op): seq<char>
    requires Proper(op)
  {
    if AnswerTo(content, maxSize, op).Refused? then []
    else
      match op
      case Receive(_, data, n) => data[..n]
      case Put(c) => [c]
      case _ => []
  }

  function Taken(content: seq<char>, op: Op): seq<char> {
    if op.Consume? then content[..Min(op.n, |content|)] else []
  }

  /** The content after a refused prepare, which has moved the bytes down by the get offset. */
  function Slipped(content: seq<char>, gap: nat): seq<char> {
    if gap >= |content| then content else content[gap..] + content[|content|-gap..]
  }

  /** The queue, with the offset at which its content starts and the one at which its room ends. */
  datatype Queue = Queue(content: seq<char>, start: nat, end: nat)

  /** Room for n more: there already, or by starting at zero, or by growing; or refused. */
  function Reserved(q: Queue, maxSize: nat, n: nat): Queue {
    var size := |q.content|;
    if q.start + size + n <= q.end then q
    else if size + n <= q.end then q.(start := 0)
    else if size + n <= maxSize then q.(start := 0, end := size + n)
    else q.(content := Slipped(q.content, q.start))
  }

  /** Room that is there is left as it is; otherwise the content starts at zero, and the room ends where it did or just
  after what was asked for. */
  lemma ReservedMakesRoom(q: Queue, maxSize: nat, n: nat)
    requires q.start + |q.content| <= q.end <= maxSize && |q.content| + n <= maxSize
    ensures var r := Reserved(q, maxSize, n);
      && r.content == q.content && r.start + |r.content| + n <= r.end <= maxSize
      && (r == q || (r.start == 0 && (r.end == q.end || r.end == |q.content| + n)))
      && (r == q <== n <= q.end - q.start - |q.content|) && (r.end == q.end <== |q.content| + n <= q.end)
  {
  }

  /** A character without room makes the buffer grow by a whole step, or to its maximum. */
  lemma GrowsByAStep(size: nat, maxSize: nat)
    requires size < maxSize
    ensures size + Growth(size, maxSize) == Min(size + 128, maxSize)
  {
  }

  /** How much room is asked for when a single character finds none. */
  function Growth(size: nat, maxSize: nat): nat {
    if size < maxSize && maxSize - size < BUFFER_DELTA then maxSize - size else BUFFER_DELTA
  }

  function Apply(q: Queue, maxSize: nat, op: Op): Queue
    requires Proper(op)
  {
    var refused := AnswerTo(q.content, maxSize, op).Refused?;
    match op
    case Receive(want, data, n) =>
      var room := Reserved(q, maxSize, want);
      if refused then room else room.(content := room.content + data[..n])
    case Put(c) =>
      var size := |q.content|;
      var room := if q.start + size == q.end then Reserved(q, maxSize, Growth(size, maxSize)) else q;
      if refused then q else room.(content := room.content + [c])
    case Consume(n) =>
      var k := Min(n, |q.content|);
      q.(content := q.content[k..], start := q.start + k)
    case Peek => q
  }

  predicate AllProper(ops: seq<Op>) { forall i | 0 <= i < |ops| :: Proper(ops[i]) }

  function After(q: Queue, maxSize: nat, ops: seq<Op>): Queue
    requires AllProper(ops)
  {
    if ops == [] then q else Apply(After(q, maxSize, ops[..|ops|-1]), maxSize, ops[|ops|-1])
  }

  /** What the caller sees of a whole run. */
  function Answers(q: Queue, maxSize: nat, ops: seq<Op>): (answers: seq<Answer>)
    requires AllProper(ops)
    ensures |answers| == |ops|
  {
    if ops == [] then []
    else
      var front := ops[..|ops|-1];
      Answers(q, maxSize, front) + [AnswerTo(After(q, maxSize, front).content, maxSize, ops[|ops|-1])]
  }

  // ----- the bytes of the array -----

  /** The array after its first p bytes were moved down by g, the rest left as it was. */
  function Shifted(s: seq<char>, g: nat, p: nat): seq<char>
    requires g <= p <= |s|
  {
    s[g..p] + s[p-g..]
  }

  /** Moving the content down without moving the pointers keeps what they delimit only if it repeats with period g. */
  lemma ShiftKeepsExactly(s: seq<char>, g: nat, p: nat)
    requires g <= p <= |s|
    ensures |Shifted(s, g, p)| == |s|
    ensures Shifted(s, g, p)[g..p] == s[g..p] <==> forall i | 0 <= i < |s[g..p]| - g :: s[g..p][i] == s[g..p][i+g]
  {
    var t, c := Shifted(s, g, p), s[g..p];
    assert forall i | 0 <= i < p - g :: t[g..p][i] == if i + g < p - g then c[i+g] else c[i];
  }

  lemma ShiftSlips(s: seq<char>, g: nat, p: nat)
    requires g <= p <= |s|
    ensures |Shifted(s, g, p)| == |s| && Shifted(s, g, p)[g..p] == Slipped(s[g..p], g)
  {
  }

  lemma ShiftedFront(s: seq<char>, g: nat, p: nat)
    requires g <= p <= |s|
    ensures |Shifted(s, g, p)| == |s| && Shifted(s, g, p)[..p-g] == s[g..p]
    ensures g == 0 ==> Shifted(s, g, p) == s
  {
  }

  /** memmove to the start of the array, the two stretches possibly overlapping. */
  method MoveToStart(a: array<char>, g: nat, p: nat)
    requires g <= p <= a.Length
    modifies a
    ensures a[..] == Shifted(old(a[..]), g, p)
  {
    ghost var was := a[..];
    var i := 0;
    while i < p - g
      invariant 0 <= i <= p - g
      invariant forall k | 0 <= k < i :: a[k] == was[k+g]
      invariant forall k | i <= k < a.Length :: a[k] == was[k]
    {
      a[i] := a[i+g];
      i := i + 1;
    }
    assert a[..] == Shifted(was, g, p);
  }

  class BasicStreambuf {
    const maxSize: nat
    var buffer: array<char>
    var gptr: nat
    var egptr: nat
    var pptr: nat
    var epptr: nat

    predicate Valid()
      reads this
    {
      gptr <= egptr <= pptr <= epptr <= maxSize && buffer.Length == Max(epptr, 1)
    }

    function Contents(): seq<char>
      requires Valid()
      reads this, buffer
    {
      buffer[gptr..pptr]
    }

    constructor (maxSize: nat)
      ensures Valid() && fresh(buffer) && this.maxSize == maxSize
      ensures State() == Queue([], 0, Min(maxSize, 128))
    {
      var pend := Min(maxSize, BUFFER_DELTA);
      this.maxSize := maxSize;
      buffer := new char[Max(pend, 1)];
      gptr, egptr, pptr, epptr := 0, 0, 0, pend;
    }

    function State(): Queue
      requires Valid()
      reads this, buffer
    {
      Queue(Contents(), gptr, epptr)
    }

    function Size(): (n: nat)
      requires Valid()
      reads this, buffer
      ensures n == |Contents()| && n <= maxSize
    {
      pptr - gptr
    }

    /** vector::resize: the old bytes are kept, the new ones are zero. */
    method Resize(n: nat, ghost kept: nat)
      requires n >= buffer.Length >= kept
      modifies this`buffer
      ensures fresh(buffer) && buffer.Length == n
      ensures buffer[..old(buffer.Length)] == old(buffer[..]) && buffer[..kept] == old(buffer[..kept])
    {
      var small := buffer;
      var a := new char[n](_ => '\0');
      var i := 0;
      while i < small.Length
        invariant 0 <= i <= small.Length
        invariant forall k | 0 <= k < i :: a[k] == small[k]
      {
        a[i] := small[i];
        i := i + 1;
      }
      buffer := a;
    }

    /** The content is moved to the start of the array; the offsets are not touched. */
    method Compact()
      requires Valid()
      modifies buffer
      ensures buffer[..] == Shifted(old(buffer[..]), gptr, pptr)
      ensures buffer[..pptr-gptr] == old(Contents())
    {
      ShiftedFront(buffer[..], gptr, pptr);
      ghost var was := buffer[..];
      if gptr > 0 {
        MoveToStart(buffer, gptr, pptr);
      }
      assert buffer[..pptr-gptr] == buffer[..][..pptr-gptr];
    }

    /** Room for n more characters: there already, or after moving the content, or after growing.
    false is the length error; the content may have been moved by then. */
    method Reserve(n: nat) returns (ok: bool)
      requires Valid()
      modifies this, buffer
      ensures ok <==> old(Size()) + n <= maxSize
      ensures buffer == old(buffer) || fresh(buffer)
      ensures Valid()
      ensures ok ==> Contents() == old(Contents()) && n <= epptr - pptr
      ensures ok ==> State() == Reserved(old(State()), maxSize, n)
      ensures n <= old(epptr - pptr) ==>
        && ok && gptr == old(gptr) && egptr == old(egptr) && pptr == old(pptr) && epptr == old(epptr)
        && buffer == old(buffer) && buffer[..] == old(buffer[..])
      ensures !ok ==> buffer == old(buffer)
      ensures !ok ==> gptr == old(gptr) && egptr == old(egptr) && pptr == old(pptr) && epptr == old(epptr)
      ensures !ok ==> buffer[..] == Shifted(old(buffer[..]), gptr, pptr)
      ensures !ok && gptr == 0 ==> buffer[..] == old(buffer[..])
    {
      hide Slipped, Shifted;
      var gnext, pnext, pend := gptr, pptr, epptr;
      if n <= pend - pnext {
        return true;
      }
      Compact();
      pnext := pnext - gnext;
      if n > pend - pnext {
        if n <= maxSize && pnext <= maxSize - n {
          pend := pnext + n;
          Resize(Max(pend, 1), pnext);
        } else {
          ShiftedFront(old(buffer[..]), gnext, pptr);
          return false;
        }
      }
      assert buffer[..pnext] == old(Contents());
      gptr, egptr, pptr, epptr := 0, pnext, pnext, pend;
      ok := true;
    }

    /** prepare(n): on success the window of n characters starts at the put pointer. */
    method Prepare(n: nat) returns (ok: bool)
      requires Valid()
      modifies this, buffer
      ensures ok <==> old(Size()) + n <= maxSize
      ensures buffer == old(buffer) || fresh(buffer)
      ensures Valid()
      ensures ok ==> Contents() == old(Contents()) && n <= epptr - pptr
      ensures State() == Reserved(old(State()), maxSize, n)
      ensures !ok ==> buffer == old(buffer)
      ensures !ok ==> gptr == old(gptr) && egptr == old(egptr) && pptr == old(pptr) && epptr == old(epptr)
      ensures !ok ==> buffer[..] == Shifted(old(buffer[..]), gptr, pptr)
    {
      ghost var was := buffer[..];
      assert Contents() == was[gptr..pptr];
      ok := Reserve(n);
      if !ok {
        ShiftSlips(was, gptr, pptr);
        assert Contents() == buffer[..][gptr..pptr];
      }
    }

    /** The caller writes into the window it was given. */
    method Fill(data: seq<char>)
      requires Valid() && |data| <= epptr - pptr
      modifies buffer
      ensures Valid() && Contents() == old(Contents()) && buffer[pptr..pptr+|data|] == data
    {
      ghost var before := Contents();
      forall i | 0 <= i < |data| {
        buffer[pptr+i] := data[i];
      }
      assert Contents() == before;
    }

    /** commit(n): the first n characters of the window, or all of it, join the content. */
    method Commit(n: nat)
      requires Valid()
      modifies this
      ensures Valid() && buffer == old(buffer)
      ensures Contents() == old(Contents()) + old(buffer[pptr..pptr + Min(n, epptr - pptr)])
      ensures gptr == old(gptr) && epptr == old(epptr)
    {
      var k := Min(n, epptr - pptr);
      pptr := pptr + k;
      egptr := pptr;
    }

    /** consume(n): the first n characters, or all of them, leave the content. */
    method Take(n: nat)
      requires Valid()
      modifies this
      ensures Valid() && buffer == old(buffer)
      ensures Contents() == old(Contents())[Min(n, old(Size()))..]
      ensures State() == Apply(old(State()), maxSize, Consume(n))
    {
      var k := n;
      if egptr < pptr {
        egptr := pptr;
      }
      if gptr + k > pptr {
        k := pptr - gptr;
      }
      ghost var c := Contents();
      gptr := gptr + k;
      assert Contents() == c[k..];
    }

    /** underflow: the first character of the content, left where it is. */
    method Underflow() returns (c: Option<char>)
      requires Valid()
      modifies this`egptr
      ensures Valid() && State() == old(State())
      ensures c == if Contents() == [] then None else Some(Contents()[0])
    {
      if gptr < pptr {
        egptr := pptr;
        return Some(buffer[gptr]);
      }
      c := None;
    }

    /** overflow(c): appends c, growing if need be; no character is the end-of-file value, which does nothing.
    false is the length error, which changes nothing either. */
    method Overflow(c: Option<char>) returns (ok: bool)
      requires Valid()
      modifies this, buffer
      ensures ok <==> c.None? || old(Size()) < maxSize
      ensures buffer == old(buffer) || fresh(buffer)
      ensures Valid()
      ensures Contents() == old(Contents()) + if ok && c.Some? then [c.value] else []
      ensures State() == if c.Some? then Apply(old(State()), maxSize, Put(c.value)) else old(State())
      ensures !ok ==> gptr == old(gptr) && egptr == old(egptr) && pptr == old(pptr) && epptr == old(epptr)
      ensures !ok ==> buffer == old(buffer) && buffer[..] == old(buffer[..])
    {
      if c.None? {
        return true;
      }
      if pptr == epptr {
        ok := MakeRoom();
        if !ok {
          return;
        }
      }
      PutAt(c.value);
      ok := true;
    }

    /** Room for one more, by asking for a whole step of growth or for what is left. */
    method MakeRoom() returns (ok: bool)
      requires Valid() && pptr == epptr
      modifies this, buffer
      ensures ok <==> old(Size()) < maxSize
      ensures buffer == old(buffer) || fresh(buffer)
      ensures Valid() && (ok ==> pptr < epptr && Contents() == old(Contents()))
      ensures ok ==> State() == Reserved(old(State()), maxSize, Growth(old(Size()), maxSize))
      ensures !ok ==> gptr == old(gptr) && egptr == old(egptr) && pptr == old(pptr) && epptr == old(epptr)
      ensures !ok ==> buffer == old(buffer) && buffer[..] == old(buffer[..])
    {
      hide Slipped, Shifted, Reserved;
      var bufferSize := pptr - gptr;
      var want: nat := BUFFER_DELTA;
      if bufferSize < maxSize && maxSize - bufferSize < BUFFER_DELTA {
        want := maxSize - bufferSize;
      }
      assert want == Growth(Size(), maxSize);
      ok := Reserve(want);
    }

    /** The character goes where the put area begins, which then begins after it. */
    method PutAt(c: char)
      requires Valid() && pptr < epptr
      modifies this`pptr, buffer
      ensures Valid() && State() == old(State()).(content := old(Contents()) + [c])
    {
      ghost var before := Contents();
      buffer[pptr] := c;
      assert Contents() == before;
      pptr := pptr + 1;
      assert Contents() == before + [c];
    }

    /** Prepares room for want characters, receives data there, and commits n of them. */
    method Receive(want: nat, data: seq<char>, n: nat) returns (ok: bool)
      requires Valid() && n <= |data| <= want
      modifies this, buffer
      ensures ok <==> old(Size()) + want <= maxSize
      ensures Valid() && (buffer == old(buffer) || fresh(buffer))
      ensures Contents() == if ok then old(Contents()) + data[..n] else Slipped(old(Contents()), old(gptr))
      ensures State() == Apply(old(State()), maxSize, Op.Receive(want, data, n))
    {
      ok := Prepare(want);
      if ok {
        FillAndCommit(data, n);
      }
    }

    method FillAndCommit(data: seq<char>, n: nat)
      requires Valid() && n <= |data| <= epptr - pptr
      modifies this, buffer
      ensures Valid() && buffer == old(buffer)
      ensures State() == old(State()).(content := old(Contents()) + data[..n])
    {
      Fill(data);
      Prefix(buffer[..], pptr, data, n);
      assert buffer[..][pptr..pptr+n] == buffer[pptr..pptr+n];
      Commit(n);
    }

    /** One operation does to the buffer what it does to the queue, and answers as the queue would. */
    method Do(op: Op) returns (answer: Answer)
      requires Valid() && Proper(op)
      modifies this, buffer
      ensures Valid() && (buffer == old(buffer) || fresh(buffer))
      ensures answer == AnswerTo(old(Contents()), maxSize, op)
      ensures State() == Apply(old(State()), maxSize, op)
    {
      var ok := true;
      match op {
        case Receive(want, data, n) => ok := Receive(want, data, n);
        case Put(c) => ok := Overflow(Some(c));
        case Consume(n) => Take(n);
        case Peek =>
          var c := Underflow();
          return Head(c);
      }
      answer := if ok then Accepted else Refused;
    }

    /** Any run of operations, refused ones included, does to the buffer what it does to the queue; unless a
    refused prepare has changed the content, what was there and what was committed is what was taken
    followed by what is there.  It has not if none was refused after characters were consumed. */
    method Run(ops: seq<Op>) returns (answers: seq<Answer>)
      requires Valid() && AllProper(ops)
      modifies this, buffer
      ensures Valid()
      ensures answers == Answers(old(State()), maxSize, ops)
      ensures State() == After(old(State()), maxSize, ops)
      ensures AllKeep(old(State()), maxSize, ops) || RefusedEarly(old(gptr), ops, answers) ==>
        old(Contents()) + AllAppended(old(State()), maxSize, ops)
        == AllTaken(old(State()), maxSize, ops) + Contents()
    {
      hide After, Answers, Apply, AnswerTo, AllAppended, AllTaken, AllKeep, RefusedEarly;
      answers := [];
      ghost var start := State();
      NoneYet(start, maxSize, ops);
      while |answers| < |ops|
        invariant |answers| <= |ops| && AllProper(ops[..|answers|])
        invariant Valid() && (buffer == old(buffer) || fresh(buffer))
        invariant answers == Answers(start, maxSize, ops[..|answers|])
        invariant State() == After(start, maxSize, ops[..|answers|])
      {
        OneMore(start, maxSize, ops, |answers|);
        var answer := Do(ops[|answers|]);
        answers := answers + [answer];
      }
      assert ops[..|answers|] == ops;
      RunConserves(start, maxSize, ops);
    }
  }

  lemma NoneYet(q: Queue, maxSize: nat, ops: seq<Op>)
    ensures After(q, maxSize, ops[..0]) == q && Answers(q, maxSize, ops[..0]) == []
  {
  }

  lemma OneMore(q: Queue, maxSize: nat, ops: seq<Op>, n: nat)
    requires AllProper(ops) && n < |ops|
    ensures AllProper(ops[..n]) && AllProper(ops[..n+1])
    ensures After(q, maxSize, ops[..n+1]) == Apply(After(q, maxSize, ops[..n]), maxSize, ops[n])
    ensures Answers(q, maxSize, ops[..n+1])
         == Answers(q, maxSize, ops[..n]) + [AnswerTo(After(q, maxSize, ops[..n]).content, maxSize, ops[n])]
  {
    assert ops[..n+1][..n] == ops[..n];
  }

  lemma Prefix(s: seq<char>, at: nat, data: seq<char>, n: nat)
    requires n <= |data| && at + |data| <= |s| && s[at..at+|data|] == data
    ensures s[at..at+n] == data[..n]
  {
    assert s[at..at+n] == s[at..at+|data|][..n];
  }

  /** A refused prepare can change the content: here "bc" becomes "cc". */
  method RefusedPrepareExample() returns (before: seq<char>, after: seq<char>, ok: bool)
    ensures !ok && before == "bc" && after == "cc"
  {
    hide Apply, Reserved, Slipped, Shifted;
    ExampleStates();
    var b := new BasicStreambuf(3);
    var received := b.Receive(3, "abc", 3);
    b.Take(1);
    before := b.Contents();
    ok := b.Prepare(2);
    after := b.Contents();
  }

  lemma ExampleStates()
    ensures Apply(Queue([], 0, 3), 3, Receive(3, "abc", 3)) == Queue("abc", 0, 3)
    ensures Apply(Queue("abc", 0, 3), 3, Consume(1)) == Queue("bc", 1, 3)
    ensures Reserved(Queue("bc", 1, 3), 3, 2) == Queue("cc", 1, 3)
  {
    assert "abc"[1..] == "bc";
    assert Slipped("bc", 1) == "cc";
  }

  // ----- the size to read next -----

  function ReadSize(capacity: nat, size: nat, maxSize: nat, limit: nat): int {
    Min(Max(512, capacity - size), Min(limit, maxSize - size))
  }

  /** The suggested size always fits, and is zero only when nothing is wanted or the buffer is full. */
  lemma ReadSizeFits(capacity: nat, size: nat, maxSize: nat, limit: nat)
    requires size <= capacity && size <= maxSize
    ensures var n := ReadSize(capacity, size, maxSize, limit);
      && 0 <= n && size + n <= maxSize
      && (n == 0 <==> limit == 0 || size == maxSize)
  {
  }

  /** The suggested size is what is wanted or what still fits, or else 512 or all that the array has room for, whichever
  is more. */
  lemma ReadSizeIs(capacity: nat, size: nat, maxSize: nat, limit: nat)
    requires size <= capacity && size <= maxSize
    ensures var n, most := ReadSize(capacity, size, maxSize, limit), maxSize - size;
      && n <= limit && n <= most
      && (n == limit || n == most || (n >= 512 && n >= capacity - size && (n == 512 || n == capacity - size)))
  {
  }

  // ----- runs of the plain queue -----

  function AllAppended(q: Queue, maxSize: nat, ops: seq<Op>): seq<char>
    requires AllProper(ops)
  {
    if ops == [] then []
    else
      var front := ops[..|ops|-1];
      AllAppended(q, maxSize, front) + Appended(After(q, maxSize, front).content, maxSize, ops[|ops|-1])
  }

  function AllTaken(q: Queue, maxSize: nat, ops: seq<Op>): seq<char>
    requires AllProper(ops)
  {
    if ops == [] then []
    else
      var front := ops[..|ops|-1];
      AllTaken(q, maxSize, front) + Taken(After(q, maxSize, front).content, ops[|ops|-1])
  }

  /** The operation is no refused prepare that changes the content. */
  predicate Keeps(q: Queue, maxSize: nat, op: Op) {
    op.Receive? && AnswerTo(q.content, maxSize, op).Refused? ==> Slipped(q.content, q.start) == q.content
  }

  predicate AllKeep(q: Queue, maxSize: nat, ops: seq<Op>)
    requires AllProper(ops)
  {
    ops == [] ||
    (var front := ops[..|ops|-1];
     AllKeep(q, maxSize, front) && Keeps(After(q, maxSize, front), maxSize, ops[|ops|-1]))
  }

  /** No prepare was refused, or only while the content started at zero and nothing had been consumed. */
  predicate RefusedEarly(start: nat, ops: seq<Op>, answers: seq<Answer>)
    requires |answers| == |ops|
  {
    forall i | 0 <= i < |ops| && ops[i].Receive? && answers[i].Refused? ::
      start == 0 && forall j | 0 <= j < i :: !ops[j].Consume?
  }

  lemma {:induction false} StartStays(q: Queue, maxSize: nat, ops: seq<Op>)
    requires AllProper(ops) && q.start == 0 && forall i | 0 <= i < |ops| :: !ops[i].Consume?
    ensures After(q, maxSize, ops).start == 0
  {
    if ops != [] { StartStays(q, maxSize, ops[..|ops|-1]); }
  }

  /** What the caller sees is enough to know that the content was kept. */
  lemma {:induction false} EarlyKeep(q: Queue, maxSize: nat, ops: seq<Op>)
    requires AllProper(ops) && RefusedEarly(q.start, ops, Answers(q, maxSize, ops))
    ensures AllKeep(q, maxSize, ops)
  {
    if ops != [] {
      var n := |ops| - 1;
      var answers := Answers(q, maxSize, ops);
      assert answers[..n] == Answers(q, maxSize, ops[..n]);
      assert forall i | 0 <= i < n :: answers[..n][i] == answers[i] && ops[..n][i] == ops[i];
      EarlyKeep(q, maxSize, ops[..n]);
      if ops[n].Receive? && answers[n].Refused? { StartStays(q, maxSize, ops[..n]); }
    }
  }

  lemma RunConserves(q: Queue, maxSize: nat, ops: seq<Op>)
    requires AllProper(ops)
    ensures AllKeep(q, maxSize, ops) || RefusedEarly(q.start, ops, Answers(q, maxSize, ops)) ==>
      q.content + AllAppended(q, maxSize, ops) == AllTaken(q, maxSize, ops) + After(q, maxSize, ops).content
  {
    hide AllAppended, AllTaken, AllKeep, RefusedEarly, After, Answers, AllProper;
    if RefusedEarly(q.start, ops, Answers(q, maxSize, ops)) { EarlyKeep(q, maxSize, ops); }
    if AllKeep(q, maxSize, ops) { QueueConserves(q, maxSize, ops); }
  }

  lemma OpConserves(q: Queue, maxSize: nat, op: Op)
    requires Proper(op) && Keeps(q, maxSize, op)
    ensures q.content + Appended(q.content, maxSize, op) == Taken(q.content, op) + Apply(q, maxSize, op).content
  {
  }

  /** What was there and what was appended is what was taken followed by what is there, in order. */
  lemma {:induction false} QueueConserves(q: Queue, maxSize: nat, ops: seq<Op>)
    requires AllProper(ops) && AllKeep(q, maxSize, ops)
    ensures q.content + AllAppended(q, maxSize, ops) == AllTaken(q, maxSize, ops) + After(q, maxSize, ops).content
  {
    if ops != [] {
      var front, last := ops[..|ops|-1], ops[|ops|-1];
      QueueConserves(q, maxSize, front);
      var before := After(q, maxSize, front);
      OpConserves(before, maxSize, last);
      JoinConserved(q.content, AllAppended(q, maxSize, front), AllTaken(q, maxSize, front), before.content,
                    Appended(before.content, maxSize, last), Taken(before.content, last),
                    After(q, maxSize, ops).content);
    }
  }

  lemma JoinConserved(c: seq<char>, w: seq<char>, t: seq<char>, b: seq<char>, a: seq<char>, k: seq<char>, r: seq<char>)
    requires c + w == t + b && b + a == k + r
    ensures c + (w + a) == (t + k) + r
  {
    assert c + (w + a) == (c + w) + a;
    assert (t + b) + a == t + (b + a);
    assert t + (k + r) == (t + k) + r;
  }
}
