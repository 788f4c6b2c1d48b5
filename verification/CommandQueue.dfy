/**
 LorieCommandQueue: a bounded queue of messages, each with an optional descriptor, written to a
 nonblocking socket.  The abstract object it refines is a stream: the accepted messages one
 after the other, each message's bytes followed at once by its descriptor marker.

 The kernel is part of the state: the items the socket has taken so far, the duplicated
 descriptors handed out, and the ones closed again.  A pattern of partial sends, EINTR and EAGAIN
 is a finite script of system-call results; a flush whose script runs out is one still in progress,
 so that what is proved holds at every moment of every flush.
 */
module CommandQueue {

  const MAX_BYTES: nat := 1048576
  const MAX_MESSAGES: nat := 4096

  type byte = b: int | 0 <= b < 256

  // One unit of the socket stream: a payload byte, or the '!' marker byte carrying a descriptor.
  datatype Item = Data(b: byte) | Marker(fd: nat)

  datatype Descriptor = NoFd | Fd(fd: nat)

  datatype Message = Message(bytes: seq<byte>, sent: nat, descriptor: Descriptor)

  datatype State = State(
    queue: seq<Message>, bytes: int, count: int,                  // the object's fields
    wire: seq<Item>, nextFd: nat, closed: seq<nat>,               // the kernel
    accepted: seq<Item>)                                          // history: the abstract stream

  datatype SysResult = Wrote(n: nat) | EIntr | EAgain | EFail

  // Drained and Blocked are the two ways flush returns true, Broken is false.
  datatype FlushResult = Drained | Blocked | Broken | InProgress

  // ---------- the abstract stream ----------

  function Bytes(data: seq<byte>): (s: seq<Item>)
    ensures |s| == |data|
    ensures forall i :: 0 <= i < |data| ==> s[i] == Data(data[i])
  {
    seq(|data|, i requires 0 <= i < |data| => Data(data[i]))
  }

  function Tail(d: Descriptor): seq<Item> {
    match d
    case NoFd => []
    case Fd(fd) => [Marker(fd)]
  }

  // What of a queued message the socket has yet to take.
  function Remaining(m: Message): seq<Item>
    requires m.sent <= |m.bytes|
  {
    Bytes(m.bytes[m.sent..]) + Tail(m.descriptor)
  }

  predicate WellFormed(q: seq<Message>) {
    forall i :: 0 <= i < |q| ==> q[i].sent <= |q[i].bytes|
  }

  function Pending(q: seq<Message>): seq<Item>
    requires WellFormed(q)
  {
    if q == [] then [] else Remaining(q[0]) + Pending(q[1..])
  }

  function TotalBytes(q: seq<Message>): nat {
    if q == [] then 0 else |q[0].bytes| + TotalBytes(q[1..])
  }

  function HeldBy(m: Message): multiset<nat> {
    match m.descriptor
    case NoFd => multiset{}
    case Fd(fd) => multiset{fd}
  }

  function Held(q: seq<Message>): multiset<nat> {
    if q == [] then multiset{}
    else HeldBy(q[0]) + Held(q[1..])
  }

  function HandedOut(n: nat): multiset<nat> {
    if n == 0 then multiset{} else HandedOut(n - 1) + multiset{n - 1}
  }

  // the counters describe the queue and respect the bounds
  ghost predicate Counted(q: seq<Message>, bytes: int, count: int) {
    && bytes == TotalBytes(q) <= MAX_BYTES
    && count == |q| <= MAX_MESSAGES
  }

  // refinement: taken + still queued is the accepted stream
  ghost predicate Refines(wire: seq<Item>, q: seq<Message>, accepted: seq<Item>)
    requires WellFormed(q)
  {
    wire + Pending(q) == accepted
  }

  // conservation: each duplicated descriptor is held by one message or closed once, never both
  ghost predicate Conserves(closed: seq<nat>, q: seq<Message>, nextFd: nat) {
    multiset(closed) + Held(q) == HandedOut(nextFd)
  }

  ghost predicate Inv(s: State) {
    && WellFormed(s.queue)
    && Counted(s.queue, s.bytes, s.count)
    && Refines(s.wire, s.queue, s.accepted)
    && Conserves(s.closed, s.queue, s.nextFd)
  }

  // ---------- the operations ----------

  function Init(): State { State([], 0, 0, [], 0, [], []) }

  function AppendStep(s: State, data: seq<byte>, withFd: bool, dupOk: bool, mallocOk: bool): (State, bool) {
    if |data| > MAX_BYTES - s.bytes || s.count == MAX_MESSAGES then (s, false)
    else if withFd && !dupOk then (s, false)
    else
      var copy := if withFd then Fd(s.nextFd) else NoFd;
      var t := if withFd then s.(nextFd := s.nextFd + 1) else s;
      if !mallocOk then (if withFd then t.(closed := t.closed + [s.nextFd]) else t, false)
      else (t.(queue := t.queue + [Message(data, 0, copy)], bytes := t.bytes + |data|, count := t.count + 1,
               accepted := t.accepted + Bytes(data) + Tail(copy)), true)
  }

  // One turn of the flush loop on a nonempty queue, with the result of its system call.
  function Turn(s: State, r: SysResult): (State, FlushResult)
    requires s.queue != [] && s.queue[0].sent <= |s.queue[0].bytes|
    requires s.queue[0].sent < |s.queue[0].bytes| || s.queue[0].descriptor.Fd?
  {
    var m := s.queue[0];
    match r
    case EIntr => (s, InProgress)
    case EAgain => (s, Blocked)
    case EFail => (s, Broken)
    case Wrote(n) =>
      if n == 0 then (s, Broken)
      else if m.sent < |m.bytes| then
        var k := if n < |m.bytes| - m.sent then n else |m.bytes| - m.sent; // at most what was asked for
        (s.(queue := [m.(sent := m.sent + k)] + s.queue[1..],
            wire := s.wire + Bytes(m.bytes[m.sent..m.sent + k])), InProgress)
      else
        (s.(queue := [m.(descriptor := NoFd)] + s.queue[1..], wire := s.wire + [Marker(m.descriptor.fd)],
            closed := s.closed + [m.descriptor.fd]), InProgress)
  }

  // A finished head leaves the queue without any system call.
  predicate HeadDone(s: State) {
    s.queue != [] && s.queue[0].sent >= |s.queue[0].bytes| && s.queue[0].descriptor.NoFd?
  }

  function Pop(s: State): State
    requires HeadDone(s)
  {
    s.(queue := s.queue[1..], bytes := s.bytes - |s.queue[0].bytes|, count := s.count - 1)
  }

  function FlushStep(s: State, script: seq<SysResult>): (State, FlushResult)
    requires WellFormed(s.queue)
    decreases |script|, |s.queue|
  {
    if s.queue == [] then (s, Drained)
    else if HeadDone(s) then FlushStep(Pop(s), script)
    else if script == [] then (s, InProgress)
    else
      var (t, r) := Turn(s, script[0]);
      if r.InProgress? then FlushStep(t, script[1..]) else (t, r)
  }

  function HeldSeq(q: seq<Message>): seq<nat> {
    if q == [] then []
    else (match q[0].descriptor case NoFd => [] case Fd(fd) => [fd]) + HeldSeq(q[1..])
  }

  // clear: the connection is over; the next one starts a new stream.
  function ClearStep(s: State): State {
    s.(queue := [], bytes := 0, count := 0, closed := s.closed + HeldSeq(s.queue), wire := [], accepted := [])
  }

  // ---------- each operation keeps the invariant ----------

  lemma {:induction false} PendingAppend(q: seq<Message>, m: Message)
    requires WellFormed(q) && m.sent <= |m.bytes|
    ensures WellFormed(q + [m]) && Pending(q + [m]) == Pending(q) + Remaining(m)
    decreases |q|
  {
    if q == [] {
      assert q + [m] == [m] && [m][1..] == [];
    } else {
      var rest := q[1..];
      PendingAppend(rest, m);
      QueueHead(q[0], rest + [m]);
      assert [q[0]] + (rest + [m]) == q + [m];
      Assoc(Remaining(q[0]), Pending(rest), Remaining(m));
    }
  }

  lemma Assoc<T>(a: seq<T>, b: seq<T>, c: seq<T>)
    ensures a + (b + c) == (a + b) + c
  {}

  lemma {:induction false} CountsAppend(q: seq<Message>, m: Message)
    ensures TotalBytes(q + [m]) == TotalBytes(q) + |m.bytes|
    ensures Held(q + [m]) == Held(q) + HeldBy(m)
    decreases |q|
  {
    if q == [] {
      assert q + [m] == [m] && [m][1..] == [];
    } else {
      assert (q + [m])[0] == q[0] && (q + [m])[1..] == q[1..] + [m];
      CountsAppend(q[1..], m);
    }
  }

  lemma QueueHead(m: Message, rest: seq<Message>)
    requires WellFormed(rest) && m.sent <= |m.bytes|
    ensures WellFormed([m] + rest)
    ensures Pending([m] + rest) == Remaining(m) + Pending(rest)
    ensures TotalBytes([m] + rest) == |m.bytes| + TotalBytes(rest)
    ensures Held([m] + rest) == HeldBy(m) + Held(rest)
  {
    assert ([m] + rest)[1..] == rest;
  }

  predicate Accepts(s: State, data: seq<byte>, withFd: bool, dupOk: bool, mallocOk: bool) {
    |data| <= MAX_BYTES - s.bytes && s.count != MAX_MESSAGES && (withFd ==> dupOk) && mallocOk
  }

  // A rejected append leaves the queue, its counters and the stream alone, and closes the
  // descriptor it may already have duplicated.
  lemma RejectedAppend(s: State, data: seq<byte>, withFd: bool, dupOk: bool, mallocOk: bool)
    requires Inv(s) && !Accepts(s, data, withFd, dupOk, mallocOk)
    ensures var (t, ok) := AppendStep(s, data, withFd, dupOk, mallocOk);
      !ok && Inv(t) && t == s.(nextFd := t.nextFd, closed := t.closed)
  {
    var t := AppendStep(s, data, withFd, dupOk, mallocOk).0;
    if |data| <= MAX_BYTES - s.bytes && s.count != MAX_MESSAGES && withFd && dupOk {
      assert t == s.(nextFd := s.nextFd + 1, closed := s.closed + [s.nextFd]);
      CloseUnused(s.closed, s.queue, s.nextFd);
    } else {
      assert t == s;
    }
  }

  lemma CloseUnused(closed: seq<nat>, q: seq<Message>, n: nat)
    requires Conserves(closed, q, n)
    ensures Conserves(closed + [n], q, n + 1)
  {
    assert multiset(closed + [n]) == multiset(closed) + multiset{n};
    assert HandedOut(n + 1) == HandedOut(n) + multiset{n};
  }

  lemma Shift<T>(w: seq<T>, a: seq<T>, b: seq<T>, rest: seq<T>)
    ensures (w + a) + (b + rest) == w + ((a + b) + rest)
  {}

  // An accepted one extends the stream by exactly the message and its marker.
  lemma AcceptedAppend(s: State, data: seq<byte>, withFd: bool, dupOk: bool, mallocOk: bool)
    requires Inv(s) && Accepts(s, data, withFd, dupOk, mallocOk)
    ensures var (t, ok) := AppendStep(s, data, withFd, dupOk, mallocOk);
      && ok && Inv(t) && t.wire == s.wire
      && t.accepted == s.accepted + Bytes(data) + Tail(if withFd then Fd(s.nextFd) else NoFd)
  {
    AppendStreams(s, data, withFd, dupOk, mallocOk);
    AppendConserves(s, data, withFd, dupOk, mallocOk);
    CountsAppend(s.queue, Message(data, 0, if withFd then Fd(s.nextFd) else NoFd));
  }

  lemma Regroup<T>(a: multiset<T>, b: multiset<T>, c: multiset<T>)
    ensures a + (b + c) == (a + b) + c
  {}

  lemma AppendConserves(s: State, data: seq<byte>, withFd: bool, dupOk: bool, mallocOk: bool)
    requires Conserves(s.closed, s.queue, s.nextFd) && Accepts(s, data, withFd, dupOk, mallocOk)
    ensures var t := AppendStep(s, data, withFd, dupOk, mallocOk).0; Conserves(t.closed, t.queue, t.nextFd)
  {
    var m := Message(data, 0, if withFd then Fd(s.nextFd) else NoFd);
    CountsAppend(s.queue, m);
    Regroup(multiset(s.closed), Held(s.queue), HeldBy(m));
  }

  lemma AppendStreams(s: State, data: seq<byte>, withFd: bool, dupOk: bool, mallocOk: bool)
    requires WellFormed(s.queue) && Refines(s.wire, s.queue, s.accepted) && Accepts(s, data, withFd, dupOk, mallocOk)
    ensures var t := AppendStep(s, data, withFd, dupOk, mallocOk).0; WellFormed(t.queue) && Refines(t.wire, t.queue, t.accepted)
  {
    var m := Message(data, 0, if withFd then Fd(s.nextFd) else NoFd);
    PendingAppend(s.queue, m);
    assert m.bytes[m.sent..] == data;
    var w, p, b, d := s.wire, Pending(s.queue), Bytes(data), Tail(m.descriptor);
    assert (w + p) + b + d == w + (p + (b + d));
  }

  // Moving `taken` from the front of the head message to the wire keeps the refinement.
  lemma HeadMoves(s: State, t: State, taken: seq<Item>)
    requires WellFormed(s.queue) && Refines(s.wire, s.queue, s.accepted) && s.queue != [] && t.queue != [] && t.queue[1..] == s.queue[1..]
    requires t.queue[0].sent <= |t.queue[0].bytes|
    requires t.wire == s.wire + taken && t.accepted == s.accepted
    requires Remaining(s.queue[0]) == taken + Remaining(t.queue[0])
    ensures WellFormed(t.queue) && Refines(t.wire, t.queue, t.accepted)
  {
    var rest := s.queue[1..];
    assert t.queue == [t.queue[0]] + rest && s.queue == [s.queue[0]] + rest;
    Shift(s.wire, taken, Remaining(t.queue[0]), Pending(rest));
  }

  lemma BytesSplit(data: seq<byte>, i: nat, j: nat)
    requires i <= j <= |data|
    ensures Bytes(data[i..]) == Bytes(data[i..j]) + Bytes(data[j..])
  {}

  lemma PartialSend(s: State, n: nat)
    requires Inv(s) && s.queue != [] && s.queue[0].sent < |s.queue[0].bytes| && n > 0
    ensures var t := Turn(s, Wrote(n)).0; Inv(t) && t.accepted == s.accepted && s.wire <= t.wire
  {
    var t := Turn(s, Wrote(n)).0;
    var m, m' := s.queue[0], t.queue[0];
    BytesSplit(m.bytes, m.sent, m'.sent);
    var taken := Bytes(m.bytes[m.sent..m'.sent]);
    Shift([], taken, Bytes(m.bytes[m'.sent..]), Tail(m.descriptor));
    assert Remaining(m) == taken + Remaining(m');
    HeadMoves(s, t, taken);
  }

  lemma MarkerSend(s: State, n: nat)
    requires Inv(s) && s.queue != [] && s.queue[0].sent == |s.queue[0].bytes| && s.queue[0].descriptor.Fd? && n > 0
    ensures var t := Turn(s, Wrote(n)).0; Inv(t) && t.accepted == s.accepted && s.wire <= t.wire
  {
    var t := Turn(s, Wrote(n)).0;
    var m, m' := s.queue[0], t.queue[0];
    assert Remaining(m) == [Marker(m.descriptor.fd)] + Remaining(m');
    HeadMoves(s, t, [Marker(m.descriptor.fd)]);
    MarkerClosesOnce(s, t);
  }

  lemma MarkerClosesOnce(s: State, t: State)
    requires Conserves(s.closed, s.queue, s.nextFd) && s.queue != [] && s.queue[0].descriptor.Fd? && t.nextFd == s.nextFd
    requires t.queue == [s.queue[0].(descriptor := NoFd)] + s.queue[1..]
    requires t.closed == s.closed + [s.queue[0].descriptor.fd]
    ensures Conserves(t.closed, t.queue, t.nextFd)
  {
    assert t.queue[1..] == s.queue[1..];
  }

  lemma TurnKeepsInv(s: State, r: SysResult)
    requires Inv(s) && s.queue != [] && !HeadDone(s)
    ensures var t := Turn(s, r).0; Inv(t) && t.accepted == s.accepted && s.wire <= t.wire && t.nextFd == s.nextFd
  {
    if r.Wrote? && r.n > 0 {
      if s.queue[0].sent < |s.queue[0].bytes| {
        PartialSend(s, r.n);
      } else {
        MarkerSend(s, r.n);
      }
    }
  }

  lemma PopKeepsInv(s: State)
    requires Inv(s) && HeadDone(s)
    ensures Inv(Pop(s))
  {
    assert s.queue == [s.queue[0]] + s.queue[1..];
    PopParts(s.queue[0], s.queue[1..], s);
  }

  lemma PopParts(m: Message, rest: seq<Message>, s: State)
    requires Inv(s) && s.queue == [m] + rest && m.sent == |m.bytes| && m.descriptor.NoFd?
    ensures WellFormed(rest) && Counted(rest, s.bytes - |m.bytes|, s.count - 1)
    ensures Refines(s.wire, rest, s.accepted) && Conserves(s.closed, rest, s.nextFd)
  {
    assert s.queue[1..] == rest && s.queue[0] == m;
    QueueHead(m, rest);
    assert Remaining(m) + Pending(rest) == Pending(rest);
    assert HeldBy(m) + Held(rest) == Held(rest);
  }

  // Whatever the socket does, flush only moves bytes from the queue to the wire, in order.
  lemma {:induction false} FlushKeepsInv(s: State, script: seq<SysResult>)
    requires Inv(s)
    ensures Inv(FlushStep(s, script).0)
    ensures FlushStep(s, script).0.accepted == s.accepted && s.wire <= FlushStep(s, script).0.wire
    ensures FlushStep(s, script).1.Drained? <==> FlushStep(s, script).0.queue == []
    decreases |script|, |s.queue|
  {
    if s.queue == [] {
    } else if HeadDone(s) {
      PopKeepsInv(s);
      FlushKeepsInv(Pop(s), script);
    } else if script != [] {
      TurnKeepsInv(s, script[0]);
      if Turn(s, script[0]).1.InProgress? {
        FlushKeepsInv(Turn(s, script[0]).0, script[1..]);
      }
    }
  }

  lemma Backlog(s: State)
    requires Inv(s)
    ensures |Pending(s.queue)| == |s.accepted| - |s.wire|
  {
    assert |s.wire + Pending(s.queue)| == |s.accepted|;
  }

  // A socket that keeps taking data, however little at a time, empties the queue: the whole
  // accepted stream is then on the wire.
  lemma {:induction false} FlushDrains(s: State, script: seq<SysResult>)
    requires Inv(s) && |script| >= |s.accepted| - |s.wire|
    requires forall i :: 0 <= i < |script| ==> script[i].Wrote? && script[i].n > 0
    ensures FlushStep(s, script).1.Drained?
    ensures FlushStep(s, script).0.wire == s.accepted
    decreases |script|, |s.queue|
  {
    Backlog(s);
    if s.queue == [] {
    } else if HeadDone(s) {
      PopKeepsInv(s);
      FlushDrains(Pop(s), script);
    } else {
      assert |Remaining(s.queue[0])| > 0;
      TurnKeepsInv(s, script[0]);
      FlushDrains(Turn(s, script[0]).0, script[1..]);
    }
  }

  lemma {:induction false} HeldSeqIsHeld(q: seq<Message>)
    ensures multiset(HeldSeq(q)) == Held(q)
    decreases |q|
  {
    if q != [] {
      HeldSeqIsHeld(q[1..]);
    }
  }

  lemma ClearKeepsInv(s: State)
    requires Inv(s)
    ensures Inv(ClearStep(s))
    ensures multiset(ClearStep(s).closed) == HandedOut(s.nextFd)
  {
    HeldSeqIsHeld(s.queue);
  }

  // ---------- every run ----------

  datatype Op =
    | Append(data: seq<byte>, withFd: bool, dupOk: bool, mallocOk: bool)
    | Flush(script: seq<SysResult>)
    | Clear

  ghost function Apply(s: State, op: Op): State
    requires Inv(s)
  {
    match op
    case Append(data, withFd, dupOk, mallocOk) => AppendStep(s, data, withFd, dupOk, mallocOk).0
    case Flush(script) => FlushStep(s, script).0
    case Clear => ClearStep(s)
  }

  lemma ApplyKeepsInv(s: State, op: Op)
    requires Inv(s)
    ensures Inv(Apply(s, op))
  {
    match op
    case Append(data, withFd, dupOk, mallocOk) =>
      if Accepts(s, data, withFd, dupOk, mallocOk) {
        AcceptedAppend(s, data, withFd, dupOk, mallocOk);
      } else {
        RejectedAppend(s, data, withFd, dupOk, mallocOk);
      }
    case Flush(script) => FlushKeepsInv(s, script);
    case Clear => ClearKeepsInv(s);
  }

  ghost function Run(s: State, ops: seq<Op>): (t: State)
    requires Inv(s)
    ensures Inv(t)
    decreases |ops|
  {
    if ops == [] then s else (ApplyKeepsInv(s, ops[0]); Run(Apply(s, ops[0]), ops[1..]))
  }

  lemma {:induction false} HandedOutOnce(n: nat, fd: nat)
    ensures HandedOut(n)[fd] == if fd < n then 1 else 0
  {
    if n > 0 {
      HandedOutOnce(n - 1, fd);
    }
  }

  // The main result, at every moment of every run.
  lemma QueueRefinesStream(ops: seq<Op>, fd: nat)
    ensures Inv(Init())
    ensures var s := Run(Init(), ops);
      // what reached the socket is a prefix of the accepted messages with their markers
      && s.wire <= s.accepted
      && (s.queue == [] ==> s.wire == s.accepted)
      && 0 <= s.bytes <= MAX_BYTES && 0 <= s.count <= MAX_MESSAGES
      // each descriptor handed out is closed once and no longer held, or held once and open
      && multiset(s.closed)[fd] + Held(s.queue)[fd] == (if fd < s.nextFd then 1 else 0)
  {
    var s := Run(Init(), ops);
    HandedOutOnce(s.nextFd, fd);
    assert (multiset(s.closed) + Held(s.queue))[fd] == HandedOut(s.nextFd)[fd];
  }

  // ---------- the class ----------

  class LorieCommandQueue {
    var queue: seq<Message>
    var bytes: int
    var count: int
    var wire: seq<Item>
    var nextFd: nat
    var closed: seq<nat>
    ghost var accepted: seq<Item>

    ghost function View(): State
      reads this
    {
      State(queue, bytes, count, wire, nextFd, closed, accepted)
    }

    constructor ()
      ensures View() == Init()
    {
      queue, bytes, count, wire, nextFd, closed, accepted := [], 0, 0, [], 0, [], [];
    }

    method Append(data: seq<byte>, withFd: bool, dupOk: bool, mallocOk: bool) returns (ok: bool)
      modifies this
      ensures (View(), ok) == AppendStep(old(View()), data, withFd, dupOk, mallocOk)
    {
      if |data| > MAX_BYTES - bytes || count == MAX_MESSAGES {
        return false;
      }
      var copy := NoFd;
      if withFd {
        if !dupOk {
          return false;
        }
        copy := Fd(nextFd);
        nextFd := nextFd + 1;
      }
      if !mallocOk {
        if copy.Fd? {
          closed := closed + [copy.fd];
        }
        return false;
      }
      queue := queue + [Message(data, 0, copy)];
      count := count + 1;
      bytes := bytes + |data|;
      accepted := accepted + Bytes(data) + Tail(copy);
      return true;
    }

    // Closes what the messages still hold, one message at a time.
    method ClearQueue()
      modifies this
      ensures View() == ClearStep(old(View()))
    {
      while queue != []
        invariant closed + HeldSeq(queue) == old(closed) + HeldSeq(old(queue))
        invariant nextFd == old(nextFd)
        decreases |queue|
      {
        if queue[0].descriptor.Fd? {
          closed := closed + [queue[0].descriptor.fd];
        }
        queue := queue[1..];
      }
      bytes, count := 0, 0;
      wire, accepted := [], [];
    }

    // The two kinds of send at the head of the queue.
    method Transfer(n: nat)
      requires WellFormed(queue) && queue != [] && !HeadDone(View()) && n > 0
      modifies this
      ensures View() == Turn(old(View()), Wrote(n)).0
      ensures WellFormed(queue)
    {
      var m := queue[0];
      if m.sent < |m.bytes| {
        var k := if n < |m.bytes| - m.sent then n else |m.bytes| - m.sent;
        wire := wire + Bytes(m.bytes[m.sent..m.sent + k]);
        queue := [m.(sent := m.sent + k)] + queue[1..];
      } else {
        wire := wire + [Marker(m.descriptor.fd)];
        closed := closed + [m.descriptor.fd];
        queue := [m.(descriptor := NoFd)] + queue[1..];
      }
    }

    method FlushQueue(script: seq<SysResult>) returns (r: FlushResult)
      requires WellFormed(queue)
      modifies this
      ensures (View(), r) == FlushStep(old(View()), script)
    {
      var i := 0;
      while queue != []
        invariant 0 <= i <= |script| && WellFormed(queue)
        invariant FlushStep(View(), script[i..]) == FlushStep(old(View()), script)
        decreases |script| - i, |queue|
      {
        if queue[0].sent >= |queue[0].bytes| && queue[0].descriptor.NoFd? {
          bytes := bytes - |queue[0].bytes|;
          queue := queue[1..];
          count := count - 1;
          continue;
        }
        if i == |script| {
          return InProgress;
        }
        var result := script[i];
        assert script[i..][0] == result && script[i..][1..] == script[i + 1..];
        i := i + 1;
        if result.Wrote? && result.n > 0 {
          Transfer(result.n);
          continue;
        }
        if result.EIntr? {
          continue;
        }
        return if result.EAgain? then Blocked else Broken;
      }
      return Drained;
    }
  }
}
