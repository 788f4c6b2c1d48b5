/**
 The deferred GPU-copy ring: one producer (the X server, `lorieTryScheduleGpuCopy`) and one
 consumer (the renderer thread, `applyPendingGpuCopies`) that share eight entry slots, two
 32-bit wrapping indices and a 64-bit completion serial.

 Every load and store of shared memory is one atomic step, and a run is any interleaving of the
 steps of the two sides.  An entry is written and read one word at a time, so that a torn read
 would be visible.  Beside the wrapping indices the state keeps unbounded history: the copies
 published, the copies the GPU performed, and how many of them were advanced past.
 */
module GpuCopyRing {

  const CAPACITY: nat := 8
  const MAX_RECTS: nat := 16
  const HEADER_WORDS: nat := 6
  const SLOT_WORDS: nat := 70 // six header words and four words for each of sixteen rectangles
  const TWO32: nat := 0x1_0000_0000
  const TWO64: nat := 0x1_0000_0000_0000_0000

  // Eight slots of shared memory, each wide enough for the largest entry.
  type Slots = s: seq<seq<int>> | |s| == 8 && forall i :: 0 <= i < |s| ==> |s[i]| == 70
    witness seq(8, i => seq(70, j => 0))

  datatype Rect = Rect(x1: int, y1: int, x2: int, y2: int)

  datatype Entry = Entry(serial: nat, src: nat, dst: nat, xOff: int, yOff: int, rects: seq<Rect>)

  // ---------- entries as words of shared memory ----------

  function RectWords(rects: seq<Rect>): (w: seq<int>)
    ensures |w| == 4 * |rects|
  {
    if rects == [] then []
    else [rects[0].x1, rects[0].y1, rects[0].x2, rects[0].y2] + RectWords(rects[1..])
  }

  function Words(e: Entry): (w: seq<int>)
    ensures |w| == HEADER_WORDS + 4 * |e.rects|
    ensures w[5] == |e.rects|
  {
    [e.serial, e.src, e.dst, e.xOff, e.yOff, |e.rects|] + RectWords(e.rects)
  }

  function DecodeRects(w: seq<int>): seq<Rect>
    requires |w| % 4 == 0
  {
    if w == [] then [] else [Rect(w[0], w[1], w[2], w[3])] + DecodeRects(w[4..])
  }

  // What the consumer makes of the words it has read.
  function Decode(w: seq<int>): Entry
    requires |w| >= HEADER_WORDS && w[5] >= 0 && |w| == HEADER_WORDS + 4 * w[5]
    requires w[0] >= 0 && w[1] >= 0 && w[2] >= 0
  {
    Entry(w[0], w[1], w[2], w[3], w[4], DecodeRects(w[HEADER_WORDS..]))
  }

  lemma {:induction false} RectsRoundTrip(rects: seq<Rect>)
    ensures DecodeRects(RectWords(rects)) == rects
  {
    if rects != [] {
      var w := RectWords(rects);
      assert w[4..] == RectWords(rects[1..]);
      RectsRoundTrip(rects[1..]);
    }
  }

  lemma EntryRoundTrip(e: Entry)
    ensures Decode(Words(e)) == e
  {
    assert Words(e)[HEADER_WORDS..] == RectWords(e.rects);
    RectsRoundTrip(e.rects);
  }

  // ---------- the two sides ----------

  datatype Producer =
    | Idle
    | OwnIndexRead(w: nat)                       // writeIndex loaded
    | PeerIndexRead(w: nat, r: nat, seen: nat)   // readIndex loaded too; `seen` is its unbounded value
    | Filling(w: nat, entry: Entry, written: nat)

  datatype Consumer =
    | Resting
    | Draining(completed: nat)                   // lock held, at the loop test
    | Handling(completed: nat, got: map<nat, int>)
    | Submitted(serial: nat)                     // the GPU has performed the head copy
    | Leaving(completed: nat)                    // loop left, completion not stored yet

  datatype State = State(
    writeIndex: nat, readIndex: nat, completedSerial: nat, slots: Slots,
    serialCounter: nat, producer: Producer, consumer: Consumer,
    connectionFailed: bool, waitingForBuffer: bool,
    // history
    scheduled: seq<Entry>, executed: seq<Entry>, advanced: nat, acknowledged: nat)

  // A copy request as the X server phrases it; the serial is not the caller's to choose.
  datatype Request = Request(src: nat, dst: nat, xOff: int, yOff: int, rects: seq<Rect>)

  datatype Step =
    | LoadWriteIndex
    | LoadReadIndex
    | CheckSpace(request: Request)
    | FillWord
    | Publish
    | BeginPass
    | TestHead
    | ReadWord(k: nat)
    | BufferMissing
    | Submit(ok: bool)
    | Advance
    | StoreCompletion
    | Reattach

  function Init(): State {
    State(0, 0, 0, seq(CAPACITY, i => seq(SLOT_WORDS, j => 0)), 0, Idle, Resting, false, false, [], [], 0, 0)
  }

  // Unsigned 32- and 64-bit arithmetic, and the slot an index selects.
  function Wrap32(i: int): nat { i % 0x1_0000_0000 }
  function Wrap64(i: int): nat { i % 0x1_0000_0000_0000_0000 }
  function Minus32(a: nat, b: nat): nat { Wrap32(a - b) }
  function SlotOf(i: nat): nat { i % 8 }

  predicate Complete(got: map<nat, int>) {
    && 5 in got && 0 <= got[5] <= MAX_RECTS
    && (forall k: nat :: k < HEADER_WORDS + 4 * got[5] ==> k in got)
  }

  function Gathered(got: map<nat, int>): (w: seq<int>)
    requires Complete(got)
    ensures |w| == HEADER_WORDS + 4 * got[5]
    ensures forall k :: 0 <= k < |w| ==> w[k] == got[k]
  {
    seq(HEADER_WORDS + 4 * got[5], k requires 0 <= k < HEADER_WORDS + 4 * got[5] => got[k])
  }

  function ProducerStep(s: State, step: Step): State
  {
    match step
    case LoadWriteIndex =>
      if s.producer.Idle? then s.(producer := OwnIndexRead(s.writeIndex)) else s
    case LoadReadIndex =>
      if s.producer.OwnIndexRead? then
        s.(producer := PeerIndexRead(s.producer.w, s.readIndex, s.advanced))
      else s
    case CheckSpace(q) =>
      if !s.producer.PeerIndexRead? then s
      else if |q.rects| == 0 || |q.rects| > MAX_RECTS || Minus32(s.producer.w, s.producer.r) >= CAPACITY then
        s.(producer := Idle)
      else
        var serial := Wrap64(s.serialCounter + 1);
        s.(serialCounter := serial,
           producer := Filling(s.producer.w, Entry(serial, q.src, q.dst, q.xOff, q.yOff, q.rects), 0))
    case FillWord =>
      if s.producer.Filling? && s.producer.written < |Words(s.producer.entry)| then
        var p := s.producer;
        var slot := s.slots[SlotOf(p.w)];
        if p.written < |slot| then
          s.(slots := s.slots[SlotOf(p.w) := slot[p.written := Words(p.entry)[p.written]]],
             producer := p.(written := p.written + 1))
        else s // an entry never outgrows its slot, see FillExtends
      else s
    case Publish =>
      if s.producer.Filling? && s.producer.written == |Words(s.producer.entry)| then
        s.(writeIndex := Wrap32(s.producer.w + 1), scheduled := s.scheduled + [s.producer.entry],
           producer := Idle)
      else s
    case _ => s
  }

  function ConsumerStep(s: State, step: Step): State
  {
    match step
    case BeginPass =>
      if s.consumer.Resting? && !s.connectionFailed && s.readIndex != s.writeIndex then
        s.(consumer := Draining(0))
      else s
    case TestHead =>
      if !s.consumer.Draining? then s
      else if s.readIndex != s.writeIndex then s.(consumer := Handling(s.consumer.completed, map[]))
      else s.(consumer := Leaving(s.consumer.completed))
    case ReadWord(k) =>
      if s.consumer.Handling? && k < |s.slots[SlotOf(s.readIndex)]| then
        s.(consumer := s.consumer.(got := s.consumer.got[k := s.slots[SlotOf(s.readIndex)][k]]))
      else s
    case BufferMissing =>
      if s.consumer.Handling? then
        s.(waitingForBuffer := true, consumer := Leaving(s.consumer.completed))
      else s
    case Submit(ok) =>
      if !s.consumer.Handling? then s
      else if !ok then s.(connectionFailed := true, consumer := Leaving(s.consumer.completed))
      else if Complete(s.consumer.got) && s.consumer.got[0] >= 0 && s.consumer.got[1] >= 0 && s.consumer.got[2] >= 0 then
        s.(executed := s.executed + [Decode(Gathered(s.consumer.got))], consumer := Submitted(s.consumer.got[0]))
      else s
    case Advance =>
      if s.consumer.Submitted? then
        s.(readIndex := Wrap32(s.readIndex + 1), advanced := s.advanced + 1,
           consumer := Draining(s.consumer.serial))
      else s
    case StoreCompletion =>
      if !s.consumer.Leaving? then s
      else if s.consumer.completed == 0 then s.(consumer := Resting)
      else s.(completedSerial := s.consumer.completed, acknowledged := s.advanced, consumer := Resting)
    case Reattach =>
      if s.consumer.Resting? then s.(connectionFailed := false, waitingForBuffer := false) else s
    case _ => s
  }

  predicate ByProducer(step: Step) {
    step.LoadWriteIndex? || step.LoadReadIndex? || step.CheckSpace? || step.FillWord? || step.Publish?
  }

  function Next(s: State, step: Step): State
  {
    if ByProducer(step) then ProducerStep(s, step) else ConsumerStep(s, step)
  }

  // ---------- the inductive invariant ----------

  predicate Holds(s: State, i: nat)
    requires i < |s.scheduled|
  {
    Words(s.scheduled[i]) <= s.slots[SlotOf(i)]
  }

  ghost predicate Shape(s: State) {
    forall i :: 0 <= i < |s.scheduled| ==> |s.scheduled[i].rects| <= MAX_RECTS
  }

  ghost predicate Indices(s: State) {
    && s.writeIndex == Wrap32(|s.scheduled|)
    && s.readIndex == Wrap32(s.advanced)
    && s.advanced <= |s.scheduled| <= s.advanced + CAPACITY
  }

  ghost predicate Serials(s: State) {
    && (forall i :: 0 <= i < |s.scheduled| ==> s.scheduled[i].serial == Wrap64(i + 1))
    && s.serialCounter == Wrap64(if s.producer.Filling? then |s.scheduled| + 1 else |s.scheduled|)
    && s.completedSerial == Wrap64(s.acknowledged)
    && s.acknowledged <= s.advanced
  }

  ghost predicate ProducerInv(s: State)
    requires Shape(s)
  {
    match s.producer
    case Idle => true
    case OwnIndexRead(w) => w == s.writeIndex
    case PeerIndexRead(w, r, seen) =>
      w == s.writeIndex && seen <= s.advanced && r == Wrap32(seen) && seen <= |s.scheduled| <= seen + CAPACITY
    case Filling(w, e, n) =>
      && w == s.writeIndex
      && |s.scheduled| < s.advanced + CAPACITY
      && e.serial == Wrap64(|s.scheduled| + 1)
      && |e.rects| <= MAX_RECTS
      && n <= |Words(e)|
      && Words(e)[..n] <= s.slots[SlotOf(|s.scheduled|)]
  }

  ghost predicate ConsumerInv(s: State) {
    && s.advanced + (if s.consumer.Submitted? then 1 else 0) <= |s.scheduled|
    && s.executed == s.scheduled[..s.advanced + (if s.consumer.Submitted? then 1 else 0)]
    && match s.consumer
       case Resting => s.advanced < TWO64 ==> s.acknowledged == s.advanced
       case Draining(c) => BatchInv(s, c)
       case Leaving(c) => BatchInv(s, c)
       case Submitted(serial) => serial == Wrap64(s.advanced + 1)
       case Handling(c, got) =>
         && BatchInv(s, c)
         && s.advanced < |s.scheduled|
         && var w := Words(s.scheduled[s.advanced]);
            (forall k :: k in got && k < |w| ==> got[k] == w[k])
  }

  // `completed` names the last copy of this batch, or is zero when the batch is still empty.
  ghost predicate BatchInv(s: State, completed: nat) {
    || completed == Wrap64(s.advanced)
    || (completed == 0 && (s.advanced < TWO64 ==> s.acknowledged == s.advanced))
  }

  ghost predicate Inv(s: State) {
    && Shape(s)
    && Indices(s)
    && (forall i: nat :: s.advanced <= i < |s.scheduled| ==> Holds(s, i))
    && Serials(s)
    && ProducerInv(s)
    && ConsumerInv(s)
  }

  lemma InitInv()
    ensures Inv(Init())
  {}

  lemma Mod8(n: nat, q: nat, r: nat)
    requires n == 8 * q + r && r < 8
    ensures SlotOf(n) == r
  {}

  lemma Mod32(n: nat, q: nat, r: nat)
    requires n == 0x1_0000_0000 * q + r && r < 0x1_0000_0000
    ensures Wrap32(n) == r
  {}

  lemma Mod64(n: nat, q: nat, r: nat)
    requires n == 0x1_0000_0000_0000_0000 * q + r && r < 0x1_0000_0000_0000_0000
    ensures Wrap64(n) == r
  {}

  // Slot choice by wrapped index agrees with slot choice by unbounded index, because 8 divides 2^32.
  lemma SlotOfWrapped(i: nat)
    ensures SlotOf(Wrap32(i)) == SlotOf(i)
  {
    var q, r := i / 0x1_0000_0000, i % 0x1_0000_0000;
    var a, b := r / 8, r % 8;
    assert i == 8 * (0x2000_0000 * q + a) + b;
    Mod8(i, 0x2000_0000 * q + a, b);
  }

  lemma Successor32(i: nat)
    ensures Wrap32(Wrap32(i) + 1) == Wrap32(i + 1)
  {
    var q, r := i / 0x1_0000_0000, i % 0x1_0000_0000;
    if r + 1 < 0x1_0000_0000 {
      Mod32(i + 1, q, r + 1);
    } else {
      Mod32(i + 1, q + 1, 0);
    }
  }

  lemma Successor64(i: nat)
    ensures Wrap64(Wrap64(i) + 1) == Wrap64(i + 1)
  {
    var q, r := i / 0x1_0000_0000_0000_0000, i % 0x1_0000_0000_0000_0000;
    if r + 1 < 0x1_0000_0000_0000_0000 {
      Mod64(i + 1, q, r + 1);
    } else {
      Mod64(i + 1, q + 1, 0);
    }
  }

  // The 32-bit difference of the wrapped indices is the true occupancy.
  lemma OccupancyFromWrapped(w: nat, r: nat)
    requires r <= w <= r + CAPACITY
    ensures Minus32(Wrap32(w), Wrap32(r)) == w - r
  {
    var a, b := w / 0x1_0000_0000, r / 0x1_0000_0000;
    var x: int, y: int := Wrap32(w), Wrap32(r);
    assert x - y == (w - r) - 0x1_0000_0000 * (a - b);
    assert a == b || a == b + 1;
  }

  lemma IndicesDiffer(s: State)
    requires Indices(s)
    ensures s.readIndex != s.writeIndex <==> s.advanced < |s.scheduled|
  {
    OccupancyFromWrapped(|s.scheduled|, s.advanced);
  }

  lemma FreeSlotIsNotUnread(w: nat, i: nat)
    requires i < w < i + CAPACITY
    ensures SlotOf(i) != SlotOf(w)
  {}

  // What a producer step that leaves the ring itself alone cannot disturb.
  lemma PrivateToProducer(s: State, t: State)
    requires Inv(s) && t == s.(producer := t.producer, serialCounter := t.serialCounter)
    ensures Shape(t) && Indices(t) && ConsumerInv(t)
    ensures forall i: nat :: t.advanced <= i < |t.scheduled| ==> Holds(t, i)
  {
    assert forall i: nat :: s.advanced <= i < |s.scheduled| ==> Holds(s, i) ==> Holds(t, i);
  }

  lemma LoadsKeepInv(s: State, step: Step)
    requires Inv(s) && (step.LoadWriteIndex? || step.LoadReadIndex?)
    ensures Inv(ProducerStep(s, step))
  {
    PrivateToProducer(s, ProducerStep(s, step));
  }

  lemma CheckKeepsInv(s: State, q: Request)
    requires Inv(s)
    ensures Inv(ProducerStep(s, CheckSpace(q)))
  {
    PrivateToProducer(s, ProducerStep(s, CheckSpace(q)));
    if s.producer.PeerIndexRead? {
      OccupancyFromWrapped(|s.scheduled|, s.producer.seen);
      Successor64(|s.scheduled|);
    }
  }

  lemma FillSparesUnread(s: State, i: nat)
    requires Inv(s) && s.advanced <= i < |s.scheduled|
    ensures Holds(ProducerStep(s, FillWord), i)
  {
    assert Holds(s, i);
    if s.producer.Filling? {
      SlotOfWrapped(|s.scheduled|);
      FreeSlotIsNotUnread(|s.scheduled|, i);
    }
  }

  lemma FillExtends(s: State)
    requires Inv(s) && s.producer.Filling? && s.producer.written < |Words(s.producer.entry)|
    ensures ProducerInv(ProducerStep(s, FillWord))
  {
    var n := |s.scheduled|;
    var t := ProducerStep(s, FillWord);
    SlotOfWrapped(n);
    var w := Words(s.producer.entry);
    var k := s.producer.written;
    assert w[..k + 1] == w[..k] + [w[k]];
    assert t.slots[SlotOf(n)][..k + 1] == s.slots[SlotOf(n)][..k] + [w[k]];
  }

  lemma FillKeepsInv(s: State)
    requires Inv(s)
    ensures Inv(ProducerStep(s, FillWord))
  {
    var t := ProducerStep(s, FillWord);
    if s.producer.Filling? && s.producer.written < |Words(s.producer.entry)| {
      forall i: nat | s.advanced <= i < |s.scheduled|
        ensures Holds(t, i)
      {
        FillSparesUnread(s, i);
      }
      FillExtends(s);
    }
  }

  lemma PublishedIsWhole(s: State, i: nat)
    requires Inv(s) && s.producer.Filling? && s.producer.written == |Words(s.producer.entry)|
    requires s.advanced <= i <= |s.scheduled|
    ensures Holds(ProducerStep(s, Publish), i)
  {
    if i < |s.scheduled| {
      assert Holds(s, i);
    } else {
      var w := Words(s.producer.entry);
      assert w[..|w|] == w;
    }
  }

  lemma PublishKeepsSides(s: State)
    requires Inv(s) && s.producer.Filling? && s.producer.written == |Words(s.producer.entry)|
    ensures var t := ProducerStep(s, Publish);
      Shape(t) && ProducerInv(t) && ConsumerInv(t)
  {
    var t := ProducerStep(s, Publish);
    var k := s.advanced + (if s.consumer.Submitted? then 1 else 0);
    assert t.scheduled[..k] == s.scheduled[..k];
    assert t.scheduled == s.scheduled + [s.producer.entry];
  }

  lemma PublishKeepsInv(s: State)
    requires Inv(s)
    ensures Inv(ProducerStep(s, Publish))
  {
    var t := ProducerStep(s, Publish);
    if s.producer.Filling? && s.producer.written == |Words(s.producer.entry)| {
      Successor32(|s.scheduled|);
      Successor64(|s.scheduled|);
      forall i: nat | t.advanced <= i < |t.scheduled|
        ensures Holds(t, i)
      {
        PublishedIsWhole(s, i);
      }
      PublishKeepsSides(s);
      assert Serials(t);
    }
  }

  // The head copy the consumer performs is the oldest copy not yet performed, word for word.
  lemma GatheredIsHead(s: State)
    requires Inv(s) && s.consumer.Handling? && Complete(s.consumer.got)
    ensures Gathered(s.consumer.got) == Words(s.scheduled[s.advanced])
    ensures var w := Words(s.scheduled[s.advanced]); w[0] >= 0 && w[1] >= 0 && w[2] >= 0
    ensures Decode(Gathered(s.consumer.got)) == s.scheduled[s.advanced]
  {
    var w := Words(s.scheduled[s.advanced]);
    assert s.consumer.got[5] == w[5];
    EntryRoundTrip(s.scheduled[s.advanced]);
  }

  lemma Unwrapped(i: nat)
    requires i < TWO64
    ensures Wrap64(i) == i
  {}

  lemma HeadSerial(s: State)
    requires Inv(s) && s.advanced < |s.scheduled|
    ensures Words(s.scheduled[s.advanced])[0] == Wrap64(s.advanced + 1)
  {}

  // What a consumer step that leaves the ring itself alone cannot disturb.
  lemma PrivateToConsumer(s: State, t: State)
    requires Inv(s)
    requires t == s.(consumer := t.consumer, executed := t.executed, completedSerial := t.completedSerial,
                     acknowledged := t.acknowledged, connectionFailed := t.connectionFailed,
                     waitingForBuffer := t.waitingForBuffer)
    ensures Shape(t) && Indices(t) && ProducerInv(t)
    ensures forall i: nat :: t.advanced <= i < |t.scheduled| ==> Holds(t, i)
  {
    assert forall i: nat :: s.advanced <= i < |s.scheduled| ==> Holds(s, i) ==> Holds(t, i);
  }

  lemma LoopTestsKeepInv(s: State, step: Step)
    requires Inv(s) && (step.BeginPass? || step.TestHead? || step.BufferMissing? || step.Reattach?)
    ensures Inv(ConsumerStep(s, step))
  {
    PrivateToConsumer(s, ConsumerStep(s, step));
    IndicesDiffer(s);
  }

  lemma ReadKeepsInv(s: State, k: nat)
    requires Inv(s)
    ensures Inv(ConsumerStep(s, ReadWord(k)))
  {
    PrivateToConsumer(s, ConsumerStep(s, ReadWord(k)));
    if s.consumer.Handling? {
      SlotOfWrapped(s.advanced);
      assert Holds(s, s.advanced);
    }
  }

  lemma SubmitPerformsHead(s: State)
    requires Inv(s) && s.consumer.Handling? && Complete(s.consumer.got)
    ensures ConsumerStep(s, Submit(true)) ==
      s.(executed := s.executed + [s.scheduled[s.advanced]], consumer := Submitted(Wrap64(s.advanced + 1)))
  {
    GatheredIsHead(s);
    HeadSerial(s);
  }

  lemma SubmitKeepsInv(s: State, ok: bool)
    requires Inv(s)
    ensures Inv(ConsumerStep(s, Submit(ok)))
  {
    var t := ConsumerStep(s, Submit(ok));
    PrivateToConsumer(s, t);
    if s.consumer.Handling? && ok && Complete(s.consumer.got) {
      SubmitPerformsHead(s);
      assert s.scheduled[..s.advanced + 1] == s.scheduled[..s.advanced] + [s.scheduled[s.advanced]];
    }
  }

  lemma AdvanceKeepsInv(s: State)
    requires Inv(s)
    ensures Inv(ConsumerStep(s, Advance))
  {
    var t := ConsumerStep(s, Advance);
    Successor32(s.advanced);
    forall i: nat | t.advanced <= i < |t.scheduled|
      ensures Holds(t, i)
    {
      assert Holds(s, i);
    }
  }

  lemma StoreKeepsInv(s: State)
    requires Inv(s)
    ensures Inv(ConsumerStep(s, StoreCompletion))
  {
    var t := ConsumerStep(s, StoreCompletion);
    PrivateToConsumer(s, t);
    if s.advanced < TWO64 {
      Unwrapped(s.advanced);
    }
    assert ConsumerInv(t);
  }

  lemma StepKeepsInv(s: State, step: Step)
    requires Inv(s)
    ensures Inv(Next(s, step))
  {
    match step
    case LoadWriteIndex => LoadsKeepInv(s, step);
    case LoadReadIndex => LoadsKeepInv(s, step);
    case CheckSpace(q) => CheckKeepsInv(s, q);
    case FillWord => FillKeepsInv(s);
    case Publish => PublishKeepsInv(s);
    case ReadWord(k) => ReadKeepsInv(s, k);
    case Submit(ok) => SubmitKeepsInv(s, ok);
    case Advance => AdvanceKeepsInv(s);
    case StoreCompletion => StoreKeepsInv(s);
    case _ => LoopTestsKeepInv(s, step);
  }

  // ---------- runs ----------

  function Run(s: State, steps: seq<Step>): State
    decreases |steps|
  {
    if steps == [] then s else Run(Next(s, steps[0]), steps[1..])
  }

  lemma {:induction false} RunKeepsInv(s: State, steps: seq<Step>)
    requires Inv(s)
    ensures Inv(Run(s, steps))
    decreases |steps|
  {
    if steps != [] {
      StepKeepsInv(s, steps[0]);
      RunKeepsInv(Next(s, steps[0]), steps[1..]);
    }
  }

  // Ring safety, for every interleaving and across index wrap-around.
  lemma RingSafety(steps: seq<Step>)
    ensures var s := Run(Init(), steps);
      // never more than eight entries, and the wrapped indices measure exactly the backlog
      && |s.scheduled| - s.advanced <= CAPACITY
      && Minus32(s.writeIndex, s.readIndex) == |s.scheduled| - s.advanced
      // every published, unread entry is whole in its slot
      && (forall i: nat :: s.advanced <= i < |s.scheduled| ==>
            Words(s.scheduled[i]) <= s.slots[SlotOf(Wrap32(i))])
      // the GPU performed each published copy at most once, in schedule order, exactly as published
      && s.executed <= s.scheduled
      && s.advanced <= |s.executed| <= s.advanced + 1
  {
    InitInv();
    RunKeepsInv(Init(), steps);
    var s := Run(Init(), steps);
    OccupancyFromWrapped(|s.scheduled|, s.advanced);
    forall i: nat | s.advanced <= i < |s.scheduled|
      ensures Words(s.scheduled[i]) <= s.slots[SlotOf(Wrap32(i))]
    {
      assert Holds(s, i);
      SlotOfWrapped(i);
    }
  }

  // lorieGpuCopyIsDone
  predicate IsDone(s: State, serial: nat) { s.completedSerial >= serial }

  // As long as the 64-bit serial has not wrapped, a copy reported done was performed, and so was
  // every earlier one; the head of the queue -- failed, waiting for a buffer or not reached -- is
  // never reported done.
  lemma DoneMeansPerformed(s: State, i: nat)
    requires Inv(s) && i < |s.scheduled| < TWO64
    ensures IsDone(s, s.scheduled[i].serial) <==> i < s.acknowledged
    ensures IsDone(s, s.scheduled[i].serial) ==>
      i < |s.executed| && s.executed[..i + 1] == s.scheduled[..i + 1]
    ensures i >= s.advanced ==> !IsDone(s, s.scheduled[i].serial)
  {
    Unwrapped(i + 1);
    Unwrapped(s.acknowledged);
    if IsDone(s, s.scheduled[i].serial) {
      assert s.executed[..i + 1] == s.scheduled[..i + 1];
    }
  }

  // Between passes every copy advanced past has been acknowledged, even when the pass ended on a
  // failed or waiting entry.
  lemma RestingAcknowledgesAll(s: State, i: nat)
    requires Inv(s) && s.consumer.Resting? && i < |s.scheduled| < TWO64
    ensures IsDone(s, s.scheduled[i].serial) <==> i < |s.executed|
  {
    DoneMeansPerformed(s, i);
  }

  // Without that bound: a copy is reported done exactly when the low 64 bits of the number of copies
  // acknowledged have reached those of its own number.
  lemma ReportedDoneExactly(s: State, i: nat)
    requires Inv(s) && i < |s.scheduled|
    ensures IsDone(s, s.scheduled[i].serial) <==> Wrap64(s.acknowledged) >= Wrap64(i + 1)
  {}

  // The wrap is a real limit: the 2^64-th copy gets serial zero, which is reported done at once.
  lemma SerialWrapReportsEarly(s: State)
    requires Inv(s) && |s.scheduled| == TWO64 && |s.executed| < TWO64
    ensures IsDone(s, s.scheduled[TWO64 - 1].serial)
    ensures !(s.scheduled <= s.executed)
  {
    assert s.scheduled[TWO64 - 1].serial == 0;
  }

  lemma ConsumerGrows(s: State, step: Step)
    requires ConsumerInv(s) && s.acknowledged <= s.advanced
    ensures var t := ConsumerStep(s, step);
      && t.scheduled == s.scheduled && s.executed <= t.executed
      && s.advanced <= t.advanced && s.acknowledged <= t.acknowledged
  {}

  lemma ProducerGrows(s: State, step: Step)
    ensures var t := ProducerStep(s, step);
      && s.scheduled <= t.scheduled && t.executed == s.executed
      && t.advanced == s.advanced && t.acknowledged == s.acknowledged
  {}

  lemma StepGrows(s: State, step: Step)
    requires Inv(s)
    ensures var t := Next(s, step);
      && s.scheduled <= t.scheduled && s.executed <= t.executed
      && s.advanced <= t.advanced && s.acknowledged <= t.acknowledged
  {
    ConsumerGrows(s, step);
    ProducerGrows(s, step);
  }

  lemma {:induction false} HistoryGrows(s: State, steps: seq<Step>)
    requires Inv(s)
    ensures var t := Run(s, steps);
      && s.scheduled <= t.scheduled && s.executed <= t.executed
      && s.advanced <= t.advanced && s.acknowledged <= t.acknowledged
    decreases |steps|
  {
    if steps != [] {
      StepKeepsInv(s, steps[0]);
      StepGrows(s, steps[0]);
      HistoryGrows(Next(s, steps[0]), steps[1..]);
    }
  }

  // completedSerial never goes back, and a copy once done stays done.
  lemma CompletionIsMonotone(s: State, steps: seq<Step>)
    requires Inv(s) && |Run(s, steps).scheduled| < TWO64
    ensures s.completedSerial <= Run(s, steps).completedSerial
    ensures forall serial :: IsDone(s, serial) ==> IsDone(Run(s, steps), serial)
  {
    HistoryGrows(s, steps);
    RunKeepsInv(s, steps);
    Unwrapped(s.acknowledged);
    Unwrapped(Run(s, steps).acknowledged);
  }

  lemma FailedStepSubmitsNothing(s: State, step: Step)
    requires Inv(s) && s.connectionFailed && (s.consumer.Resting? || s.consumer.Leaving?) && !step.Reattach?
    ensures var t := Next(s, step);
      && t.executed == s.executed && t.advanced == s.advanced
      && t.connectionFailed && (t.consumer.Resting? || t.consumer.Leaving?)
  {}

  // After a failed submission nothing more is submitted until the connection is replaced.
  lemma {:induction false} FailureStopsSubmission(s: State, steps: seq<Step>)
    requires Inv(s) && s.connectionFailed && (s.consumer.Resting? || s.consumer.Leaving?)
    requires forall i :: 0 <= i < |steps| ==> !steps[i].Reattach?
    ensures Run(s, steps).executed == s.executed
    ensures Run(s, steps).advanced == s.advanced
    decreases |steps|
  {
    if steps != [] {
      StepKeepsInv(s, steps[0]);
      FailedStepSubmitsNothing(s, steps[0]);
      FailureStopsSubmission(Next(s, steps[0]), steps[1..]);
    }
  }

  // ---------- one pass of the renderer's drain loop ----------

  lemma {:induction false} RunThenStep(s: State, steps: seq<Step>, step: Step)
    ensures Run(s, steps + [step]) == Next(Run(s, steps), step)
    decreases |steps|
  {
    if steps == [] {
      assert [step][1..] == [];
    } else {
      assert (steps + [step])[0] == steps[0] && (steps + [step])[1..] == steps[1..] + [step];
      RunThenStep(Next(s, steps[0]), steps[1..], step);
    }
  }

  datatype Outcome = Performed | NoBuffer | GpuFailure

  // Field by field, the consumer's reads of the head entry.
  method ReadHead(s: State, ghost origin: State, ghost before: seq<Step>) returns (t: State, ghost steps: seq<Step>)
    requires s == Run(origin, before) && s.consumer.Handling?
    ensures t == Run(origin, steps)
    ensures t == s.(consumer := t.consumer)
    ensures t.consumer.Handling? && t.consumer.completed == s.consumer.completed
    ensures forall j: nat :: j < SLOT_WORDS ==> j in t.consumer.got
  {
    t, steps := s, before;
    var k := 0;
    while k < SLOT_WORDS
      invariant k <= SLOT_WORDS
      invariant t == Run(origin, steps)
      invariant t == s.(consumer := t.consumer)
      invariant t.consumer.Handling? && t.consumer.completed == s.consumer.completed
      invariant forall j: nat :: j < k ==> j in t.consumer.got
    {
      RunThenStep(origin, steps, ReadWord(k));
      t, steps := Next(t, ReadWord(k)), steps + [ReadWord(k)];
      k := k + 1;
    }
  }

  lemma ReadAllIsComplete(s: State)
    requires Inv(s) && s.consumer.Handling? && forall j: nat :: j < SLOT_WORDS ==> j in s.consumer.got
    ensures Complete(s.consumer.got)
  {
    var w := Words(s.scheduled[s.advanced]);
    assert 5 < SLOT_WORDS && s.consumer.got[5] == w[5];
  }

  // A head entry that has been read is performed and advanced past.
  method PerformHead(s: State, ghost origin: State, ghost before: seq<Step>) returns (t: State, ghost steps: seq<Step>)
    requires Inv(origin) && s == Run(origin, before) && s.consumer.Handling?
    requires forall j: nat :: j < SLOT_WORDS ==> j in s.consumer.got
    ensures t == Run(origin, steps) && t.scheduled == s.scheduled && t.connectionFailed == s.connectionFailed
    ensures t.consumer.Draining? && t.advanced == s.advanced + 1
  {
    assert Next(s, Submit(true)).consumer.Submitted? by {
      RunKeepsInv(origin, before);
      ReadAllIsComplete(s);
      SubmitPerformsHead(s);
    }
    RunThenStep(origin, before, Submit(true));
    t, steps := Next(s, Submit(true)), before + [Submit(true)];
    RunThenStep(origin, steps, Advance);
    t, steps := Next(t, Advance), steps + [Advance];
  }

  // The body of the drain loop once the head entry has been found readable.
  method HandleHead(s: State, outcome: Outcome, ghost origin: State, ghost before: seq<Step>)
    returns (t: State, ghost steps: seq<Step>)
    requires Inv(origin) && s == Run(origin, before)
    requires s.consumer.Handling? && !s.connectionFailed
    ensures t == Run(origin, steps) && t.scheduled == s.scheduled
    ensures t.connectionFailed == outcome.GpuFailure?
    ensures if outcome.Performed? then t.consumer.Draining? && t.advanced == s.advanced + 1
            else t.consumer.Leaving? && t.advanced == s.advanced
  {
    t, steps := ReadHead(s, origin, before);
    match outcome
    case Performed => t, steps := PerformHead(t, origin, steps);
    case NoBuffer =>
      RunThenStep(origin, steps, BufferMissing);
      t, steps := Next(t, BufferMissing), steps + [BufferMissing];
    case GpuFailure =>
      RunThenStep(origin, steps, Submit(false));
      t, steps := Next(t, Submit(false)), steps + [Submit(false)];
  }

  lemma HeadTest(origin: State, steps: seq<Step>)
    requires Inv(origin)
    ensures var s := Run(origin, steps);
      && s.advanced <= |s.scheduled|
      && (s.readIndex != s.writeIndex <==> s.advanced < |s.scheduled|)
  {
    RunKeepsInv(origin, steps);
    IndicesDiffer(Run(origin, steps));
  }

  // One turn of the drain loop.
  method DrainOne(s: State, outcome: Entry -> Outcome, ghost origin: State, ghost before: seq<Step>)
    returns (t: State, ghost steps: seq<Step>)
    requires Inv(origin) && s == Run(origin, before)
    requires s.consumer.Draining? && !s.connectionFailed && s.advanced <= |s.scheduled|
    ensures t == Run(origin, steps) && t.scheduled == s.scheduled
    ensures s.advanced == |s.scheduled| ==> t.consumer.Leaving? && t.advanced == s.advanced && !t.connectionFailed
    ensures s.advanced < |s.scheduled| ==>
      var o := outcome(s.scheduled[s.advanced]);
      && t.connectionFailed == o.GpuFailure?
      && (if o.Performed? then t.consumer.Draining? && t.advanced == s.advanced + 1
          else t.consumer.Leaving? && t.advanced == s.advanced)
  {
    HeadTest(origin, before);
    RunThenStep(origin, before, TestHead);
    t, steps := Next(s, TestHead), before + [TestHead];
    if t.consumer.Handling? {
      t, steps := HandleHead(t, outcome(t.scheduled[t.advanced]), origin, steps);
    }
  }

  // applyPendingGpuCopiesLocked: drain until the queue is empty or the head cannot be performed.
  method ApplyPendingGpuCopiesLocked(s: State, outcome: Entry -> Outcome, ghost origin: State, ghost before: seq<Step>)
    returns (t: State, ghost steps: seq<Step>)
    requires Inv(origin) && s == Run(origin, before)
    requires s.consumer.Draining? && !s.connectionFailed && s.advanced <= |s.scheduled|
    ensures t == Run(origin, steps) && t.consumer.Leaving?
    ensures t.scheduled == s.scheduled && s.advanced <= t.advanced <= |s.scheduled|
    ensures forall i :: s.advanced <= i < t.advanced ==> outcome(s.scheduled[i]).Performed?
    ensures t.advanced < |s.scheduled| ==>
      outcome(s.scheduled[t.advanced]) == if t.connectionFailed then GpuFailure else NoBuffer
    ensures t.connectionFailed ==> t.advanced < |s.scheduled|
  {
    t, steps := s, before;
    while t.consumer.Draining?
      invariant t == Run(origin, steps) && t.scheduled == s.scheduled && s.advanced <= t.advanced <= |s.scheduled|
      invariant t.consumer.Leaving? || (t.consumer.Draining? && !t.connectionFailed)
      invariant forall i :: s.advanced <= i < t.advanced ==> outcome(s.scheduled[i]).Performed?
      invariant t.consumer.Leaving? && t.advanced < |s.scheduled| ==>
        outcome(s.scheduled[t.advanced]) == if t.connectionFailed then GpuFailure else NoBuffer
      invariant t.connectionFailed ==> t.advanced < |s.scheduled|
      decreases t.consumer.Draining?, |s.scheduled| - t.advanced
    {
      t, steps := DrainOne(t, outcome, origin, steps);
    }
  }

  // applyPendingGpuCopies with `outcome` standing for buffer lookup and the GPU.  The pass is a run
  // of the machine above; it performs the backlog up to the first copy that cannot be performed,
  // keeps that copy at the head, and acknowledges exactly what it performed.
  method ApplyPendingGpuCopies(s: State, outcome: Entry -> Outcome) returns (t: State, ghost steps: seq<Step>)
    requires Inv(s) && s.consumer.Resting?
    ensures t == Run(s, steps) && t.consumer.Resting?
    ensures t.scheduled == s.scheduled && s.advanced <= t.advanced <= |s.scheduled|
    ensures forall i :: s.advanced <= i < t.advanced ==> outcome(s.scheduled[i]).Performed?
    ensures !s.connectionFailed && t.advanced < |s.scheduled| ==> !outcome(s.scheduled[t.advanced]).Performed?
    ensures s.connectionFailed ==> t == s
    ensures t.connectionFailed && !s.connectionFailed ==>
      t.advanced < |s.scheduled| && outcome(s.scheduled[t.advanced]).GpuFailure?
    ensures t.executed == s.scheduled[..t.advanced]
    ensures t.advanced < TWO64 ==> t.acknowledged == t.advanced
  {
    t, steps := s, [];
    HeadTest(s, []);
    if !s.connectionFailed && s.readIndex != s.writeIndex {
      RunThenStep(s, steps, BeginPass);
      t, steps := Next(t, BeginPass), steps + [BeginPass];
      t, steps := ApplyPendingGpuCopiesLocked(t, outcome, s, steps);
      RunThenStep(s, steps, StoreCompletion);
      t, steps := Next(t, StoreCompletion), steps + [StoreCompletion];
    }
    assert t.executed == s.scheduled[..t.advanced] && (t.advanced < TWO64 ==> t.acknowledged == t.advanced) by {
      RunKeepsInv(s, steps);
    }
  }

  // ---------- one call of the X server's scheduler ----------

  // Word by word, the producer's writes of the entry it is filling.
  method FillEntry(s: State, ghost origin: State, ghost before: seq<Step>) returns (t: State, ghost steps: seq<Step>)
    requires s == Run(origin, before) && s.producer.Filling? && s.producer.written == 0
    requires |s.producer.entry.rects| <= MAX_RECTS
    ensures t == Run(origin, steps)
    ensures t == s.(slots := t.slots, producer := s.producer.(written := |Words(s.producer.entry)|))
  {
    t, steps := s, before;
    var n := |Words(s.producer.entry)|;
    var k := 0;
    while k < n
      invariant k <= n
      invariant t == Run(origin, steps)
      invariant t == s.(slots := t.slots, producer := s.producer.(written := k))
    {
      RunThenStep(origin, steps, FillWord);
      t, steps := Next(t, FillWord), steps + [FillWord];
      k := k + 1;
    }
  }

  // The ring half of lorieTryScheduleGpuCopy.  The call is a run of the machine above; it publishes
  // exactly this request with the next serial, or changes nothing the consumer can see.
  method TryScheduleGpuCopy(s: State, q: Request)
    returns (t: State, scheduled: bool, serial: nat, ghost steps: seq<Step>)
    requires Inv(s) && s.producer.Idle?
    ensures t == Run(s, steps) && t.producer.Idle?
    ensures scheduled <==> 0 < |q.rects| <= MAX_RECTS && |s.scheduled| - s.advanced < CAPACITY
    ensures !scheduled ==> t == s
    ensures scheduled ==> serial == Wrap64(|s.scheduled| + 1)
    ensures scheduled ==> t.scheduled == s.scheduled + [Entry(serial, q.src, q.dst, q.xOff, q.yOff, q.rects)]
    ensures t.consumer == s.consumer && t.executed == s.executed && t.completedSerial == s.completedSerial
  {
    steps := [LoadWriteIndex];
    RunThenStep(s, [], LoadWriteIndex);
    t := Next(s, LoadWriteIndex);
    RunThenStep(s, steps, LoadReadIndex);
    t, steps := Next(t, LoadReadIndex), steps + [LoadReadIndex];
    OccupancyFromWrapped(|s.scheduled|, s.advanced);
    Successor64(|s.scheduled|);
    RunThenStep(s, steps, CheckSpace(q));
    t, steps := Next(t, CheckSpace(q)), steps + [CheckSpace(q)];
    scheduled, serial := t.producer.Filling?, t.serialCounter;
    if scheduled {
      t, steps := FillEntry(t, s, steps);
      RunThenStep(s, steps, Publish);
      t, steps := Next(t, Publish), steps + [Publish];
    }
  }

  // ---------- the wrapped serial is reached ----------

  // Both sides are between calls and n copies have been published and performed.
  ghost predicate Caught(s: State, n: nat) {
    && Inv(s)
    && s.producer.Idle?
    && s.consumer.Resting?
    && !s.connectionFailed
    && |s.scheduled| == n == s.advanced
  }

  const ONE_COPY := Request(0, 0, 0, 0, [Rect(0, 0, 0, 0)])

  // The producer's own words are all that a fill changes.
  lemma {:induction false} Filled(s: State, left: nat) returns (steps: seq<Step>)
    requires s.producer.Filling? && |s.producer.entry.rects| <= MAX_RECTS
    requires s.producer.written + left == |Words(s.producer.entry)|
    ensures var t := Run(s, steps);
      t == s.(slots := t.slots, producer := s.producer.(written := |Words(s.producer.entry)|))
    decreases left
  {
    steps := [];
    if left > 0 {
      var rest := Filled(Next(s, FillWord), left - 1);
      steps := [FillWord] + rest;
      assert steps[1..] == rest;
    }
  }

  lemma {:induction false} RunJoins(s: State, a: seq<Step>, b: seq<Step>)
    ensures Run(s, a + b) == Run(Run(s, a), b)
    decreases |a|
  {
    if a == [] {
      assert a + b == b;
    } else {
      assert (a + b)[0] == a[0] && (a + b)[1..] == a[1..] + b;
      RunJoins(Next(s, a[0]), a[1..], b);
    }
  }

  lemma RunOne(s: State, step: Step)
    ensures Run(s, [step]) == Next(s, step)
  {
    assert [step][1..] == [];
  }

  // One more copy is published while the consumer rests.
  lemma OneMore(s: State, n: nat) returns (steps: seq<Step>)
    requires Caught(s, n)
    ensures var t := Run(s, steps);
      && Inv(t) && t.producer.Idle? && t.consumer == s.consumer && !t.connectionFailed
      && |t.scheduled| == n + 1 && t.advanced == n && t.executed == s.executed && t.acknowledged == s.acknowledged
  {
    var loads := [LoadWriteIndex, LoadReadIndex, CheckSpace(ONE_COPY)];
    var s1 := Next(s, LoadWriteIndex);
    var s2 := Next(s1, LoadReadIndex);
    OccupancyFromWrapped(|s.scheduled|, s.advanced);
    var s3 := Next(s2, CheckSpace(ONE_COPY));
    assert s3.producer.Filling? && s3.producer.entry.rects == ONE_COPY.rects;
    RunThenStep(s, [], LoadWriteIndex);
    RunThenStep(s, [LoadWriteIndex], LoadReadIndex);
    RunThenStep(s, [LoadWriteIndex, LoadReadIndex], CheckSpace(ONE_COPY));
    assert loads == [LoadWriteIndex, LoadReadIndex] + [CheckSpace(ONE_COPY)];
    var fill := Filled(s3, |Words(s3.producer.entry)|);
    RunJoins(s, loads, fill);
    RunThenStep(s, loads + fill, Publish);
    steps := loads + fill + [Publish];
    RunKeepsInv(s, steps);
  }

  // The consumer reads word k and all after it.
  lemma {:induction false} ReadFrom(s: State, k: nat) returns (steps: seq<Step>)
    requires s.consumer.Handling? && k <= SLOT_WORDS && forall j: nat :: j < k ==> j in s.consumer.got
    ensures var t := Run(s, steps);
      && t == s.(consumer := t.consumer) && t.consumer.Handling? && t.consumer.completed == s.consumer.completed
      && forall j: nat :: j < SLOT_WORDS ==> j in t.consumer.got
    decreases SLOT_WORDS - k
  {
    steps := [];
    if k < SLOT_WORDS {
      var rest := ReadFrom(Next(s, ReadWord(k)), k + 1);
      steps := [ReadWord(k)] + rest;
      assert steps[1..] == rest;
    }
  }

  // The consumer finds the one copy waiting, and has read it.
  lemma HeadRead(s: State) returns (steps: seq<Step>)
    requires Inv(s) && s.consumer.Resting? && !s.connectionFailed && |s.scheduled| == s.advanced + 1
    ensures var t := Run(s, steps);
      && Inv(t) && t == s.(consumer := t.consumer) && t.consumer.Handling?
      && forall j: nat :: j < SLOT_WORDS ==> j in t.consumer.got
  {
    IndicesDiffer(s);
    var s1 := Next(s, BeginPass);
    var s2 := Next(s1, TestHead);
    assert s2.consumer.Handling?;
    RunThenStep(s, [], BeginPass);
    RunThenStep(s, [BeginPass], TestHead);
    var read := ReadFrom(s2, 0);
    RunJoins(s, [BeginPass] + [TestHead], read);
    steps := [BeginPass] + [TestHead] + read;
    RunKeepsInv(s, steps);
  }

  // It performs the copy it has read.
  lemma HeadPerformed(s: State)
    requires Inv(s) && s.consumer.Handling? && s.advanced < |s.scheduled|
    requires forall j: nat :: j < SLOT_WORDS ==> j in s.consumer.got
    ensures var t := Run(s, [Submit(true), Advance]);
      && Inv(t) && t.consumer.Draining? && t.producer == s.producer && t.connectionFailed == s.connectionFailed
      && t.scheduled == s.scheduled && t.advanced == s.advanced + 1
  {
    ReadAllIsComplete(s);
    SubmitPerformsHead(s);
    RunOne(s, Submit(true));
    RunThenStep(s, [Submit(true)], Advance);
    assert [Submit(true), Advance] == [Submit(true)] + [Advance];
    RunKeepsInv(s, [Submit(true), Advance]);
  }

  // With nothing more to do, it stores the completion.
  lemma BatchStored(s: State)
    requires Inv(s) && s.consumer.Draining? && s.advanced == |s.scheduled|
    ensures var t := Run(s, [TestHead, StoreCompletion]);
      && Inv(t) && t.consumer.Resting? && t.producer == s.producer && t.connectionFailed == s.connectionFailed
      && t.scheduled == s.scheduled && t.advanced == s.advanced
  {
    IndicesDiffer(s);
    RunOne(s, TestHead);
    RunThenStep(s, [TestHead], StoreCompletion);
    assert [TestHead, StoreCompletion] == [TestHead] + [StoreCompletion];
    RunKeepsInv(s, [TestHead, StoreCompletion]);
  }

  lemma {:induction false} CaughtUp(n: nat) returns (steps: seq<Step>)
    ensures Caught(Run(Init(), steps), n)
    decreases n
  {
    steps := [];
    InitInv();
    if n > 0 {
      var before := CaughtUp(n - 1);
      var s := Run(Init(), before);
      var publish := OneMore(s, n - 1);
      var read := HeadRead(Run(s, publish));
      RunJoins(s, publish, read);
      var perform := [Submit(true), Advance] + [TestHead, StoreCompletion];
      var ready := Run(s, publish + read);
      HeadPerformed(ready);
      BatchStored(Run(ready, [Submit(true), Advance]));
      RunJoins(ready, [Submit(true), Advance], [TestHead, StoreCompletion]);
      RunJoins(s, publish + read, perform);
      RunJoins(Init(), before, publish + read + perform);
      steps := before + (publish + read + perform);
    }
  }

  // A run reaches the limit: one copy after n have been performed, where n + 1 is 2^64, the newest is
  // reported done though the renderer has not looked at it.
  lemma EarlyReportIsReached(n: nat) returns (steps: seq<Step>)
    requires n + 1 == TWO64
    ensures var s := Run(Init(), steps);
      && |s.scheduled| == n + 1 && |s.executed| == n
      && IsDone(s, s.scheduled[n].serial)
  {
    var before := CaughtUp(n);
    var s := Run(Init(), before);
    var publish := OneMore(s, n);
    RunJoins(Init(), before, publish);
    steps := before + publish;
    ReportedDoneExactly(Run(Init(), steps), n);
  }
}
