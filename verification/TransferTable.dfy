/**
 The bridge's table of selection transfers: sixteen slots, deferred property work that names a slot
 by index and ticket, and the file descriptors that move through them.

 What a property or a window holds when a handler looks at it is an input (an outcome), so the
 results hold for every client and every host.  Tickets are 32-bit; beside each the model keeps the
 unbounded allocation number, and beside each descriptor where it has gone.
 */
module TransferTable {

  const MAX_PENDING: nat := 16

  datatype Option<T> = None | Some(value: T)

  function Wrap32(n: nat): nat { n % 0x1_0000_0000 }

  // The ticket of a slot is the low half of its allocation number.
  datatype Slot = Slot(
    used: bool, incoming: bool, incremental: bool, queued: bool,
    channel: nat, serial: nat, generation: nat, requestor: nat, property: nat, target: nat,
    fd: Option<nat>, number: nat)

  // Deferred property work; the number is what the ticket stands for.
  datatype Item = Item(slot: nat, number: nat)

  // How many descriptors the bridge was ever given or made, and which it closed or dropped open.
  datatype Files = Files(count: nat, closed: multiset<nat>, lost: multiset<nat>)

  datatype Table = Table(
    enabled: bool, slots: seq<Slot>, work: seq<Item>, allocations: nat, requests: nat, files: Files)

  // How serving a property ended.
  datatype Outcome =
    | Fails
    | Announces(made: bool)   // an INCR announcement: a file is made, or making it fails
    | Continues               // a chunk moved and more are to come
    | Ends                    // the last chunk moved, or the list of targets was read

  // What the host's reply turned out to be worth.
  datatype Answer = Unusable | WindowGone | Small | Large(written: bool)

  datatype Key = Key(serial: nat, generation: nat, channel: nat)

  datatype Event =
    | Enable
    | Reset
    | Request(incoming: bool, key: Key, requestor: nat, property: nat, target: nat, aborts: bool)
    | SelectionChanged(channel: nat)
    | PropertyChanged(requestor: nat, property: nat, deleted: bool, queueWorks: bool)
    | DoWork(outcome: Outcome)
    | Notified(requestor: nat, target: nat, channel: nat, outcome: Outcome)
    | HostReply(key: Key, given: bool, answer: Answer)
    | Expire(slot: nat)
    | OtherCommand(given: bool)

  // ---------- descriptors and slots ----------

  function Open(f: Files): Files { f.(count := f.count + 1) }

  function Close(f: Files, fd: Option<nat>): Files {
    if fd.None? then f else f.(closed := f.closed + multiset{fd.value})
  }

  function Lose(f: Files, fd: Option<nat>): Files {
    if fd.None? then f else f.(lost := f.lost + multiset{fd.value})
  }

  function Put(t: Table, i: nat, s: Slot): Table
    requires i < |t.slots|
  {
    t.(slots := t.slots[i := s])
  }

  function Release(t: Table, i: nat): Table
    requires i < |t.slots|
  {
    var s := t.slots[i];
    if !s.used then t
    else Put(t, i, s.(used := false, fd := None)).(files := Close(t.files, s.fd))
  }

  // The slot takes a descriptor that was just made; whatever it held is dropped without closing.
  function Take(t: Table, i: nat, incremental: bool): Table
    requires i < |t.slots|
  {
    var s := t.slots[i];
    Put(t, i, s.(fd := Some(t.files.count), incremental := incremental)).(files := Lose(Open(t.files), s.fd))
  }

  // A file for the bytes of an incoming transfer, unless it has one.
  function WithFile(t: Table, i: nat): Table
    requires i < |t.slots|
  {
    if t.slots[i].incoming && t.slots[i].fd.None? then Take(t, i, t.slots[i].incremental) else t
  }

  // receive() or sendChunk() on a live slot.
  function Serve(t: Table, i: nat, initial: bool, outcome: Outcome): Table
    requires i < |t.slots|
  {
    match outcome
    case Fails => Release(t, i)
    case Announces(made) =>
      if !initial || !t.slots[i].incoming then Release(t, i)
      else if made then Take(t, i, true)
      else Release(Put(t, i, t.slots[i].(fd := None)).(files := Lose(t.files, t.slots[i].fd)), i)
    case Continues =>
      if t.slots[i].incoming && !t.slots[i].incremental then Release(WithFile(t, i), i) else WithFile(t, i)
    case Ends => Release(WithFile(t, i), i)
  }

  // ---------- searching ----------

  datatype Query =
    | Unused
    | Changed(requestor: nat, property: nat)
    | Awaiting(requestor: nat, target: nat, channel: nat)
    | Asked(key: Key)

  predicate Matches(s: Slot, q: Query) {
    match q
    case Unused => !s.used
    case Changed(requestor, property) =>
      s.used && s.incremental && s.requestor == requestor && s.property == property
    case Awaiting(requestor, target, channel) =>
      s.used && s.incoming && s.requestor == requestor && s.target == target && s.channel == channel
    case Asked(key) => s.used && !s.incoming && Key(s.serial, s.generation, s.channel) == key
  }

  // The first slot from i on that matches, or the length.
  function Find(slots: seq<Slot>, q: Query, i: nat): (found: nat)
    requires i <= |slots|
    ensures i <= found <= |slots|
    ensures found < |slots| ==> Matches(slots[found], q)
    ensures forall j :: i <= j < found ==> !Matches(slots[j], q)
    decreases |slots| - i
  {
    if i == |slots| || Matches(slots[i], q) then i else Find(slots, q, i + 1)
  }

  // ---------- the handlers ----------

  function Allocate(t: Table, i: nat, e: Event, serial: nat): Table
    requires i < |t.slots| && e.Request?
  {
    Put(t, i, Slot(true, e.incoming, false, false, e.key.channel, serial, e.key.generation,
                   e.requestor, e.property, e.target, None, t.allocations + 1))
      .(allocations := t.allocations + 1)
  }

  // request() and outgoingTransfer(): an outgoing one gets the next request serial first.
  function RequestStep(t: Table, e: Event): Table
    requires e.Request?
  {
    if !t.enabled then t
    else
      var t := if e.incoming then t else t.(requests := t.requests + 1);
      var i := Find(t.slots, Unused, 0);
      if i == |t.slots| then t
      else
        var t := Allocate(t, i, e, if e.incoming then e.key.serial else Wrap32(t.requests));
        if e.aborts then Release(t, i) else t
  }

  // Every live slot from i on, of this channel only when one is given.
  function ReleaseAll(t: Table, channel: Option<nat>, i: nat): (r: Table)
    requires i <= |t.slots|
    ensures |r.slots| == |t.slots|
    decreases |t.slots| - i
  {
    if i == |t.slots| then t
    else if channel.None? || t.slots[i].channel == channel.value then ReleaseAll(Release(t, i), channel, i + 1)
    else ReleaseAll(t, channel, i + 1)
  }

  function PropertyStep(t: Table, requestor: nat, property: nat, deleted: bool, queueWorks: bool): Table {
    var i := Find(t.slots, Changed(requestor, property), 0);
    if !t.enabled || i == |t.slots| then t
    else
      var s := t.slots[i];
      if s.queued || s.incoming == deleted || !queueWorks then t
      else Put(t, i, s.(queued := true)).(work := t.work + [Item(i, s.number)])
  }

  predicate Acts(t: Table, item: Item) {
    t.enabled && item.slot < |t.slots| && t.slots[item.slot].used
    && Wrap32(t.slots[item.slot].number) == Wrap32(item.number)
  }

  function WorkStep(t: Table, outcome: Outcome): Table {
    if t.work == [] then t
    else
      var item := t.work[0];
      var t := t.(work := t.work[1..]);
      if Acts(t, item) then
        Serve(Put(t, item.slot, t.slots[item.slot].(queued := false)), item.slot, false, outcome)
      else t
  }

  function NotifiedStep(t: Table, requestor: nat, target: nat, channel: nat, outcome: Outcome): Table {
    var i := Find(t.slots, Awaiting(requestor, target, channel), 0);
    if !t.enabled || i == |t.slots| then t else Serve(t, i, true, outcome)
  }

  function Received(t: Table, given: bool): Table { if given then t.(files := Open(t.files)) else t }

  function Unclaimed(t: Table, given: bool): Table {
    if given then t.(files := Close(Open(t.files), Some(t.files.count))) else t
  }

  // A usable descriptor goes into the slot; what the slot held is dropped.
  function Answered(t: Table, i: nat, answer: Answer): Table
    requires i < |t.slots|
  {
    var t := Take(t, i, t.slots[i].incremental || answer.Large?);
    if answer == Large(true) then t else Release(t, i)
  }

  function ReplyStep(t: Table, key: Key, given: bool, answer: Answer): Table {
    var i := Find(t.slots, Asked(key), 0);
    if !t.enabled || i == |t.slots| then Unclaimed(t, given)
    else if !given || answer.Unusable? then Unclaimed(Release(t, i), given)
    else Answered(t, i, answer)
  }

  function Step(t: Table, e: Event): Table {
    match e
    case Enable => t.(enabled := true)
    case Reset => ReleaseAll(t.(enabled := false), None, 0)
    case Request(_, _, _, _, _, _) => RequestStep(t, e)
    case SelectionChanged(channel) => if t.enabled then ReleaseAll(t, Some(channel), 0) else t
    case PropertyChanged(requestor, property, deleted, queueWorks) =>
      PropertyStep(t, requestor, property, deleted, queueWorks)
    case DoWork(outcome) => WorkStep(t, outcome)
    case Notified(requestor, target, channel, outcome) => NotifiedStep(t, requestor, target, channel, outcome)
    case HostReply(key, given, answer) => ReplyStep(t, key, given, answer)
    case Expire(i) => if i < |t.slots| && t.slots[i].used then Release(t, i) else t
    case OtherCommand(given) => Unclaimed(t, given)
  }

  function Run(t: Table, events: seq<Event>): Table
    decreases |events|
  {
    if events == [] then t else Run(Step(t, events[0]), events[1..])
  }

  const FREE := Slot(false, false, false, false, 0, 0, 0, 0, 0, 0, None, 0)

  function Init(n: nat): Table {
    Table(false, seq(n, i => FREE), [], 0, 0, Files(0, multiset{}, multiset{}))
  }

  // ---------- where the descriptors are ----------

  function Holds(s: Slot, d: nat): nat { if s.used && s.fd == Some(d) then 1 else 0 }

  function Held(slots: seq<Slot>, d: nat): nat {
    if slots == [] then 0 else Held(slots[..|slots| - 1], d) + Holds(slots[|slots| - 1], d)
  }

  lemma {:induction false} HeldUpdate(slots: seq<Slot>, i: nat, s: Slot, d: nat)
    requires i < |slots|
    ensures Held(slots[i := s], d) == Held(slots, d) - Holds(slots[i], d) + Holds(s, d)
  {
    var init, n := slots[..|slots| - 1], |slots| - 1;
    if i < n {
      HeldUpdate(init, i, s, d);
      assert slots[i := s][..n] == init[i := s];
    } else {
      assert slots[i := s][..n] == init;
    }
  }

  // Each descriptor ever seen is in exactly one place: closed once, held by one slot, or lost.
  ghost predicate Settled(slots: seq<Slot>, f: Files, d: nat) {
    f.closed[d] + f.lost[d] + Held(slots, d) == if d < f.count then 1 else 0
  }

  ghost predicate FilesOk(slots: seq<Slot>, f: Files) { forall d :: Settled(slots, f, d) }

  // ---------- the work queue ----------

  function Count(work: seq<Item>, item: Item): nat {
    if work == [] then 0 else Count(work[..|work| - 1], item) + if work[|work| - 1] == item then 1 else 0
  }

  lemma CountSnoc(work: seq<Item>, last: Item, item: Item)
    ensures Count(work + [last], item) == Count(work, item) + if last == item then 1 else 0
  {
    assert (work + [last])[..|work|] == work;
  }

  lemma {:induction false} CountTail(work: seq<Item>, item: Item)
    requires work != []
    ensures Count(work, item) == Count(work[1..], item) + if work[0] == item then 1 else 0
  {
    var init, last := work[..|work| - 1], work[|work| - 1];
    if init != [] {
      CountTail(init, item);
      assert work[1..] == init[1..] + [last];
      CountSnoc(init[1..], last, item);
    } else {
      assert work == [last] && work[1..] == [];
    }
  }

  lemma {:induction false} CountAbsent(work: seq<Item>, item: Item)
    requires item !in work
    ensures Count(work, item) == 0
  {
    if work != [] {
      CountAbsent(work[..|work| - 1], item);
    }
  }

  // A live slot is marked queued exactly when one item carries its ticket.
  ghost predicate SlotWorkOk(s: Slot, i: nat, work: seq<Item>) {
    s.used ==> Count(work, Item(i, s.number)) == if s.queued then 1 else 0
  }

  ghost predicate WorkOk(slots: seq<Slot>, work: seq<Item>) {
    forall i :: 0 <= i < |slots| ==> SlotWorkOk(slots[i], i, work)
  }

  // Work was queued for the slot's present or an earlier occupant.
  ghost predicate OrderOk(slots: seq<Slot>, work: seq<Item>, allocations: nat) {
    && (forall item :: item in work ==> item.slot < |slots| && item.number <= slots[item.slot].number)
    && (forall i :: 0 <= i < |slots| ==> slots[i].number <= allocations)
  }

  ghost predicate EnabledOk(enabled: bool, slots: seq<Slot>) {
    enabled || forall i :: 0 <= i < |slots| ==> !slots[i].used
  }

  // The other parts hold in every run; that queued flags are exact needs that no ticket wraps.
  ghost predicate Inv(t: Table, exact: bool) {
    && FilesOk(t.slots, t.files)
    && (exact ==> WorkOk(t.slots, t.work))
    && OrderOk(t.slots, t.work, t.allocations)
    && EnabledOk(t.enabled, t.slots)
  }

  // ---------- one slot at a time ----------

  // A change that leaves the slot's place in the work queue alone.
  predicate Quiet(s: Slot, r: Slot) { r.number == s.number && (r.used ==> s.used && r.queued == s.queued) }

  lemma QuietKeeps(t: Table, i: nat, r: Slot, exact: bool)
    requires i < |t.slots| && Quiet(t.slots[i], r)
    requires exact ==> WorkOk(t.slots, t.work)
    requires OrderOk(t.slots, t.work, t.allocations) && EnabledOk(t.enabled, t.slots)
    ensures var slots := t.slots[i := r];
      && (exact ==> WorkOk(slots, t.work))
      && OrderOk(slots, t.work, t.allocations)
      && EnabledOk(t.enabled, slots)
  {
    if exact {
      assert SlotWorkOk(t.slots[i], i, t.work);
    }
  }

  lemma ReleaseKeeps(t: Table, i: nat, exact: bool)
    requires Inv(t, exact) && i < |t.slots|
    ensures Inv(Release(t, i), exact)
  {
    var s := t.slots[i];
    if s.used {
      var r := s.(used := false, fd := None);
      QuietKeeps(t, i, r, exact);
      var slots, files := t.slots[i := r], Close(t.files, s.fd);
      forall d ensures Settled(slots, files, d) {
        assert Settled(t.slots, t.files, d);
        HeldUpdate(t.slots, i, r, d);
      }
    }
  }

  lemma TakeKeeps(t: Table, i: nat, incremental: bool, exact: bool)
    requires Inv(t, exact) && i < |t.slots| && t.slots[i].used
    ensures Inv(Take(t, i, incremental), exact)
  {
    var s := t.slots[i];
    var r := s.(fd := Some(t.files.count), incremental := incremental);
    QuietKeeps(t, i, r, exact);
    var slots, files := t.slots[i := r], Lose(Open(t.files), s.fd);
    forall d ensures Settled(slots, files, d) {
      assert Settled(t.slots, t.files, d);
      HeldUpdate(t.slots, i, r, d);
      HeldAtLeast(t.slots, i, d);
    }
  }

  lemma {:induction false} HeldAtLeast(slots: seq<Slot>, i: nat, d: nat)
    requires i < |slots|
    ensures Held(slots, d) >= Holds(slots[i], d)
  {
    if i < |slots| - 1 {
      HeldAtLeast(slots[..|slots| - 1], i, d);
    }
  }

  lemma DropKeeps(t: Table, i: nat, exact: bool)
    requires Inv(t, exact) && i < |t.slots| && t.slots[i].used
    ensures Inv(Put(t, i, t.slots[i].(fd := None)).(files := Lose(t.files, t.slots[i].fd)), exact)
  {
    var s := t.slots[i];
    var r := s.(fd := None);
    QuietKeeps(t, i, r, exact);
    var slots, files := t.slots[i := r], Lose(t.files, s.fd);
    forall d ensures Settled(slots, files, d) {
      assert Settled(t.slots, t.files, d);
      HeldUpdate(t.slots, i, r, d);
    }
  }

  lemma WithFileKeeps(t: Table, i: nat, exact: bool)
    requires Inv(t, exact) && i < |t.slots| && t.slots[i].used
    ensures Inv(WithFile(t, i), exact) && WithFile(t, i).slots[i].used
  {
    if t.slots[i].incoming && t.slots[i].fd.None? {
      TakeKeeps(t, i, t.slots[i].incremental, exact);
    }
  }

  lemma ServeKeeps(t: Table, i: nat, initial: bool, outcome: Outcome, exact: bool)
    requires Inv(t, exact) && i < |t.slots| && t.slots[i].used
    ensures Inv(Serve(t, i, initial, outcome), exact)
  {
    ReleaseKeeps(t, i, exact);
    match outcome
    case Fails =>
    case Announces(made) =>
      TakeKeeps(t, i, true, exact);
      DropKeeps(t, i, exact);
      ReleaseKeeps(Put(t, i, t.slots[i].(fd := None)).(files := Lose(t.files, t.slots[i].fd)), i, exact);
    case Continues =>
      WithFileKeeps(t, i, exact);
      ReleaseKeeps(WithFile(t, i), i, exact);
    case Ends =>
      WithFileKeeps(t, i, exact);
      ReleaseKeeps(WithFile(t, i), i, exact);
  }

  lemma UnclaimedKeeps(t: Table, given: bool, exact: bool)
    requires Inv(t, exact)
    ensures Inv(Unclaimed(t, given), exact)
  {
    if given {
      forall d ensures Settled(t.slots, Close(Open(t.files), Some(t.files.count)), d) {
        assert Settled(t.slots, t.files, d);
      }
    }
  }

  lemma ReplyKeeps(t: Table, key: Key, given: bool, answer: Answer, exact: bool)
    requires Inv(t, exact)
    ensures Inv(ReplyStep(t, key, given, answer), exact)
  {
    var i := Find(t.slots, Asked(key), 0);
    UnclaimedKeeps(t, given, exact);
    if t.enabled && i < |t.slots| {
      ReleaseKeeps(t, i, exact);
      UnclaimedKeeps(Release(t, i), given, exact);
      AnsweredKeeps(t, i, answer, exact);
    }
  }

  lemma AnsweredKeeps(t: Table, i: nat, answer: Answer, exact: bool)
    requires Inv(t, exact) && i < |t.slots| && t.slots[i].used
    ensures Inv(Answered(t, i, answer), exact)
  {
    var incremental := t.slots[i].incremental || answer.Large?;
    TakeKeeps(t, i, incremental, exact);
    ReleaseKeeps(Take(t, i, incremental), i, exact);
  }

  lemma AllocateKeeps(t: Table, i: nat, e: Event, serial: nat, exact: bool)
    requires Inv(t, exact) && t.enabled && i < |t.slots| && !t.slots[i].used && e.Request?
    ensures Inv(Allocate(t, i, e, serial), exact)
  {
    var a := Allocate(t, i, e, serial);
    var r := a.slots[i];
    assert Item(i, r.number) !in t.work;
    CountAbsent(t.work, Item(i, r.number));
    assert forall j :: 0 <= j < |t.slots| && j != i ==> a.slots[j] == t.slots[j];
    forall d ensures Settled(a.slots, t.files, d) {
      assert Settled(t.slots, t.files, d);
      HeldUpdate(t.slots, i, r, d);
    }
  }

  lemma RequestKeeps(t: Table, e: Event, exact: bool)
    requires Inv(t, exact) && e.Request?
    ensures Inv(RequestStep(t, e), exact)
  {
    if t.enabled {
      var t1 := if e.incoming then t else t.(requests := t.requests + 1);
      assert Inv(t1, exact);
      var i := Find(t1.slots, Unused, 0);
      if i < |t1.slots| {
        var serial := if e.incoming then e.key.serial else Wrap32(t1.requests);
        AllocateKeeps(t1, i, e, serial, exact);
        ReleaseKeeps(Allocate(t1, i, e, serial), i, exact);
      }
    }
  }

  lemma {:induction false} ReleaseAllKeeps(t: Table, channel: Option<nat>, i: nat, exact: bool)
    requires Inv(t, exact) && i <= |t.slots|
    ensures Inv(ReleaseAll(t, channel, i), exact)
    decreases |t.slots| - i
  {
    if i < |t.slots| {
      ReleaseKeeps(t, i, exact);
      if channel.None? || t.slots[i].channel == channel.value {
        ReleaseAllKeeps(Release(t, i), channel, i + 1, exact);
      } else {
        ReleaseAllKeeps(t, channel, i + 1, exact);
      }
    }
  }

  lemma {:induction false} ReleaseAllFrees(t: Table, i: nat)
    requires i <= |t.slots| && forall j :: 0 <= j < i ==> !t.slots[j].used
    ensures forall j :: 0 <= j < |t.slots| ==> !ReleaseAll(t, None, i).slots[j].used
    ensures ReleaseAll(t, None, i).enabled == t.enabled
    decreases |t.slots| - i
  {
    if i < |t.slots| {
      ReleaseAllFrees(Release(t, i), i + 1);
    }
  }

  // Disabling releases every slot: the table is inspected only when both are done.
  lemma ResetKeeps(t: Table, exact: bool)
    requires Inv(t, exact)
    ensures Inv(ReleaseAll(t.(enabled := false), None, 0), exact)
  {
    var on := ReleaseAll(t.(enabled := true), None, 0);
    assert Inv(t.(enabled := true), exact);
    ReleaseAllKeeps(t.(enabled := true), None, 0, exact);
    ReleaseAllFrees(t.(enabled := false), 0);
    ReleaseAllIgnores(t, None, 0);
  }

  lemma {:induction false} ReleaseAllIgnores(t: Table, channel: Option<nat>, i: nat)
    requires i <= |t.slots|
    ensures ReleaseAll(t.(enabled := false), channel, i) ==
      ReleaseAll(t.(enabled := true), channel, i).(enabled := false)
    decreases |t.slots| - i
  {
    if i < |t.slots| {
      assert Release(t.(enabled := false), i) == Release(t, i).(enabled := false);
      assert Release(t.(enabled := true), i) == Release(t, i).(enabled := true);
      if channel.None? || t.slots[i].channel == channel.value {
        ReleaseAllIgnores(Release(t, i), channel, i + 1);
      } else {
        ReleaseAllIgnores(t, channel, i + 1);
      }
    }
  }

  lemma PropertyKeeps(t: Table, requestor: nat, property: nat, deleted: bool, queueWorks: bool, exact: bool)
    requires Inv(t, exact)
    ensures Inv(PropertyStep(t, requestor, property, deleted, queueWorks), exact)
  {
    var i := Find(t.slots, Changed(requestor, property), 0);
    if t.enabled && i < |t.slots| && !t.slots[i].queued {
      QueueKeeps(t, i, exact);
    }
  }

  lemma QueueKeeps(t: Table, i: nat, exact: bool)
    requires Inv(t, exact) && i < |t.slots| && t.slots[i].used && !t.slots[i].queued
    ensures Inv(Put(t, i, t.slots[i].(queued := true)).(work := t.work + [Item(i, t.slots[i].number)]), exact)
  {
    var s := t.slots[i];
    var r := s.(queued := true);
    var slots, work := t.slots[i := r], t.work + [Item(i, s.number)];
    if exact {
      assert SlotWorkOk(s, i, t.work);
      forall j | 0 <= j < |slots| ensures SlotWorkOk(slots[j], j, work) {
        assert SlotWorkOk(t.slots[j], j, t.work);
        CountSnoc(t.work, Item(i, s.number), Item(j, slots[j].number));
      }
    }
    forall d ensures Settled(slots, t.files, d) {
      assert Settled(t.slots, t.files, d);
      HeldUpdate(t.slots, i, r, d);
    }
  }

  // ---------- deferred work ----------

  // Fewer than 2^32 allocations were made since the transfer the work belongs to was allocated.
  predicate Recent(t: Table, item: Item) { t.allocations < item.number + 0x1_0000_0000 }

  lemma TicketNames(a: nat, b: nat)
    requires a <= b < a + 0x1_0000_0000
    ensures Wrap32(a) == Wrap32(b) <==> a == b
  {}

  // Work acts exactly on the transfer it was queued for, if that is still live.
  lemma WorkActsOnItsOwner(t: Table, item: Item)
    requires Inv(t, false) && item in t.work && Recent(t, item)
    ensures Acts(t, item) <==> t.enabled && t.slots[item.slot].used && t.slots[item.slot].number == item.number
  {
    TicketNames(item.number, t.slots[item.slot].number);
  }

  // Stale work changes nothing but the queue, whoever has the slot now.
  lemma StaleWorkIsInert(t: Table, outcome: Outcome)
    requires Inv(t, false) && t.work != [] && Recent(t, t.work[0])
    requires !t.slots[t.work[0].slot].used || t.slots[t.work[0].slot].number != t.work[0].number
    ensures Step(t, DoWork(outcome)) == t.(work := t.work[1..])
  {
    WorkActsOnItsOwner(t, t.work[0]);
  }

  // In any reachable table work acts on a transfer other than its own exactly when a positive
  // multiple of 2^32 allocations lies between the two.
  lemma StaleWorkActsExactly(t: Table, item: Item)
    requires Inv(t, false) && item in t.work && t.enabled && t.slots[item.slot].used
    requires t.slots[item.slot].number != item.number
    ensures Acts(t, item) <==>
      exists k: nat :: k > 0 && t.slots[item.slot].number == item.number + k * 0x1_0000_0000
  {
    var gap := t.slots[item.slot].number - item.number;
    assert gap > 0;
    if Acts(t, item) {
      Multiple(item.number, t.slots[item.slot].number);
      assert gap / 0x1_0000_0000 > 0;
    }
  }

  lemma Multiple(a: nat, b: nat)
    requires a <= b
    ensures Wrap32(a) == Wrap32(b) <==> b == a + (b - a) / 0x1_0000_0000 * 0x1_0000_0000
  {}

  // The next work acts on a later occupant of its slot that has work of its own to come.
  predicate Robs(t: Table) {
    t.work != [] && Acts(t, t.work[0]) &&
    var s := t.slots[t.work[0].slot];
    s.number != t.work[0].number && s.queued
  }

  // And that one lives on, no longer marked queued.
  predicate Spoils(t: Table, e: Event) {
    e.DoWork? && Robs(t) && var slots := WorkStep(t, e.outcome).slots; t.work[0].slot < |slots| && slots[t.work[0].slot].used
  }

  lemma DequeueKeeps(t: Table, exact: bool)
    requires Inv(t, exact) && t.work != [] && (exact ==> !Robs(t))
    ensures var item, rest := t.work[0], t.(work := t.work[1..]);
      Inv(if Acts(rest, item) then Put(rest, item.slot, t.slots[item.slot].(queued := false)) else rest, exact)
  {
    var item, work := t.work[0], t.work[1..];
    var acts := Acts(t, item);
    var slots := if acts then t.slots[item.slot := t.slots[item.slot].(queued := false)] else t.slots;
    if exact {
      forall j | 0 <= j < |slots| ensures SlotWorkOk(slots[j], j, work) {
        assert SlotWorkOk(t.slots[j], j, t.work);
        CountTail(t.work, Item(j, slots[j].number));
      }
    }
    forall d ensures Settled(slots, t.files, d) {
      assert Settled(t.slots, t.files, d);
      if acts {
        HeldUpdate(t.slots, item.slot, slots[item.slot], d);
      }
    }
  }

  lemma WorkKeeps(t: Table, outcome: Outcome, exact: bool)
    requires Inv(t, exact) && (exact ==> !Robs(t))
    ensures Inv(WorkStep(t, outcome), exact)
  {
    if t.work != [] {
      DequeueKeeps(t, exact);
      var item, rest := t.work[0], t.(work := t.work[1..]);
      if Acts(rest, item) {
        ServeKeeps(Put(rest, item.slot, t.slots[item.slot].(queued := false)), item.slot, false, outcome, exact);
      }
    }
  }

  lemma ServeTouchesOne(t: Table, i: nat, initial: bool, outcome: Outcome)
    requires i < |t.slots| && t.slots[i].used
    ensures var r := Serve(t, i, initial, outcome);
      && r.work == t.work && |r.slots| == |t.slots|
      && r.slots == t.slots[i := r.slots[i]] && Quiet(t.slots[i], r.slots[i])
  {}

  // What robbing leaves behind.
  lemma RobbedSlots(t: Table, outcome: Outcome)
    requires Robs(t)
    ensures var i, after := t.work[0].slot, WorkStep(t, outcome);
      && after.work == t.work[1..] && |after.slots| == |t.slots| && after.slots == t.slots[i := after.slots[i]]
      && after.slots[i].number == t.slots[i].number && (after.slots[i].used ==> !after.slots[i].queued)
  {
    var item, rest := t.work[0], t.(work := t.work[1..]);
    var cleared := Put(rest, item.slot, t.slots[item.slot].(queued := false));
    ServeTouchesOne(cleared, item.slot, false, outcome);
    assert WorkStep(t, outcome) == Serve(cleared, item.slot, false, outcome);
  }

  lemma RobbedExactly(t: Table, outcome: Outcome)
    requires WorkOk(t.slots, t.work) && Robs(t)
    ensures WorkOk(WorkStep(t, outcome).slots, WorkStep(t, outcome).work) <==> !Spoils(t, DoWork(outcome))
  {
    RobbedSlots(t, outcome);
    var i, after := t.work[0].slot, WorkStep(t, outcome);
    forall j | 0 <= j < |t.slots|
      ensures SlotWorkOk(after.slots[j], j, after.work) <==> !(j == i && after.slots[i].used)
    {
      assert SlotWorkOk(t.slots[j], j, t.work);
      CountTail(t.work, Item(j, t.slots[j].number));
    }
  }

  // One step from an exact table: the flags stay exact unless it spoils one.
  lemma StepIsExact(t: Table, e: Event)
    requires Inv(t, true)
    ensures WorkOk(Step(t, e).slots, Step(t, e).work) <==> !Spoils(t, e)
  {
    if e.DoWork? && Robs(t) {
      RobbedExactly(t, e.outcome);
    } else {
      StepKeepsInv(t, e, true);
    }
  }

  // ---------- every run ----------

  // No step spoils a queued transfer.
  predicate Honest(t: Table, events: seq<Event>)
    decreases |events|
  {
    events == [] || (!Spoils(t, events[0]) && Honest(Step(t, events[0]), events[1..]))
  }

  // After every step of the run, each live transfer is marked queued exactly when one piece of work
  // carries its ticket.
  ghost predicate AlwaysExact(t: Table, events: seq<Event>)
    decreases |events|
  {
    WorkOk(t.slots, t.work) && (events == [] || AlwaysExact(Step(t, events[0]), events[1..]))
  }

  // No transfer's work runs 2^32 or more allocations after the transfer's own.
  predicate Prompt(t: Table, events: seq<Event>)
    decreases |events|
  {
    events == [] ||
    ((events[0].DoWork? && t.work != [] ==> Recent(t, t.work[0])) && Prompt(Step(t, events[0]), events[1..]))
  }

  lemma StepKeepsInv(t: Table, e: Event, exact: bool)
    requires Inv(t, exact) && (exact && e.DoWork? ==> !Robs(t))
    ensures Inv(Step(t, e), exact)
  {
    match e
    case Enable =>
    case Reset => ResetKeeps(t, exact);
    case Request(_, _, _, _, _, _) => RequestKeeps(t, e, exact);
    case SelectionChanged(channel) => ReleaseAllKeeps(t, Some(channel), 0, exact);
    case PropertyChanged(requestor, property, deleted, queueWorks) =>
      PropertyKeeps(t, requestor, property, deleted, queueWorks, exact);
    case DoWork(outcome) => WorkKeeps(t, outcome, exact);
    case Notified(requestor, target, channel, outcome) =>
      var i := Find(t.slots, Awaiting(requestor, target, channel), 0);
      if i < |t.slots| {
        ServeKeeps(t, i, true, outcome, exact);
      }
    case HostReply(key, given, answer) => ReplyKeeps(t, key, given, answer, exact);
    case Expire(i) =>
      if i < |t.slots| {
        ReleaseKeeps(t, i, exact);
      }
    case OtherCommand(given) => UnclaimedKeeps(t, given, exact);
  }

  lemma InitInv(n: nat, exact: bool)
    ensures Inv(Init(n), exact)
  {
    forall d ensures Settled(Init(n).slots, Init(n).files, d) {
      NothingHeld(Init(n).slots, d);
    }
  }

  lemma {:induction false} NothingHeld(slots: seq<Slot>, d: nat)
    requires forall i :: 0 <= i < |slots| ==> !slots[i].used
    ensures Held(slots, d) == 0
  {
    if slots != [] {
      NothingHeld(slots[..|slots| - 1], d);
    }
  }

  lemma {:induction false} RunKeepsInv(t: Table, events: seq<Event>)
    requires Inv(t, false)
    ensures Inv(Run(t, events), false)
    decreases |events|
  {
    if events != [] {
      StepKeepsInv(t, events[0], false);
      RunKeepsInv(Step(t, events[0]), events[1..]);
    }
  }

  lemma {:induction false} RunIsExact(t: Table, events: seq<Event>)
    requires Inv(t, true)
    ensures AlwaysExact(t, events) <==> Honest(t, events)
    decreases |events|
  {
    if events != [] {
      StepIsExact(t, events[0]);
      StepKeepsInv(t, events[0], false);
      if !Spoils(t, events[0]) {
        RunIsExact(Step(t, events[0]), events[1..]);
      }
    }
  }

  // A run keeps each live transfer marked queued exactly while one piece of deferred work carries its
  // ticket, if and only if no wrapped ticket spoils one.
  lemma QueuedMeansOneItem(n: nat, events: seq<Event>)
    ensures AlwaysExact(Init(n), events) <==> Honest(Init(n), events)
  {
    InitInv(n, true);
    RunIsExact(Init(n), events);
  }

  // None does while all work is recent.
  lemma {:induction false} PromptIsHonest(t: Table, events: seq<Event>)
    requires Inv(t, false) && Prompt(t, events)
    ensures Honest(t, events)
    decreases |events|
  {
    if events != [] {
      if events[0].DoWork? && t.work != [] {
        WorkActsOnItsOwner(t, t.work[0]);
      }
      StepKeepsInv(t, events[0], false);
      PromptIsHonest(Step(t, events[0]), events[1..]);
    }
  }

  // In every run no transfer is live while the bridge is disabled.
  lemma NoneLiveWhileDisabled(n: nat, events: seq<Event>)
    ensures var t := Run(Init(n), events);
      !t.enabled ==> forall i :: 0 <= i < |t.slots| ==> !t.slots[i].used
  {
    InitInv(n, false);
    RunKeepsInv(Init(n), events);
  }

  // ---------- descriptors ----------

  // Every descriptor the bridge ever had is closed once, held by exactly one live slot, or lost,
  // and never two of these.
  lemma DescriptorsAreAccounted(n: nat, events: seq<Event>, d: nat)
    ensures var t := Run(Init(n), events);
      t.files.closed[d] + t.files.lost[d] + Held(t.slots, d) == if d < t.files.count then 1 else 0
  {
    InitInv(n, false);
    RunKeepsInv(Init(n), events);
    var t := Run(Init(n), events);
    assert Settled(t.slots, t.files, d);
  }

  // The one family of steps that drop an open descriptor: a reply or an announcement for a slot that
  // already holds one.
  predicate Loses(t: Table, e: Event) {
    t.enabled &&
    match e
    case HostReply(key, given, answer) =>
      var i := Find(t.slots, Asked(key), 0);
      i < |t.slots| && t.slots[i].fd.Some? && given && !answer.Unusable?
    case Notified(requestor, target, channel, outcome) =>
      var i := Find(t.slots, Awaiting(requestor, target, channel), 0);
      i < |t.slots| && t.slots[i].fd.Some? && outcome.Announces?
    case _ => false
  }

  lemma ServeLoses(t: Table, i: nat, initial: bool, outcome: Outcome)
    requires i < |t.slots| && t.slots[i].used
    ensures Serve(t, i, initial, outcome).files.lost == t.files.lost <==>
      !(initial && t.slots[i].incoming && t.slots[i].fd.Some? && outcome.Announces?)
  {
    if t.slots[i].fd.Some? {
      assert |t.files.lost + multiset{t.slots[i].fd.value}| == |t.files.lost| + 1;
    }
  }

  lemma {:induction false} ReleaseAllLosesNone(t: Table, channel: Option<nat>, i: nat)
    requires i <= |t.slots|
    ensures ReleaseAll(t, channel, i).files.lost == t.files.lost
    decreases |t.slots| - i
  {
    if i < |t.slots| {
      if channel.None? || t.slots[i].channel == channel.value {
        ReleaseAllLosesNone(Release(t, i), channel, i + 1);
      } else {
        ReleaseAllLosesNone(t, channel, i + 1);
      }
    }
  }

  lemma ReplyLoses(t: Table, key: Key, given: bool, answer: Answer)
    ensures ReplyStep(t, key, given, answer).files.lost == t.files.lost <==> !Loses(t, HostReply(key, given, answer))
  {
    var i := Find(t.slots, Asked(key), 0);
    if i < |t.slots| && t.slots[i].fd.Some? {
      assert |t.files.lost + multiset{t.slots[i].fd.value}| == |t.files.lost| + 1;
    }
  }

  lemma WorkLosesNone(t: Table, outcome: Outcome)
    ensures WorkStep(t, outcome).files.lost == t.files.lost
  {
    if t.work != [] {
      var item, rest := t.work[0], t.(work := t.work[1..]);
      if Acts(rest, item) {
        ServeLoses(Put(rest, item.slot, t.slots[item.slot].(queued := false)), item.slot, false, outcome);
      }
    }
  }

  // A descriptor is lost by exactly those steps.
  lemma LosesExactly(t: Table, e: Event)
    ensures Step(t, e).files.lost == t.files.lost <==> !Loses(t, e)
  {
    match e
    case Reset => ReleaseAllLosesNone(t.(enabled := false), None, 0);
    case SelectionChanged(channel) => ReleaseAllLosesNone(t, Some(channel), 0);
    case DoWork(outcome) => WorkLosesNone(t, outcome);
    case Notified(requestor, target, channel, outcome) =>
      var i := Find(t.slots, Awaiting(requestor, target, channel), 0);
      if i < |t.slots| {
        ServeLoses(t, i, true, outcome);
      }
    case HostReply(key, given, answer) => ReplyLoses(t, key, given, answer);
    case _ =>
  }

  // ---------- one answer each ----------

  // What has been answered so far: request serials by the host, requestor windows by an owner.
  datatype Seen = Seen(serials: set<nat>, windows: set<nat>)

  function Mark(seen: Seen, e: Event): Seen {
    match e
    case HostReply(key, _, _) => seen.(serials := seen.serials + {key.serial})
    case Notified(requestor, _, _, _) => seen.(windows := seen.windows + {requestor})
    case _ => seen
  }

  // No serial and no requestor window is answered twice.
  predicate OneAnswerEach(seen: Seen, events: seq<Event>)
    decreases |events|
  {
    events != [] ==>
      && (events[0].HostReply? ==> events[0].key.serial !in seen.serials)
      && (events[0].Notified? ==> events[0].requestor !in seen.windows)
      && OneAnswerEach(Mark(seen, events[0]), events[1..])
  }

  // A slot that holds a descriptor, or expects chunks, has been answered.
  predicate SlotSeen(s: Slot, seen: Seen) {
    s.used && (s.fd.Some? || s.incremental) ==>
      if s.incoming then s.requestor in seen.windows else s.serial in seen.serials
  }

  ghost predicate AllSeen(slots: seq<Slot>, seen: Seen) {
    forall i :: 0 <= i < |slots| ==> SlotSeen(slots[i], seen)
  }

  lemma ServeSeen(t: Table, i: nat, initial: bool, outcome: Outcome, seen: Seen)
    requires AllSeen(t.slots, seen) && i < |t.slots| && t.slots[i].used
    requires initial ==> t.slots[i].requestor in seen.windows
    ensures AllSeen(Serve(t, i, initial, outcome).slots, seen)
  {
    assert SlotSeen(t.slots[i], seen);
  }

  lemma {:induction false} ReleaseAllSeen(t: Table, channel: Option<nat>, i: nat, seen: Seen)
    requires i <= |t.slots| && AllSeen(t.slots, seen)
    ensures AllSeen(ReleaseAll(t, channel, i).slots, seen)
    decreases |t.slots| - i
  {
    if i < |t.slots| {
      if channel.None? || t.slots[i].channel == channel.value {
        ReleaseAllSeen(Release(t, i), channel, i + 1, seen);
      } else {
        ReleaseAllSeen(t, channel, i + 1, seen);
      }
    }
  }

  lemma StepSeen(t: Table, e: Event, seen: Seen)
    requires AllSeen(t.slots, seen)
    ensures AllSeen(Step(t, e).slots, Mark(seen, e))
  {
    match e
    case Reset => ReleaseAllSeen(t.(enabled := false), None, 0, seen);
    case SelectionChanged(channel) => ReleaseAllSeen(t, Some(channel), 0, seen);
    case DoWork(outcome) => WorkSeen(t, outcome, seen);
    case Notified(requestor, target, channel, outcome) =>
      var i := Find(t.slots, Awaiting(requestor, target, channel), 0);
      if i < |t.slots| {
        ServeSeen(t, i, true, outcome, Mark(seen, e));
      }
    case Request(_, _, _, _, _, _) => RequestSeen(t, e, seen);
    case HostReply(key, given, answer) => ReplySeen(t, key, given, answer, seen);
    case PropertyChanged(_, _, _, _) =>
    case Enable =>
    case Expire(_) =>
    case OtherCommand(_) =>
  }

  lemma RequestSeen(t: Table, e: Event, seen: Seen)
    requires AllSeen(t.slots, seen) && e.Request?
    ensures AllSeen(RequestStep(t, e).slots, seen)
  {}

  lemma ReplySeen(t: Table, key: Key, given: bool, answer: Answer, seen: Seen)
    requires AllSeen(t.slots, seen)
    ensures AllSeen(ReplyStep(t, key, given, answer).slots, Mark(seen, HostReply(key, given, answer)))
  {}

  lemma WorkSeen(t: Table, outcome: Outcome, seen: Seen)
    requires AllSeen(t.slots, seen)
    ensures AllSeen(WorkStep(t, outcome).slots, seen)
  {
    if t.work != [] {
      var item, rest := t.work[0], t.(work := t.work[1..]);
      if Acts(rest, item) {
        ServeSeen(Put(rest, item.slot, t.slots[item.slot].(queued := false)), item.slot, false, outcome, seen);
      }
    }
  }

  lemma AnsweredOnceLosesNone(t: Table, e: Event, seen: Seen)
    requires AllSeen(t.slots, seen)
    requires e.HostReply? ==> e.key.serial !in seen.serials
    requires e.Notified? ==> e.requestor !in seen.windows
    ensures !Loses(t, e)
  {}

  lemma {:induction false} RunLosesNone(t: Table, events: seq<Event>, seen: Seen)
    requires AllSeen(t.slots, seen) && OneAnswerEach(seen, events)
    ensures Run(t, events).files.lost == t.files.lost
    decreases |events|
  {
    if events != [] {
      AnsweredOnceLosesNone(t, events[0], seen);
      LosesExactly(t, events[0]);
      StepSeen(t, events[0], seen);
      RunLosesNone(Step(t, events[0]), events[1..], Mark(seen, events[0]));
    }
  }

  // With at most one answer to each request serial and each requestor window, every descriptor is
  // closed exactly once or held by exactly one live transfer, in every run.
  lemma AnsweredOnceNothingIsLost(n: nat, events: seq<Event>, d: nat)
    requires OneAnswerEach(Seen({}, {}), events)
    ensures var t := Run(Init(n), events);
      t.files.closed[d] + Held(t.slots, d) == if d < t.files.count then 1 else 0
  {
    RunLosesNone(Init(n), events, Seen({}, {}));
    DescriptorsAreAccounted(n, events, d);
  }

  // Either half of that condition matters: a live slot that holds a descriptor drops it when the same
  // serial is answered again, and when the same owner announces again.
  lemma SecondAnswerLoses(t: Table, key: Key, fd: nat)
    requires t.enabled && Find(t.slots, Asked(key), 0) < |t.slots| && t.slots[Find(t.slots, Asked(key), 0)].fd == Some(fd)
    ensures Step(t, HostReply(key, true, Large(true))).files.lost == t.files.lost + multiset{fd}
  {}

  lemma SecondAnnouncementLoses(t: Table, requestor: nat, target: nat, channel: nat, fd: nat, made: bool)
    requires var i := Find(t.slots, Awaiting(requestor, target, channel), 0);
      t.enabled && i < |t.slots| && t.slots[i].fd == Some(fd)
    ensures Step(t, Notified(requestor, target, channel, Announces(made))).files.lost == t.files.lost + multiset{fd}
  {}

  lemma RunCons(t: Table, e: Event, rest: seq<Event>)
    ensures Run(t, [e] + rest) == Run(Step(t, e), rest)
  {
    assert ([e] + rest)[1..] == rest;
  }

  lemma RunFour(t: Table, a: Event, b: Event, c: Event, d: Event)
    ensures Run(t, [a, b, c, d]) == Step(Step(Step(Step(t, a), b), c), d)
  {
    assert [a, b, c, d] == [a] + ([b] + ([c] + ([d] + [])));
    RunCons(t, a, [b] + ([c] + ([d] + [])));
    RunCons(Step(t, a), b, [c] + ([d] + []));
    RunCons(Step(Step(t, a), b), c, [d] + []);
    RunCons(Step(Step(Step(t, a), b), c), d, []);
  }

  // From the start: one request, the same serial answered twice with a large file.
  lemma SecondAnswerRun(n: nat, key: Key)
    requires n > 0 && key.serial == 1
    ensures var reply := HostReply(key, true, Large(true));
      Run(Init(n), [Enable, Request(false, key, 7, 8, 9, false), reply, reply]).files.lost == multiset{0}
  {
    var request := Request(false, key, 7, 8, 9, false);
    var reply := HostReply(key, true, Large(true));
    RunFour(Init(n), Enable, request, reply, reply);
    var asked := Step(Step(Init(n), Enable), request);
    assert asked.slots[0].used && Find(asked.slots, Asked(key), 0) == 0;
    var answered := Step(asked, reply);
    assert answered.slots[0].fd == Some(0) && Find(answered.slots, Asked(key), 0) == 0;
  }

  // From the start: one request, the same owner announcing an incremental transfer twice.
  lemma SecondAnnouncementRun(n: nat, key: Key)
    requires n > 0
    ensures var notice := Notified(7, 9, key.channel, Announces(true));
      Run(Init(n), [Enable, Request(true, key, 7, 8, 9, false), notice, notice]).files.lost == multiset{0}
  {
    var request := Request(true, key, 7, 8, 9, false);
    var notice := Notified(7, 9, key.channel, Announces(true));
    RunFour(Init(n), Enable, request, notice, notice);
    var asked := Step(Step(Init(n), Enable), request);
    assert asked.slots[0].used && Find(asked.slots, Awaiting(7, 9, key.channel), 0) == 0;
    var announced := Step(asked, notice);
    assert announced.slots[0].fd == Some(0) && Find(announced.slots, Awaiting(7, 9, key.channel), 0) == 0;
  }

  // ---------- a ticket that wraps ----------

  const FIRST := Request(true, Key(0, 0, 0), 7, 8, 9, false)
  const OTHER := Request(true, Key(0, 0, 0), 17, 18, 19, false)

  // Other transfers come and go in the second slot.
  function Others(k: nat): seq<Event> { if k == 0 then [] else [OTHER, Expire(1)] + Others(k - 1) }

  // One long transfer in the first slot, nothing else live.
  predicate Aging(t: Table, allocations: nat) {
    && t.enabled && t.work == [] && t.allocations == allocations && |t.slots| >= 2
    && t.slots[0].used && t.slots[0].incoming && t.slots[0].incremental && !t.slots[0].queued
    && t.slots[0].requestor == 7 && t.slots[0].property == 8 && t.slots[0].number == 1
    && !t.slots[1].used
  }

  lemma AgingStarts(n: nat)
    requires n >= 2
    ensures var t := Run(Init(n), [Enable, FIRST, Notified(7, 9, 0, Announces(true)), OtherCommand(false)]);
      Aging(t, 1) && |t.slots| == n
  {
    RunFour(Init(n), Enable, FIRST, Notified(7, 9, 0, Announces(true)), OtherCommand(false));
    var asked := Step(Step(Init(n), Enable), FIRST);
    assert asked.slots[0].used && Find(asked.slots, Awaiting(7, 9, 0), 0) == 0;
  }

  lemma AgingRound(t: Table, allocations: nat)
    requires Aging(t, allocations)
    ensures Aging(Step(Step(t, OTHER), Expire(1)), allocations + 1)
  {
    assert Find(t.slots, Unused, 0) == Find(t.slots, Unused, 1) == 1;
  }

  lemma {:induction false} AgingGoesOn(t: Table, allocations: nat, k: nat)
    requires Aging(t, allocations)
    ensures Aging(Run(t, Others(k)), allocations + k)
    decreases k
  {
    if k > 0 {
      var events := Others(k);
      var t1 := Step(t, OTHER);
      AgingRound(t, allocations);
      assert events[0] == OTHER && events[1..] == [Expire(1)] + Others(k - 1);
      assert events[1..][0] == Expire(1) && events[1..][1..] == Others(k - 1);
      assert Run(t, events) == Run(t1, events[1..]) == Run(Step(t1, Expire(1)), Others(k - 1));
      AgingGoesOn(Step(t1, Expire(1)), allocations + 1, k - 1);
    }
  }

  // Stale work waits, and acts on the transfer that has the slot now, whose own work is still to come.
  predicate Wrapped(w: Table) {
    && w.enabled && w.work == [Item(0, 1)] && |w.slots| > 0 && Acts(w, Item(0, 1))
    && var s := w.slots[0];
       && s.used && s.number != 1 && s.incoming && !s.queued && s.fd == None
       && s.requestor == 17 && s.property == 18 && s.target == 19 && s.channel == 0
  }

  // The long transfer's property changes, it expires, and its slot is given to another.
  lemma TicketWraps(t: Table, allocations: nat)
    requires Aging(t, allocations) && allocations == 0x1_0000_0000
    ensures var w := Run(t, [PropertyChanged(7, 8, false, true), Expire(0), OTHER, OtherCommand(false)]);
      Wrapped(w) && w.allocations == t.allocations + 1
  {
    RunFour(t, PropertyChanged(7, 8, false, true), Expire(0), OTHER, OtherCommand(false));
    assert Find(t.slots, Changed(7, 8), 0) == 0;
    var queued := Step(t, PropertyChanged(7, 8, false, true));
    var freed := Step(queued, Expire(0));
    assert Find(freed.slots, Unused, 0) == 0;
    assert Wrap32(0x1_0000_0001) == 1 == Wrap32(1);
  }

  lemma {:induction false} RunJoins(t: Table, a: seq<Event>, b: seq<Event>)
    ensures Run(t, a + b) == Run(Run(t, a), b)
    decreases |a|
  {
    if a == [] {
      assert a + b == b;
    } else {
      assert (a + b)[0] == a[0] && (a + b)[1..] == a[1..] + b;
      RunJoins(Step(t, a[0]), a[1..], b);
    }
  }

  function WrappingRun(k: nat): seq<Event> {
    [Enable, FIRST, Notified(7, 9, 0, Announces(true)), OtherCommand(false)] + Others(k)
    + [PropertyChanged(7, 8, false, true), Expire(0), OTHER, OtherCommand(false)]
  }

  // From the start: a transfer that lives while 2^32 - 1 others come and go is queued, expires, and
  // one allocation later its work acts on the next occupant of the slot.  How few allocations were
  // made while the work waited does not matter.
  lemma WrappedTicketActs(n: nat, k: nat)
    requires n >= 2 && k + 1 == 0x1_0000_0000
    ensures Wrapped(Run(Init(n), WrappingRun(k)))
  {
    var start := [Enable, FIRST, Notified(7, 9, 0, Announces(true)), OtherCommand(false)];
    var finish := [PropertyChanged(7, 8, false, true), Expire(0), OTHER, OtherCommand(false)];
    AgingStarts(n);
    AgingGoesOn(Run(Init(n), start), 1, k);
    RunJoins(Init(n), start, Others(k));
    RunJoins(Init(n), start + Others(k), finish);
    TicketWraps(Run(Init(n), start + Others(k)), k + 1);
  }

  lemma SpoiledNext(w: Table)
    requires Wrapped(w)
    ensures var notice, change := Notified(17, 19, 0, Announces(true)), PropertyChanged(17, 18, false, true);
      var ticket := Item(0, w.slots[0].number);
      Run(w, [notice, change, DoWork(Continues), change]).work == [ticket, ticket]
  {
    var notice, change := Notified(17, 19, 0, Announces(true)), PropertyChanged(17, 18, false, true);
    RunFour(w, notice, change, DoWork(Continues), change);
    assert Find(w.slots, Awaiting(17, 19, 0), 0) == 0;
    var announced := Step(w, notice);
    assert Find(announced.slots, Changed(17, 18), 0) == 0;
    var queued := Step(announced, change);
    var robbed := Step(queued, DoWork(Continues));
    assert Find(robbed.slots, Changed(17, 18), 0) == 0;
  }

  // The same run goes on: the occupant's own work is queued, the wrapped ticket takes its mark, and
  // its next change queues it a second time.
  lemma WrappedTicketSpoils(n: nat, k: nat)
    requires n >= 2 && k + 1 == 0x1_0000_0000
    ensures var change := PropertyChanged(17, 18, false, true);
      var v := Run(Init(n), WrappingRun(k) + [Notified(17, 19, 0, Announces(true)), change, DoWork(Continues), change]);
      |v.work| == 2 && v.work[0] == v.work[1]
  {
    var change := PropertyChanged(17, 18, false, true);
    var more := [Notified(17, 19, 0, Announces(true)), change, DoWork(Continues), change];
    WrappedTicketActs(n, k);
    RunJoins(Init(n), WrappingRun(k), more);
    SpoiledNext(Run(Init(n), WrappingRun(k)));
  }

  // ---------- the table itself ----------

  class Transfers {
    const slots: array<Slot>
    var enabled: bool
    var work: seq<Item>
    var allocations: nat
    var requests: nat
    var files: Files

    ghost function View(): Table reads this, slots {
      Table(enabled, slots[..], work, allocations, requests, files)
    }

    constructor ()
      ensures fresh(slots) && View() == Init(MAX_PENDING)
    {
      slots := new Slot[MAX_PENDING](i => FREE);
      enabled, work, allocations, requests := false, [], 0, 0;
      files := Files(0, multiset{}, multiset{});
      new;
      assert slots[..] == Init(MAX_PENDING).slots;
    }

    // The scan every handler starts with.
    method Search(q: Query) returns (i: nat)
      ensures i == Find(slots[..], q, 0)
    {
      i := 0;
      while i < slots.Length && !Matches(slots[i], q)
        invariant i <= slots.Length
        invariant Find(slots[..], q, 0) == Find(slots[..], q, i)
      {
        i := i + 1;
      }
    }

    method ReleaseSlot(i: nat)
      requires i < slots.Length
      modifies this`files, slots
      ensures View() == Release(old(View()), i)
    {
      var s := slots[i];
      if !s.used { return; }
      if s.fd.Some? {
        files := Close(files, s.fd);
      }
      slots[i] := s.(used := false, fd := None);
    }

    method ReleaseEvery(channel: Option<nat>)
      modifies this`files, slots
      ensures View() == ReleaseAll(old(View()), channel, 0)
    {
      var i := 0;
      while i < slots.Length
        invariant i <= slots.Length
        invariant ReleaseAll(old(View()), channel, 0) == ReleaseAll(View(), channel, i)
      {
        if channel.None? || slots[i].channel == channel.value {
          ReleaseSlot(i);
        }
        i := i + 1;
      }
    }

    method DataReset()
      modifies this, slots
      ensures View() == Step(old(View()), Reset)
    {
      enabled := false;
      ReleaseEvery(None);
    }

    method OpenTransfer(e: Event) returns (i: nat)
      requires e.Request?
      modifies this, slots
      ensures View() == Step(old(View()), e)
    {
      i := slots.Length;
      if !enabled { return; }
      if !e.incoming {
        requests := requests + 1;
      }
      i := Search(Unused);
      if i == slots.Length { return; }
      allocations := allocations + 1;
      slots[i] := Slot(true, e.incoming, false, false, e.key.channel,
                       if e.incoming then e.key.serial else Wrap32(requests), e.key.generation,
                       e.requestor, e.property, e.target, None, allocations);
      if e.aborts {
        ReleaseSlot(i);
      }
    }

    method OnPropertyChanged(requestor: nat, property: nat, deleted: bool, queueWorks: bool)
      modifies this`work, slots
      ensures View() == Step(old(View()), PropertyChanged(requestor, property, deleted, queueWorks))
    {
      if !enabled { return; }
      var i := Search(Changed(requestor, property));
      if i == slots.Length { return; }
      var s := slots[i];
      if !s.queued && ((s.incoming && !deleted) || (!s.incoming && deleted)) && queueWorks {
        slots[i] := s.(queued := true);
        work := work + [Item(i, s.number)];
      }
    }

    // The slot's descriptor becomes one just opened.
    method TakeFile(i: nat, incremental: bool)
      requires i < slots.Length
      modifies this`files, slots
      ensures View() == Take(old(View()), i, incremental)
    {
      var made := files.count;
      files := Lose(Open(files), slots[i].fd);
      slots[i] := slots[i].(fd := Some(made), incremental := incremental);
    }

    method ServeSlot(i: nat, initial: bool, outcome: Outcome)
      requires i < slots.Length
      modifies this`files, slots
      ensures View() == Serve(old(View()), i, initial, outcome)
    {
      var s := slots[i];
      match outcome
      case Fails => ReleaseSlot(i);
      case Announces(made) =>
        if !initial || !s.incoming {
          ReleaseSlot(i);
        } else if made {
          TakeFile(i, true);
        } else {
          files := Lose(files, s.fd);
          slots[i] := s.(fd := None);
          ReleaseSlot(i);
        }
      case Continues =>
        if s.incoming && s.fd.None? {
          TakeFile(i, s.incremental);
        }
        if s.incoming && !s.incremental {
          ReleaseSlot(i);
        }
      case Ends =>
        if s.incoming && s.fd.None? {
          TakeFile(i, s.incremental);
        }
        ReleaseSlot(i);
    }

    method PropertyWork(outcome: Outcome)
      requires forall k :: 0 <= k < |work| ==> work[k].slot < slots.Length
      modifies this`work, this`files, slots
      ensures View() == Step(old(View()), DoWork(outcome))
    {
      if work == [] { return; }
      var item := work[0];
      work := work[1..];
      var s := slots[item.slot];
      if enabled && s.used && Wrap32(s.number) == Wrap32(item.number) {
        slots[item.slot] := s.(queued := false);
        ServeSlot(item.slot, false, outcome);
      }
    }

    method OnSelectionNotify(requestor: nat, target: nat, channel: nat, outcome: Outcome)
      modifies this`files, slots
      ensures View() == Step(old(View()), Notified(requestor, target, channel, outcome))
    {
      if !enabled { return; }
      var i := Search(Awaiting(requestor, target, channel));
      if i < slots.Length {
        ServeSlot(i, true, outcome);
      }
    }

    method OnReply(key: Key, given: bool, answer: Answer)
      modifies this`files, slots
      ensures View() == Step(old(View()), HostReply(key, given, answer))
    {
      var i := slots.Length;
      if enabled {
        i := Search(Asked(key));
      }
      if i < slots.Length && given && !answer.Unusable? {
        TakeFile(i, slots[i].incremental || answer.Large?);
        if answer != Large(true) {
          ReleaseSlot(i);
        }
        return;
      }
      if i < slots.Length {
        ReleaseSlot(i);
      }
      if given {
        files := Close(Open(files), Some(files.count));
      }
    }
  }
}
