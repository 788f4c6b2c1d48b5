/**
 What the X server keeps about deferred GPU copies on its own side: the pending counters and extra
 references taken when a copy is scheduled and given back when it is acknowledged, and the rule by
 which a CPU access decides whether to take the lock it shares with the renderer.

 A copy is in flight from its scheduling to its one acknowledgement.  Window trees, EXA and the
 renderer choose the events; what they guarantee is written into each event's guard: a pixmap that
 Present still holds is not destroyed, and EXA folds nested accesses to one pixmap into one pair.
 */
module GpuCopyAccess {

  type Id = nat // zero is NULL

  datatype Kind = Regular | Fd | Ahb

  // storage names the memory behind the buffer; owned says that a pixmap's own reference is out.
  datatype Buffer = Buffer(kind: Kind, refs: int, pending: int, storage: nat, owned: bool)

  datatype Copy = Copy(serial: nat, pixmap: Id, src: Id, dst: Id, toRoot: bool)

  datatype Ledger = Ledger(bufs: map<Id, Buffer>, inflight: seq<Copy>, rootPending: int)

  datatype Pixmap = Pixmap(buffer: Id, mem: bool, exported: bool)

  // priv->locked != NULL, priv->wasLocked, between Prepare and Finish, priv->accessGpuLocked
  datatype Access = Access(mapped: bool, wasMapped: bool, open: bool, gpuLocked: bool)

  datatype State = State(
    legacy: bool, ledger: Ledger, pixs: map<Id, Pixmap>, root: Id,
    access: map<Id, Access>, depth: int,
    allocations: nat, serials: nat)

  datatype Index = Dest | Src | Mask | AuxDest | AuxSrc | AuxMask

  predicate Writes(i: Index) { i.Dest? || i.AuxDest? }

  datatype Event =
    | CreatePixmap(p: Id, kind: Kind, empty: bool)
    | ReplaceRoot(p: Id)                           // a resize: a new pixmap becomes the screen's
    | DestroyPixmap(p: Id)
    | SetMem(p: Id)
    | SetRootWindowPixmap(was: Id, next: Id)       // the screen's mapping moves with it
    | ExportPixmap(p: Id, works: bool, dmaBuf: bool)
    | MakeDmaBuf(p: Id, works: bool)
    | Schedule(p: Id, d: Id, srcWorks: bool, dstWorks: bool, room: bool)
    | Ack(i: nat)
    | Prepare(p: Id, index: Index, fails: bool)
    | Finish(p: Id)

  function Init(legacy: bool): State { State(legacy, Ledger(map[], [], 0), map[], 0, map[], 0, 0, 0) }

  // ---------- buffers ----------

  function Acquire(bufs: map<Id, Buffer>, b: Id): map<Id, Buffer> {
    if b in bufs then bufs[b := bufs[b].(refs := bufs[b].refs + 1, pending := bufs[b].pending + 1)] else bufs
  }

  // LorieBuffer_gpuCopyPendingDec then LorieBuffer_release
  function Release(bufs: map<Id, Buffer>, b: Id): map<Id, Buffer> {
    if b !in bufs then bufs
    else if bufs[b].refs == 1 then bufs - {b}
    else bufs[b := bufs[b].(refs := bufs[b].refs - 1, pending := bufs[b].pending - 1)]
  }

  // The pixmap's own reference.
  function Disown(bufs: map<Id, Buffer>, b: Id): map<Id, Buffer> {
    if b !in bufs then bufs
    else if bufs[b].refs == 1 then bufs - {b}
    else bufs[b := bufs[b].(refs := bufs[b].refs - 1, owned := false)]
  }

  // LorieBuffer_convert: only a regular buffer changes.
  function Convert(b: Buffer, kind: Kind, works: bool): Buffer {
    if b.kind.Regular? && works then b.(kind := kind, storage := b.storage + 1) else b
  }

  // LorieBuffer_makeDmaBuf
  function Promote(b: Buffer, works: bool): Buffer {
    if b.kind.Regular? && b.refs == 1 && b.pending == 0 && works
    then b.(kind := Fd, storage := b.storage + 1) else b
  }

  // lorieEnsureGpuSampleable: a converted buffer is mapped again.
  function Ensure(s: State, p: Id, kind: Kind, works: bool): State
    requires p in s.pixs && p in s.access
  {
    var b := s.pixs[p].buffer;
    if b !in s.ledger.bufs || s.pixs[p].mem then s
    else
      var buffer := s.ledger.bufs[b];
      s.(ledger := s.ledger.(bufs := s.ledger.bufs[b := Convert(buffer, kind, works)]),
         access := if buffer.kind.Regular? && works then s.access[p := s.access[p].(mapped := true)] else s.access)
  }

  predicate Sampleable(s: State, p: Id, kind: Kind) {
    p in s.pixs && !s.pixs[p].mem && s.pixs[p].buffer in s.ledger.bufs && s.ledger.bufs[s.pixs[p].buffer].kind == kind
  }

  // ---------- schedule and acknowledge ----------

  function Enqueue(l: Ledger, c: Copy): Ledger {
    var bufs := Acquire(l.bufs, c.src);
    if c.toRoot then Ledger(bufs, l.inflight + [c], l.rootPending + 1)
    else Ledger(Acquire(bufs, c.dst), l.inflight + [c], l.rootPending)
  }

  function Publish(s: State, p: Id, d: Id): State
    requires p in s.pixs && d in s.pixs
  {
    var c := Copy(s.serials + 1, p, s.pixs[p].buffer, s.pixs[d].buffer, d == s.root);
    s.(ledger := Enqueue(s.ledger, c), serials := s.serials + 1)
  }

  function ScheduleStep(s: State, p: Id, d: Id, srcWorks: bool, dstWorks: bool, room: bool): State {
    if s.legacy || p !in s.pixs || p !in s.access then s
    else
      var s := Ensure(s, p, Ahb, srcWorks);
      if !Sampleable(s, p, Ahb) || d !in s.pixs || d !in s.access then s
      else
        var s := Ensure(s, d, Ahb, dstWorks);
        if !Sampleable(s, d, Ahb) || !room then s else Publish(s, p, d)
  }

  function Remove<T>(q: seq<T>, i: nat): seq<T>
    requires i < |q|
  {
    q[..i] + q[i + 1..]
  }

  // lorieGpuCopyAck releases the buffer the pixmap has now.
  function Settle(l: Ledger, i: nat, src: Id): Ledger
    requires i < |l.inflight|
  {
    var c := l.inflight[i];
    var bufs := Release(l.bufs, src);
    if c.toRoot then Ledger(bufs, Remove(l.inflight, i), l.rootPending - 1)
    else Ledger(Release(bufs, c.dst), Remove(l.inflight, i), l.rootPending)
  }

  // ---------- CPU access ----------

  predicate NeedsLock(legacy: bool, bufs: map<Id, Buffer>, rootPending: int, p: Pixmap, isRoot: bool, index: Index) {
    p.exported
    || (if isRoot then index.Dest? || (rootPending != 0 && !legacy)
        else !legacy && p.buffer in bufs && bufs[p.buffer].kind.Ahb? && bufs[p.buffer].pending != 0)
  }

  predicate NeedsGpuLock(s: State, p: Id, index: Index)
    requires p in s.pixs
  {
    NeedsLock(s.legacy, s.ledger.bufs, s.ledger.rootPending, s.pixs[p], p == s.root, index)
  }

  function PrepareStep(s: State, p: Id, index: Index, fails: bool): State {
    if p !in s.pixs || p !in s.access || s.access[p].open then s
    else
      var locks := NeedsGpuLock(s, p, index);
      if fails && !s.access[p].mapped && !s.pixs[p].mem then s
      else
        s.(access := s.access[p := Opened(s.access[p], s.pixs[p].mem, locks)],
           depth := s.depth + if locks then 1 else 0)
  }

  // A pixmap in memory of its own, or mapped already, stays as it is; another is mapped for the access.
  function Opened(a: Access, mem: bool, locks: bool): Access {
    if a.mapped || mem then Access(a.mapped, true, true, locks) else Access(true, false, true, locks)
  }

  function FinishStep(s: State, p: Id): State {
    if p !in s.access || !s.access[p].open then s
    else
      var a := s.access[p];
      s.(access := s.access[p := Access(a.mapped && a.wasMapped, a.wasMapped, false, false)],
         depth := s.depth - if a.gpuLocked then 1 else 0)
  }

  // ---------- every event ----------

  function AddPixmap(s: State, p: Id, kind: Kind): State {
    var b := s.allocations + 1;
    s.(pixs := s.pixs[p := Pixmap(b, false, false)], access := s.access[p := Access(true, false, false, false)],
       ledger := s.ledger.(bufs := s.ledger.bufs[b := Buffer(kind, 1, 0, 0, true)]), allocations := b)
  }

  predicate HeldByPresent(s: State, p: Id) { exists c :: c in s.ledger.inflight && c.pixmap == p }

  function MarkExported(s: State, p: Id): State
    requires p in s.pixs
  {
    s.(pixs := s.pixs[p := s.pixs[p].(exported := true)])
  }

  function ExportStep(s: State, p: Id, works: bool, dmaBuf: bool): State {
    if p !in s.pixs || p !in s.access then s
    else
      var kind := if s.legacy || dmaBuf then Fd else Ahb;
      var s := if dmaBuf then s else Ensure(s, p, kind, works);
      if Sampleable(s, p, kind) then MarkExported(s, p) else s
  }

  function DestroyStep(s: State, p: Id): State {
    if p !in s.pixs || p !in s.access || p == s.root || s.access[p].open || HeldByPresent(s, p) then s
    else s.(pixs := s.pixs - {p}, access := s.access - {p},
            ledger := s.ledger.(bufs := Disown(s.ledger.bufs, s.pixs[p].buffer)))
  }

  function PromoteStep(s: State, p: Id, works: bool): State {
    if p !in s.pixs || p !in s.access || s.pixs[p].mem || s.pixs[p].buffer !in s.ledger.bufs then s
    else
      var b := s.pixs[p].buffer;
      var promoted := Promote(s.ledger.bufs[b], works);
      s.(ledger := s.ledger.(bufs := s.ledger.bufs[b := promoted]),
         access := if promoted.kind.Fd? && works then s.access[p := s.access[p].(mapped := false)] else s.access)
  }

  function Unmap(access: map<Id, Access>, p: Id): map<Id, Access> {
    if p in access && access[p].mapped then access[p := access[p].(mapped := false, wasMapped := false)] else access
  }

  function Remap(access: map<Id, Access>, p: Id): map<Id, Access> {
    if p in access && !access[p].mapped then access[p := access[p].(mapped := true, wasMapped := false)] else access
  }

  function AckStep(s: State, i: nat): State {
    if i >= |s.ledger.inflight| || s.ledger.inflight[i].pixmap !in s.pixs then s
    else s.(ledger := Settle(s.ledger, i, s.pixs[s.ledger.inflight[i].pixmap].buffer))
  }

  function Step(s: State, e: Event): State {
    match e
    case CreatePixmap(p, kind, empty) =>
      if p == 0 || p in s.pixs || p in s.access then s
      else if empty then
        s.(pixs := s.pixs[p := Pixmap(0, false, false)], access := s.access[p := Access(false, false, false, false)])
      else AddPixmap(s, p, kind)
    case ReplaceRoot(p) =>
      if p == 0 || p in s.pixs || p in s.access then s else AddPixmap(s, p, if s.legacy then Fd else Ahb).(root := p)
    case DestroyPixmap(p) => DestroyStep(s, p)
    case SetMem(p) => if p in s.pixs then s.(pixs := s.pixs[p := s.pixs[p].(mem := true)]) else s
    case SetRootWindowPixmap(was, next) => s.(access := Remap(Unmap(s.access, was), next))
    case ExportPixmap(p, works, dmaBuf) => ExportStep(s, p, works, dmaBuf)
    case MakeDmaBuf(p, works) => PromoteStep(s, p, works)
    case Schedule(p, d, srcWorks, dstWorks, room) => ScheduleStep(s, p, d, srcWorks, dstWorks, room)
    case Ack(i) => AckStep(s, i)
    case Prepare(p, index, fails) => PrepareStep(s, p, index, fails)
    case Finish(p) => FinishStep(s, p)
  }

  function Run(s: State, events: seq<Event>): State
    decreases |events|
  {
    if events == [] then s else Run(Step(s, events[0]), events[1..])
  }

  // ---------- what is counted ----------

  function Touch(c: Copy, b: Id): nat { (if c.src == b then 1 else 0) + if !c.toRoot && c.dst == b then 1 else 0 }

  // How many uses of the buffer are in flight, the screen's own buffer as a destination apart.
  function Uses(q: seq<Copy>, b: Id): nat {
    if q == [] then 0 else Uses(q[..|q| - 1], b) + Touch(q[|q| - 1], b)
  }

  function ToRoot(q: seq<Copy>): nat {
    if q == [] then 0 else ToRoot(q[..|q| - 1]) + if q[|q| - 1].toRoot then 1 else 0
  }

  lemma UsesSnoc(q: seq<Copy>, c: Copy, b: Id)
    ensures Uses(q + [c], b) == Uses(q, b) + Touch(c, b)
    ensures ToRoot(q + [c]) == ToRoot(q) + if c.toRoot then 1 else 0
  {
    assert (q + [c])[..|q|] == q;
  }

  lemma {:induction false} UsesRemove(q: seq<Copy>, i: nat, b: Id)
    requires i < |q|
    ensures Uses(q, b) == Uses(Remove(q, i), b) + Touch(q[i], b)
    ensures ToRoot(q) == ToRoot(Remove(q, i)) + if q[i].toRoot then 1 else 0
  {
    var init, last := q[..|q| - 1], q[|q| - 1];
    if i < |init| {
      UsesRemove(init, i, b);
      assert Remove(q, i) == Remove(init, i) + [last];
      UsesSnoc(Remove(init, i), last, b);
    } else {
      assert Remove(q, i) == init;
    }
  }

  // A use is counted exactly when some copy in flight makes it.
  lemma {:induction false} UsesWitness(q: seq<Copy>, b: Id)
    ensures Uses(q, b) != 0 <==> exists c :: c in q && Touch(c, b) != 0
    ensures ToRoot(q) != 0 <==> exists c :: c in q && c.toRoot
  {
    if q != [] {
      var init := q[..|q| - 1];
      UsesWitness(init, b);
      assert q == init + [q[|q| - 1]];
    }
  }

  // ---------- the invariant ----------

  predicate BufferOk(b: Buffer, uses: nat) {
    && b.pending == uses
    && b.refs == uses + (if b.owned then 1 else 0)
    && b.refs > 0
    && (uses > 0 ==> b.kind.Ahb?)
  }

  // A buffer with uses in flight is there; one that is there accounts for all of them.
  predicate Accounted(bufs: map<Id, Buffer>, b: Id, uses: nat) {
    if b in bufs then BufferOk(bufs[b], uses) else uses == 0
  }

  ghost predicate LedgerOk(l: Ledger) {
    && (forall b :: Accounted(l.bufs, b, Uses(l.inflight, b)))
    && l.rootPending == ToRoot(l.inflight)
  }

  // Pixmaps own distinct live buffers.
  ghost predicate OwnersOk(pixs: map<Id, Pixmap>, bufs: map<Id, Buffer>) {
    && (forall p :: p in pixs && pixs[p].buffer != 0 ==> pixs[p].buffer in bufs && bufs[pixs[p].buffer].owned)
    && (forall p, q :: p in pixs && q in pixs && pixs[p].buffer == pixs[q].buffer != 0 ==> p == q)
  }

  // A copy's pixmap is still there, with the buffer the copy reads.
  ghost predicate SourcesOk(pixs: map<Id, Pixmap>, q: seq<Copy>) {
    forall c :: c in q ==> c.src != 0 && c.pixmap in pixs && pixs[c.pixmap].buffer == c.src
  }

  ghost predicate BoundsOk(q: seq<Copy>, allocations: nat, serials: nat) {
    forall c :: c in q ==> c.dst != 0 && c.dst <= allocations && c.serial <= serials
  }

  // No counted destination is the screen's buffer: that one is in rootPending.
  ghost predicate RootApart(pixs: map<Id, Pixmap>, root: Id, q: seq<Copy>) {
    root in pixs ==> forall c :: c in q && !c.toRoot ==> c.dst != pixs[root].buffer
  }

  ghost predicate NamesOk(pixs: map<Id, Pixmap>, root: Id, bufs: map<Id, Buffer>, allocations: nat) {
    && 0 !in pixs && 0 !in bufs
    && (root != 0 ==> root in pixs)
    && (forall b :: b in bufs ==> b <= allocations)
  }

  function Holders(access: map<Id, Access>): set<Id> { set p | p in access && access[p].gpuLocked }

  ghost predicate LockOk(access: map<Id, Access>, depth: int) {
    && depth == |Holders(access)|
    && (forall p :: p in access && access[p].gpuLocked ==> access[p].open)
  }

  ghost predicate CopiesOk(pixs: map<Id, Pixmap>, root: Id, q: seq<Copy>, allocations: nat, serials: nat) {
    SourcesOk(pixs, q) && BoundsOk(q, allocations, serials) && RootApart(pixs, root, q)
  }

  ghost predicate Inv(s: State) {
    && LedgerOk(s.ledger)
    && OwnersOk(s.pixs, s.ledger.bufs)
    && CopiesOk(s.pixs, s.root, s.ledger.inflight, s.allocations, s.serials)
    && NamesOk(s.pixs, s.root, s.ledger.bufs, s.allocations)
    && LockOk(s.access, s.depth)
    && s.access.Keys == s.pixs.Keys
    && (s.legacy ==> s.ledger.inflight == [])
  }

  // ---------- the counters ----------

  function Is(b: Id, x: Id): nat { if b == x then 1 else 0 }

  lemma AcquireOk(bufs: map<Id, Buffer>, x: Id, b: Id, uses: nat)
    requires Accounted(bufs, b, uses) && x in bufs && bufs[x].kind.Ahb?
    ensures Accounted(Acquire(bufs, x), b, uses + Is(b, x))
  {}

  lemma ReleaseOk(bufs: map<Id, Buffer>, x: Id, b: Id, uses: nat)
    requires Accounted(bufs, b, uses + Is(b, x))
    ensures Accounted(Release(bufs, x), b, uses)
  {}

  lemma EnqueueOk(l: Ledger, c: Copy)
    requires LedgerOk(l)
    requires c.src in l.bufs && l.bufs[c.src].kind.Ahb? && c.dst in l.bufs && l.bufs[c.dst].kind.Ahb?
    ensures LedgerOk(Enqueue(l, c))
  {
    UsesSnoc(l.inflight, c, 0);
    forall b ensures Accounted(Enqueue(l, c).bufs, b, Uses(l.inflight + [c], b)) {
      var uses := Uses(l.inflight, b);
      assert Accounted(l.bufs, b, uses);
      UsesSnoc(l.inflight, c, b);
      AcquireOk(l.bufs, c.src, b, uses);
      if !c.toRoot {
        AcquireOk(Acquire(l.bufs, c.src), c.dst, b, uses + Is(b, c.src));
      }
    }
  }

  lemma SettleOk(l: Ledger, i: nat)
    requires LedgerOk(l) && i < |l.inflight|
    ensures LedgerOk(Settle(l, i, l.inflight[i].src))
  {
    var c := l.inflight[i];
    UsesRemove(l.inflight, i, 0);
    forall b ensures Accounted(Settle(l, i, c.src).bufs, b, Uses(Remove(l.inflight, i), b)) {
      var uses := Uses(Remove(l.inflight, i), b);
      UsesRemove(l.inflight, i, b);
      assert Accounted(l.bufs, b, Uses(l.inflight, b));
      if c.toRoot {
        ReleaseOk(l.bufs, c.src, b, uses);
      } else {
        ReleaseOk(l.bufs, c.src, b, uses + Is(b, c.dst));
        ReleaseOk(Release(l.bufs, c.src), c.dst, b, uses);
      }
    }
  }

  // A buffer may change kind only where nothing is in flight.
  lemma RekindOk(l: Ledger, b: Id, changed: Buffer)
    requires LedgerOk(l) && b in l.bufs
    requires changed.refs == l.bufs[b].refs && changed.pending == l.bufs[b].pending && changed.owned == l.bufs[b].owned
    requires changed.kind != l.bufs[b].kind ==> l.bufs[b].kind.Regular?
    ensures LedgerOk(l.(bufs := l.bufs[b := changed]))
  {
    forall x ensures Accounted(l.bufs[b := changed], x, Uses(l.inflight, x)) {
      assert Accounted(l.bufs, x, Uses(l.inflight, x));
    }
  }

  lemma DisownOk(l: Ledger, b: Id)
    requires LedgerOk(l) && b in l.bufs && l.bufs[b].owned
    ensures LedgerOk(l.(bufs := Disown(l.bufs, b)))
  {
    forall x ensures Accounted(Disown(l.bufs, b), x, Uses(l.inflight, x)) {
      assert Accounted(l.bufs, x, Uses(l.inflight, x));
    }
  }

  lemma AllocateOk(l: Ledger, b: Id, kind: Kind)
    requires LedgerOk(l) && b !in l.bufs
    ensures LedgerOk(l.(bufs := l.bufs[b := Buffer(kind, 1, 0, 0, true)]))
  {
    forall x ensures Accounted(l.bufs[b := Buffer(kind, 1, 0, 0, true)], x, Uses(l.inflight, x)) {
      assert Accounted(l.bufs, x, Uses(l.inflight, x));
    }
  }

  // ---------- the lock ----------

  lemma LockUpdate(access: map<Id, Access>, depth: int, p: Id, a: Access)
    requires LockOk(access, depth) && (a.gpuLocked ==> a.open)
    ensures LockOk(access[p := a],
      depth + (if a.gpuLocked then 1 else 0) - if p in access && access[p].gpuLocked then 1 else 0)
  {
    HoldersAfter(access, p, a);
  }

  lemma HoldersAfter(access: map<Id, Access>, p: Id, a: Access)
    ensures Holders(access[p := a]) == if a.gpuLocked then Holders(access) + {p} else Holders(access) - {p}
  {
    assert forall q :: q in Holders(access) && q != p ==> access[p := a][q] == access[q];
  }

  lemma LockForget(access: map<Id, Access>, depth: int, p: Id)
    requires LockOk(access, depth) && p in access && !access[p].gpuLocked
    ensures LockOk(access - {p}, depth)
  {
    assert Holders(access - {p}) == Holders(access);
  }

  lemma PrepareKeeps(s: State, p: Id, index: Index, fails: bool)
    requires Inv(s)
    ensures Inv(PrepareStep(s, p, index, fails))
  {
    if p in s.pixs && !s.access[p].open {
      var locks := NeedsGpuLock(s, p, index);
      LockUpdate(s.access, s.depth, p, Opened(s.access[p], s.pixs[p].mem, locks));
    }
  }

  lemma FinishKeeps(s: State, p: Id)
    requires Inv(s)
    ensures Inv(FinishStep(s, p))
  {
    if p in s.access && s.access[p].open {
      var a := s.access[p];
      LockUpdate(s.access, s.depth, p, Access(a.mapped && a.wasMapped, a.wasMapped, false, false));
    }
  }

  // ---------- pixmaps ----------

  lemma EnsureKeeps(s: State, p: Id, kind: Kind, works: bool)
    requires Inv(s) && p in s.pixs
    ensures Inv(Ensure(s, p, kind, works))
  {
    var b := s.pixs[p].buffer;
    if b in s.ledger.bufs && !s.pixs[p].mem {
      RekindOk(s.ledger, b, Convert(s.ledger.bufs[b], kind, works));
      LockUpdate(s.access, s.depth, p, s.access[p].(mapped := true));
    }
  }

  lemma PromoteKeeps(s: State, p: Id, works: bool)
    requires Inv(s)
    ensures Inv(PromoteStep(s, p, works))
  {
    if p in s.pixs && s.pixs[p].buffer in s.ledger.bufs {
      var b := s.pixs[p].buffer;
      RekindOk(s.ledger, b, Promote(s.ledger.bufs[b], works));
      LockUpdate(s.access, s.depth, p, s.access[p].(mapped := false));
    }
  }

  lemma MarkExportedKeeps(s: State, p: Id)
    requires Inv(s) && p in s.pixs
    ensures Inv(MarkExported(s, p))
  {}

  lemma ExportKeeps(s: State, p: Id, works: bool, dmaBuf: bool)
    requires Inv(s)
    ensures Inv(ExportStep(s, p, works, dmaBuf))
  {
    if p in s.pixs {
      var kind := if s.legacy || dmaBuf then Fd else Ahb;
      EnsureKeeps(s, p, kind, works);
      MarkExportedKeeps(if dmaBuf then s else Ensure(s, p, kind, works), p);
    }
  }

  lemma AddCopiesOk(s: State, p: Id)
    requires Inv(s) && p != 0 && p !in s.pixs
    ensures var b := s.allocations + 1; var pixs := s.pixs[p := Pixmap(b, false, false)];
      && CopiesOk(pixs, s.root, s.ledger.inflight, b, s.serials)
      && CopiesOk(pixs, p, s.ledger.inflight, b, s.serials)
  {}

  lemma AddOwnersOk(s: State, p: Id, kind: Kind)
    requires Inv(s) && p != 0 && p !in s.pixs
    ensures var b := s.allocations + 1;
      OwnersOk(s.pixs[p := Pixmap(b, false, false)], s.ledger.bufs[b := Buffer(kind, 1, 0, 0, true)])
  {}

  lemma AddKeeps(s: State, p: Id, kind: Kind)
    requires Inv(s) && p != 0 && p !in s.pixs
    ensures Inv(AddPixmap(s, p, kind)) && Inv(AddPixmap(s, p, kind).(root := p))
  {
    AllocateOk(s.ledger, s.allocations + 1, kind);
    LockUpdate(s.access, s.depth, p, Access(true, false, false, false));
    AddCopiesOk(s, p);
    AddOwnersOk(s, p, kind);
  }

  lemma DestroyKeeps(s: State, p: Id)
    requires Inv(s)
    ensures Inv(DestroyStep(s, p))
  {
    if p in s.pixs && p != s.root && !s.access[p].open && !HeldByPresent(s, p) {
      var b := s.pixs[p].buffer;
      if b == 0 {
        assert Disown(s.ledger.bufs, b) == s.ledger.bufs;
      } else {
        DisownOk(s.ledger, b);
      }
      LockForget(s.access, s.depth, p);
      DisownKeepsOwners(s.pixs, s.ledger.bufs, p);
      ForgetKeepsNames(s, p, Disown(s.ledger.bufs, b));
      ForgetKeepsCopies(s, p);
    }
  }

  lemma ForgetKeepsNames(s: State, p: Id, bufs: map<Id, Buffer>)
    requires NamesOk(s.pixs, s.root, s.ledger.bufs, s.allocations) && p != s.root && bufs.Keys <= s.ledger.bufs.Keys
    ensures NamesOk(s.pixs - {p}, s.root, bufs, s.allocations)
  {
    forall b | b in bufs ensures b <= s.allocations && b != 0 {
      assert b in s.ledger.bufs.Keys;
    }
  }

  lemma ForgetKeepsCopies(s: State, p: Id)
    requires CopiesOk(s.pixs, s.root, s.ledger.inflight, s.allocations, s.serials) && !HeldByPresent(s, p)
    ensures CopiesOk(s.pixs - {p}, s.root, s.ledger.inflight, s.allocations, s.serials)
  {}

  lemma DisownKeepsOwners(pixs: map<Id, Pixmap>, bufs: map<Id, Buffer>, p: Id)
    requires OwnersOk(pixs, bufs) && p in pixs && 0 !in bufs
    ensures OwnersOk(pixs - {p}, Disown(bufs, pixs[p].buffer))
    ensures Disown(bufs, pixs[p].buffer).Keys <= bufs.Keys
  {}

  lemma PublishKeeps(s: State, p: Id, d: Id)
    requires Inv(s) && !s.legacy && Sampleable(s, p, Ahb) && Sampleable(s, d, Ahb)
    ensures Inv(Publish(s, p, d))
  {
    var c := Copy(s.serials + 1, p, s.pixs[p].buffer, s.pixs[d].buffer, d == s.root);
    EnqueueOk(s.ledger, c);
    PublishedCopiesOk(s, c, d);
    EnqueueKeepsOwners(s.pixs, s.ledger, c);
    EnqueueKeepsNames(s, c);
  }

  lemma EnqueueKeepsNames(s: State, c: Copy)
    requires NamesOk(s.pixs, s.root, s.ledger.bufs, s.allocations)
    requires Enqueue(s.ledger, c).bufs.Keys == s.ledger.bufs.Keys
    ensures NamesOk(s.pixs, s.root, Enqueue(s.ledger, c).bufs, s.allocations)
  {
    var bufs := Enqueue(s.ledger, c).bufs;
    forall b | b in bufs ensures b <= s.allocations && b != 0 {
      assert b in s.ledger.bufs.Keys;
    }
  }

  lemma EnqueueKeepsOwners(pixs: map<Id, Pixmap>, l: Ledger, c: Copy)
    requires OwnersOk(pixs, l.bufs)
    ensures OwnersOk(pixs, Enqueue(l, c).bufs) && Enqueue(l, c).bufs.Keys == l.bufs.Keys
  {
    AcquireKeepsOwners(pixs, l.bufs, c.src);
    AcquireKeepsOwners(pixs, Acquire(l.bufs, c.src), c.dst);
  }

  lemma PublishedCopiesOk(s: State, c: Copy, d: Id)
    requires Inv(s) && Sampleable(s, c.pixmap, Ahb) && Sampleable(s, d, Ahb)
    requires c.src == s.pixs[c.pixmap].buffer && c.dst == s.pixs[d].buffer && c.toRoot == (d == s.root)
    requires c.serial == s.serials + 1
    ensures CopiesOk(s.pixs, s.root, s.ledger.inflight + [c], s.allocations, c.serial)
  {
    assert c.src != 0 && c.dst != 0;
  }

  lemma AcquireKeepsOwners(pixs: map<Id, Pixmap>, bufs: map<Id, Buffer>, x: Id)
    requires OwnersOk(pixs, bufs)
    ensures OwnersOk(pixs, Acquire(bufs, x)) && Acquire(bufs, x).Keys == bufs.Keys
  {}

  lemma ScheduleKeeps(s: State, p: Id, d: Id, srcWorks: bool, dstWorks: bool, room: bool)
    requires Inv(s)
    ensures Inv(ScheduleStep(s, p, d, srcWorks, dstWorks, room))
  {
    if !s.legacy && p in s.pixs {
      EnsureKeeps(s, p, Ahb, srcWorks);
      var s1 := Ensure(s, p, Ahb, srcWorks);
      if Sampleable(s1, p, Ahb) && d in s1.pixs {
        EnsureKeeps(s1, d, Ahb, dstWorks);
        EnsureStable(s1, p, d, dstWorks);
        var s2 := Ensure(s1, d, Ahb, dstWorks);
        if Sampleable(s2, d, Ahb) {
          PublishKeeps(s2, p, d);
        }
      }
    }
  }

  // Converting the destination leaves the source as it was.
  lemma EnsureStable(s: State, p: Id, d: Id, works: bool)
    requires Sampleable(s, p, Ahb) && d in s.pixs && d in s.access
    ensures Sampleable(Ensure(s, d, Ahb, works), p, Ahb)
  {}

  // An owned buffer outlives every acknowledgement.
  lemma ReleaseKeepsOwned(bufs: map<Id, Buffer>, x: Id, b: Id)
    requires b in bufs && bufs[b].owned && (b == x ==> bufs[b].refs != 1)
    ensures b in Release(bufs, x) && Release(bufs, x)[b].owned
    ensures b == x ==> Release(bufs, x)[b].refs == bufs[b].refs - 1
    ensures b != x ==> Release(bufs, x)[b] == bufs[b]
  {}

  lemma SettleKeepsOwned(l: Ledger, i: nat, b: Id)
    requires LedgerOk(l) && i < |l.inflight| && b in l.bufs && l.bufs[b].owned
    ensures var bufs := Settle(l, i, l.inflight[i].src).bufs; b in bufs && bufs[b].owned
  {
    var c := l.inflight[i];
    UsesRemove(l.inflight, i, b);
    assert Accounted(l.bufs, b, Uses(l.inflight, b));
    ReleaseKeepsOwned(l.bufs, c.src, b);
    if !c.toRoot {
      ReleaseKeepsOwned(Release(l.bufs, c.src), c.dst, b);
    }
  }

  lemma AckKeeps(s: State, i: nat)
    requires Inv(s)
    ensures Inv(AckStep(s, i))
  {
    if i < |s.ledger.inflight| {
      var settled := Settle(s.ledger, i, s.ledger.inflight[i].src);
      SettleOk(s.ledger, i);
      forall p | p in s.pixs && s.pixs[p].buffer != 0
        ensures s.pixs[p].buffer in settled.bufs && settled.bufs[s.pixs[p].buffer].owned
      {
        SettleKeepsOwned(s.ledger, i, s.pixs[p].buffer);
      }
      assert forall c :: c in settled.inflight ==> c in s.ledger.inflight;
      assert settled.bufs.Keys <= s.ledger.bufs.Keys;
    }
  }

  lemma EmptyPixmapKeeps(s: State, p: Id)
    requires Inv(s) && p != 0 && p !in s.pixs
    ensures Inv(s.(pixs := s.pixs[p := Pixmap(0, false, false)],
                   access := s.access[p := Access(false, false, false, false)]))
  {
    LockUpdate(s.access, s.depth, p, Access(false, false, false, false));
  }

  lemma RemapKeeps(s: State, was: Id, next: Id)
    requires Inv(s)
    ensures Inv(s.(access := Remap(Unmap(s.access, was), next)))
  {
    if was in s.access {
      LockUpdate(s.access, s.depth, was, s.access[was].(mapped := false, wasMapped := false));
    }
    var access := Unmap(s.access, was);
    if next in access {
      LockUpdate(access, s.depth, next, access[next].(mapped := true, wasMapped := false));
    }
  }

  lemma SetMemKeeps(s: State, p: Id)
    requires Inv(s) && p in s.pixs
    ensures Inv(s.(pixs := s.pixs[p := s.pixs[p].(mem := true)]))
  {}

  lemma StepKeepsInv(s: State, e: Event)
    requires Inv(s)
    ensures Inv(Step(s, e))
  {
    match e
    case CreatePixmap(p, kind, _) =>
      if p != 0 && p !in s.pixs {
        EmptyPixmapKeeps(s, p);
        AddKeeps(s, p, kind);
      }
    case ReplaceRoot(p) =>
      if p != 0 && p !in s.pixs {
        AddKeeps(s, p, if s.legacy then Fd else Ahb);
      }
    case DestroyPixmap(p) => DestroyKeeps(s, p);
    case SetMem(p) =>
      if p in s.pixs {
        SetMemKeeps(s, p);
      }
    case SetRootWindowPixmap(was, next) => RemapKeeps(s, was, next);
    case ExportPixmap(p, works, dmaBuf) => ExportKeeps(s, p, works, dmaBuf);
    case MakeDmaBuf(p, works) => PromoteKeeps(s, p, works);
    case Schedule(p, d, srcWorks, dstWorks, room) => ScheduleKeeps(s, p, d, srcWorks, dstWorks, room);
    case Ack(i) => AckKeeps(s, i);
    case Prepare(p, index, fails) => PrepareKeeps(s, p, index, fails);
    case Finish(p) => FinishKeeps(s, p);
  }

  lemma {:induction false} RunKeepsInv(s: State, events: seq<Event>)
    requires Inv(s)
    ensures Inv(Run(s, events))
    decreases |events|
  {
    if events != [] {
      StepKeepsInv(s, events[0]);
      RunKeepsInv(Step(s, events[0]), events[1..]);
    }
  }

  // ---------- over every run ----------

  // Every counter is exact: pending is the number of uses in flight, references are those plus the
  // pixmap's own, and the screen's copies are counted apart.
  lemma CountersAreExact(legacy: bool, events: seq<Event>)
    ensures var l := Run(Init(legacy), events).ledger;
      && (forall b :: b in l.bufs ==>
            && l.bufs[b].pending == Uses(l.inflight, b)
            && l.bufs[b].refs == Uses(l.inflight, b) + if l.bufs[b].owned then 1 else 0)
      && l.rootPending == ToRoot(l.inflight)
  {
    RunKeepsInv(Init(legacy), events);
    var l := Run(Init(legacy), events).ledger;
    forall b | b in l.bufs
      ensures BufferOk(l.bufs[b], Uses(l.inflight, b))
    {
      assert Accounted(l.bufs, b, Uses(l.inflight, b));
    }
  }

  predicate SameStorage(before: map<Id, Buffer>, after: map<Id, Buffer>, b: Id) {
    b in before && b in after && before[b].storage == after[b].storage && before[b].kind.Ahb? && after[b].kind.Ahb?
  }

  // What the copy reads, and what it writes when that is not the screen.
  predicate CopyStorageKept(before: State, after: State, c: Copy) {
    && SameStorage(before.ledger.bufs, after.ledger.bufs, c.src)
    && (!c.toRoot ==> SameStorage(before.ledger.bufs, after.ledger.bufs, c.dst))
  }

  lemma EnsureKeepsStorage(s: State, p: Id, kind: Kind, works: bool, b: Id)
    requires p in s.pixs && p in s.access && b in s.ledger.bufs && s.ledger.bufs[b].kind.Ahb?
    ensures SameStorage(s.ledger.bufs, Ensure(s, p, kind, works).ledger.bufs, b)
    ensures Ensure(s, p, kind, works).ledger.inflight == s.ledger.inflight
    ensures Ensure(s, p, kind, works).serials == s.serials
  {}

  lemma ScheduleKeepsStorage(s: State, p: Id, d: Id, srcWorks: bool, dstWorks: bool, room: bool, b: Id)
    requires b in s.ledger.bufs && s.ledger.bufs[b].kind.Ahb?
    ensures SameStorage(s.ledger.bufs, ScheduleStep(s, p, d, srcWorks, dstWorks, room).ledger.bufs, b)
  {
    if !s.legacy && p in s.pixs && p in s.access {
      EnsureKeepsStorage(s, p, Ahb, srcWorks, b);
      var s1 := Ensure(s, p, Ahb, srcWorks);
      if Sampleable(s1, p, Ahb) && d in s1.pixs && d in s1.access {
        EnsureKeepsStorage(s1, d, Ahb, dstWorks, b);
      }
    }
  }

  lemma SettleKeepsStorage(l: Ledger, i: nat, src: Id, b: Id)
    requires i < |l.inflight| && b in l.bufs && l.bufs[b].kind.Ahb?
    ensures b in Settle(l, i, src).bufs ==> SameStorage(l.bufs, Settle(l, i, src).bufs, b)
  {}

  lemma ExportKeepsStorage(s: State, p: Id, works: bool, dmaBuf: bool, b: Id)
    requires b in s.ledger.bufs && s.ledger.bufs[b].kind.Ahb?
    ensures SameStorage(s.ledger.bufs, ExportStep(s, p, works, dmaBuf).ledger.bufs, b)
  {
    if p in s.pixs && p in s.access {
      EnsureKeepsStorage(s, p, if s.legacy || dmaBuf then Fd else Ahb, works, b);
    }
  }

  lemma AddKeepsStorage(s: State, p: Id, kind: Kind, b: Id)
    requires NamesOk(s.pixs, s.root, s.ledger.bufs, s.allocations) && b in s.ledger.bufs && s.ledger.bufs[b].kind.Ahb?
    ensures SameStorage(s.ledger.bufs, AddPixmap(s, p, kind).ledger.bufs, b)
  {}

  lemma PromoteKeepsStorage(s: State, p: Id, works: bool, b: Id)
    requires b in s.ledger.bufs && s.ledger.bufs[b].kind.Ahb?
    ensures SameStorage(s.ledger.bufs, PromoteStep(s, p, works).ledger.bufs, b)
  {}

  lemma DestroyKeepsStorage(s: State, p: Id, b: Id)
    requires b in s.ledger.bufs && s.ledger.bufs[b].kind.Ahb? && b in DestroyStep(s, p).ledger.bufs
    ensures SameStorage(s.ledger.bufs, DestroyStep(s, p).ledger.bufs, b)
  {}

  lemma StepKeepsStorage(s: State, e: Event, b: Id)
    requires Inv(s) && b in s.ledger.bufs && s.ledger.bufs[b].kind.Ahb? && b in Step(s, e).ledger.bufs
    ensures SameStorage(s.ledger.bufs, Step(s, e).ledger.bufs, b)
  {
    match e
    case CreatePixmap(p, kind, _) => AddKeepsStorage(s, p, kind, b);
    case ReplaceRoot(p) => AddKeepsStorage(s, p, if s.legacy then Fd else Ahb, b);
    case DestroyPixmap(p) => DestroyKeepsStorage(s, p, b);
    case MakeDmaBuf(p, works) => PromoteKeepsStorage(s, p, works, b);
    case ExportPixmap(p, works, dmaBuf) => ExportKeepsStorage(s, p, works, dmaBuf, b);
    case Schedule(p, d, srcWorks, dstWorks, room) => ScheduleKeepsStorage(s, p, d, srcWorks, dstWorks, room, b);
    case Ack(i) =>
      if i < |s.ledger.inflight| {
        SettleKeepsStorage(s.ledger, i, s.ledger.inflight[i].src, b);
      }
    case _ => LedgerStays(s, e);
  }

  lemma LedgerStays(s: State, e: Event)
    requires e.SetMem? || e.SetRootWindowPixmap? || e.Prepare? || e.Finish?
    ensures Step(s, e).ledger == s.ledger
  {}

  lemma InFlightIsThere(s: State, c: Copy)
    requires Inv(s) && c in s.ledger.inflight
    ensures c.src in s.ledger.bufs && s.ledger.bufs[c.src].kind.Ahb?
    ensures !c.toRoot ==> c.dst in s.ledger.bufs && s.ledger.bufs[c.dst].kind.Ahb?
  {
    UsesWitness(s.ledger.inflight, c.src);
    UsesWitness(s.ledger.inflight, c.dst);
    assert Accounted(s.ledger.bufs, c.src, Uses(s.ledger.inflight, c.src));
    assert Accounted(s.ledger.bufs, c.dst, Uses(s.ledger.inflight, c.dst));
  }

  lemma ScheduleAddsNew(s: State, p: Id, d: Id, srcWorks: bool, dstWorks: bool, room: bool, c: Copy)
    requires Inv(s)
    requires c in ScheduleStep(s, p, d, srcWorks, dstWorks, room).ledger.inflight && c.serial <= s.serials
    ensures c in s.ledger.inflight
  {}

  // Serial numbers are never given out twice, so an old copy found in flight was in flight before.
  lemma StepAddsNew(s: State, e: Event, c: Copy)
    requires Inv(s) && c in Step(s, e).ledger.inflight && c.serial <= s.serials
    ensures c in s.ledger.inflight
  {
    match e
    case Schedule(p, d, srcWorks, dstWorks, room) => ScheduleAddsNew(s, p, d, srcWorks, dstWorks, room, c);
    case Ack(i) => AckAddsNone(s, i, c);
    case _ => QueueStays(s, e);
  }

  lemma AckAddsNone(s: State, i: nat, c: Copy)
    requires c in AckStep(s, i).ledger.inflight
    ensures c in s.ledger.inflight
  {}

  lemma QueueStays(s: State, e: Event)
    requires !e.Schedule? && !e.Ack?
    ensures Step(s, e).ledger.inflight == s.ledger.inflight
  {}

  lemma SerialsGrow(s: State, e: Event)
    ensures s.serials <= Step(s, e).serials
  {}

  lemma {:induction false} RunAddsNew(s: State, events: seq<Event>, c: Copy)
    requires Inv(s) && c in Run(s, events).ledger.inflight && c.serial <= s.serials
    ensures c in s.ledger.inflight
    decreases |events|
  {
    if events != [] {
      var s' := Step(s, events[0]);
      StepKeepsInv(s, events[0]);
      SerialsGrow(s, events[0]);
      RunAddsNew(s', events[1..], c);
      StepAddsNew(s, events[0], c);
    }
  }

  // From its scheduling to its acknowledgement, whatever happens in between, a copy's source and
  // redirected destination are neither freed nor moved to other storage.
  lemma {:induction false} InFlightStorageStays(s: State, events: seq<Event>, c: Copy)
    requires Inv(s) && c in s.ledger.inflight && c in Run(s, events).ledger.inflight
    ensures CopyStorageKept(s, Run(s, events), c)
    decreases |events|
  {
    InFlightIsThere(s, c);
    if events != [] {
      var s' := Step(s, events[0]);
      StepKeepsInv(s, events[0]);
      SerialsGrow(s, events[0]);
      RunAddsNew(s', events[1..], c);
      InFlightIsThere(s', c);
      StepKeepsStorage(s, events[0], c.src);
      if !c.toRoot {
        StepKeepsStorage(s, events[0], c.dst);
      }
      InFlightStorageStays(s', events[1..], c);
    }
  }

  // ---------- conflicts ----------

  // A CPU access races a copy in flight that writes its storage, or reads what the access writes.
  predicate Conflicts(s: State, p: Id, index: Index)
    requires p in s.pixs
  {
    exists c :: c in s.ledger.inflight && (c.dst == s.pixs[p].buffer || (Writes(index) && c.src == s.pixs[p].buffer))
  }

  function Pending(s: State, b: Id): int { if b in s.ledger.bufs then s.ledger.bufs[b].pending else 0 }

  // The two families the lock predicate misses: an auxiliary write to the screen's pixmap while it
  // is only read by copies, and any access to a former screen pixmap with copies to it in flight.
  predicate Missed(s: State, p: Id, index: Index)
    requires p in s.pixs
  {
    var b := s.pixs[p].buffer;
    !s.pixs[p].exported &&
    if p == s.root then index.AuxDest? && s.ledger.rootPending == 0 && Pending(s, b) != 0
    else Pending(s, b) == 0 && exists c :: c in s.ledger.inflight && c.toRoot && c.dst == b
  }

  lemma PendingIsUse(s: State, b: Id)
    requires Inv(s)
    ensures Pending(s, b) == Uses(s.ledger.inflight, b)
    ensures Pending(s, b) != 0 <==> exists c :: c in s.ledger.inflight && Touch(c, b) != 0
    ensures s.ledger.rootPending != 0 <==> exists c :: c in s.ledger.inflight && c.toRoot
    ensures Pending(s, b) != 0 ==> s.ledger.bufs[b].kind.Ahb?
  {
    assert Accounted(s.ledger.bufs, b, Uses(s.ledger.inflight, b));
    UsesWitness(s.ledger.inflight, b);
  }

  // A conflicting access takes the shared lock unless it is one of the two missed families, and an
  // access of those families does conflict.
  lemma ConflictTakesLockUnlessMissed(s: State, p: Id, index: Index)
    requires Inv(s) && p in s.pixs
    ensures Conflicts(s, p, index) && !NeedsGpuLock(s, p, index) <==> Missed(s, p, index)
  {
    PendingIsUse(s, s.pixs[p].buffer);
    if p == s.root {
      RootConflict(s, index);
    } else {
      OtherConflict(s, p, index);
    }
  }

  lemma RootConflict(s: State, index: Index)
    requires Inv(s) && s.root in s.pixs
    ensures Conflicts(s, s.root, index) && !NeedsGpuLock(s, s.root, index) <==> Missed(s, s.root, index)
  {
    var b := s.pixs[s.root].buffer;
    PendingIsUse(s, b);
    if Missed(s, s.root, index) {
      var c :| c in s.ledger.inflight && Touch(c, b) != 0;
      assert c.src == b;
    }
  }

  lemma OtherConflict(s: State, p: Id, index: Index)
    requires Inv(s) && p in s.pixs && p != s.root
    ensures Conflicts(s, p, index) && !NeedsGpuLock(s, p, index) <==> Missed(s, p, index)
  {
    var b := s.pixs[p].buffer;
    PendingIsUse(s, b);
    if Conflicts(s, p, index) && !NeedsGpuLock(s, p, index) {
      var c :| c in s.ledger.inflight && (c.dst == b || (Writes(index) && c.src == b));
      assert Touch(c, b) == 0;
      assert c.toRoot && c.dst == b;
    }
  }

  // Both families are reachable: a screen pixmap, another one, and one copy between them.
  function TwoPixmaps(): State { Step(Step(Init(false), ReplaceRoot(1)), CreatePixmap(2, Ahb, false)) }

  lemma TwoPixmapsState()
    ensures Inv(TwoPixmaps())
    ensures var s := TwoPixmaps();
      && !s.legacy && s.root == 1 && s.serials == 0 && s.ledger.inflight == [] && s.ledger.rootPending == 0
      && s.pixs == map[1 := Pixmap(1, false, false), 2 := Pixmap(2, false, false)]
      && s.access.Keys == {1, 2}
      && s.ledger.bufs == map[1 := Buffer(Ahb, 1, 0, 0, true), 2 := Buffer(Ahb, 1, 0, 0, true)]
  {
    StepKeepsInv(Init(false), ReplaceRoot(1));
    OnePixmapState();
    StepKeepsInv(Step(Init(false), ReplaceRoot(1)), CreatePixmap(2, Ahb, false));
  }

  lemma OnePixmapState()
    ensures Step(Init(false), ReplaceRoot(1)) ==
      State(false, Ledger(map[1 := Buffer(Ahb, 1, 0, 0, true)], [], 0), map[1 := Pixmap(1, false, false)], 1,
            map[1 := Access(true, false, false, false)], 0, 1, 0)
  {}

  lemma SchedulesBetween(s: State, p: Id, d: Id)
    requires !s.legacy && p in s.access && d in s.access && Sampleable(s, p, Ahb) && Sampleable(s, d, Ahb)
    ensures Step(s, Schedule(p, d, true, true, true)) == Publish(s, p, d)
  {
    assert Ensure(s, p, Ahb, true) == s by {
      assert s.ledger.bufs[s.pixs[p].buffer := s.ledger.bufs[s.pixs[p].buffer]] == s.ledger.bufs;
    }
    assert Ensure(s, d, Ahb, true) == s by {
      assert s.ledger.bufs[s.pixs[d].buffer := s.ledger.bufs[s.pixs[d].buffer]] == s.ledger.bufs;
    }
  }

  lemma RootAsSourceIsMissed()
    ensures var s := Step(TwoPixmaps(), Schedule(1, 2, true, true, true));
      Inv(s) && 1 in s.pixs && Conflicts(s, 1, AuxDest) && !NeedsGpuLock(s, 1, AuxDest)
  {
    TwoPixmapsState();
    StepKeepsInv(TwoPixmaps(), Schedule(1, 2, true, true, true));
    SchedulesBetween(TwoPixmaps(), 1, 2);
    assert Copy(1, 1, 1, 2, false) in Publish(TwoPixmaps(), 1, 2).ledger.inflight;
  }

  // A resize strands every copy to the old screen pixmap: from then on no access to it locks.
  lemma ResizeStrandsRootCopies(s: State, c: Copy, p: Id, index: Index)
    requires Inv(s) && s.root in s.pixs && !s.pixs[s.root].exported && p != 0 && p !in s.pixs
    requires c in s.ledger.inflight && c.toRoot && c.dst == s.pixs[s.root].buffer && Pending(s, c.dst) == 0
    ensures var after := Step(s, ReplaceRoot(p));
      Inv(after) && s.root in after.pixs && Conflicts(after, s.root, index) && !NeedsGpuLock(after, s.root, index)
  {
    StepKeepsInv(s, ReplaceRoot(p));
    var after := Step(s, ReplaceRoot(p));
    assert after == AddPixmap(s, p, Ahb).(root := p);
    assert after.ledger.inflight == s.ledger.inflight && after.pixs[s.root] == s.pixs[s.root];
    assert Pending(after, c.dst) == 0;
    ConflictTakesLockUnlessMissed(after, s.root, index);
  }

  lemma FormerRootIsMissed(index: Index)
    ensures var s := Step(Step(TwoPixmaps(), Schedule(2, 1, true, true, true)), ReplaceRoot(3));
      Inv(s) && 1 in s.pixs && Conflicts(s, 1, index) && !NeedsGpuLock(s, 1, index)
  {
    TwoPixmapsState();
    StepKeepsInv(TwoPixmaps(), Schedule(2, 1, true, true, true));
    SchedulesBetween(TwoPixmaps(), 2, 1);
    var s := Publish(TwoPixmaps(), 2, 1);
    var c := Copy(1, 2, 2, 1, true);
    assert s.ledger.inflight == [c];
    assert s.ledger.bufs[1].pending == 0;
    ResizeStrandsRootCopies(s, c, 3, index);
  }

  // ---------- the lock is balanced ----------

  // With no access open the server does not hold the lock, after any run.
  lemma NoAccessNoLock(legacy: bool, events: seq<Event>)
    requires var s := Run(Init(legacy), events); forall p :: p in s.access ==> !s.access[p].open
    ensures Run(Init(legacy), events).depth == 0
  {
    RunKeepsInv(Init(legacy), events);
    assert Holders(Run(Init(legacy), events).access) == {};
  }

  predicate Holds(access: map<Id, Access>, p: Id, gpuLocked: bool) {
    p in access && access[p].open && access[p].gpuLocked == gpuLocked
  }

  lemma EnsureKeepsHold(s: State, q: Id, kind: Kind, works: bool, p: Id, l: bool)
    requires Holds(s.access, p, l) && q in s.pixs && q in s.access
    ensures Holds(Ensure(s, q, kind, works).access, p, l)
    ensures Ensure(s, q, kind, works).access.Keys == s.access.Keys && Ensure(s, q, kind, works).pixs == s.pixs
  {}

  lemma ScheduleKeepsHold(s: State, q: Id, d: Id, srcWorks: bool, dstWorks: bool, room: bool, p: Id, l: bool)
    requires Holds(s.access, p, l)
    ensures Holds(ScheduleStep(s, q, d, srcWorks, dstWorks, room).access, p, l)
  {
    if !s.legacy && q in s.pixs && q in s.access {
      EnsureKeepsHold(s, q, Ahb, srcWorks, p, l);
      var s1 := Ensure(s, q, Ahb, srcWorks);
      if Sampleable(s1, q, Ahb) && d in s1.pixs && d in s1.access {
        EnsureKeepsHold(s1, d, Ahb, dstWorks, p, l);
      }
    }
  }

  lemma ExportKeepsHold(s: State, q: Id, works: bool, dmaBuf: bool, p: Id, l: bool)
    requires Holds(s.access, p, l)
    ensures Holds(ExportStep(s, q, works, dmaBuf).access, p, l)
  {
    if q in s.pixs && q in s.access {
      EnsureKeepsHold(s, q, if s.legacy || dmaBuf then Fd else Ahb, works, p, l);
    }
  }

  lemma AccessKeepsHold(s: State, q: Id, kind: Kind, index: Index, b: bool, p: Id, l: bool)
    requires Holds(s.access, p, l)
    ensures Holds(PrepareStep(s, q, index, b).access, p, l)
    ensures q != p ==> Holds(FinishStep(s, q).access, p, l)
    ensures Holds(PromoteStep(s, q, b).access, p, l)
    ensures Holds(DestroyStep(s, q).access, p, l)
    ensures q !in s.access ==> Holds(AddPixmap(s, q, kind).access, p, l)
    ensures Holds(Unmap(s.access, q), p, l) && Holds(Remap(s.access, q), p, l)
  {}

  lemma StepKeepsHold(s: State, e: Event, p: Id, l: bool)
    requires Holds(s.access, p, l) && e != Finish(p)
    ensures Holds(Step(s, e).access, p, l)
  {
    match e
    case CreatePixmap(q, kind, _) => AccessKeepsHold(s, q, kind, Dest, false, p, l);
    case ReplaceRoot(q) => AccessKeepsHold(s, q, if s.legacy then Fd else Ahb, Dest, false, p, l);
    case DestroyPixmap(q) => AccessKeepsHold(s, q, Fd, Dest, false, p, l);
    case SetRootWindowPixmap(was, next) =>
      AccessKeepsHold(s, was, Fd, Dest, false, p, l);
      AccessKeepsHold(s.(access := Unmap(s.access, was)), next, Fd, Dest, false, p, l);
    case ExportPixmap(q, works, dmaBuf) => ExportKeepsHold(s, q, works, dmaBuf, p, l);
    case MakeDmaBuf(q, works) => AccessKeepsHold(s, q, Fd, Dest, works, p, l);
    case Schedule(q, d, srcWorks, dstWorks, room) => ScheduleKeepsHold(s, q, d, srcWorks, dstWorks, room, p, l);
    case Prepare(q, index, fails) => AccessKeepsHold(s, q, Fd, index, fails, p, l);
    case Finish(q) => AccessKeepsHold(s, q, Fd, Dest, false, p, l);
    case SetMem(_) =>
    case Ack(_) =>
  }

  lemma {:induction false} RunKeepsHold(s: State, events: seq<Event>, p: Id, l: bool)
    requires Holds(s.access, p, l) && Finish(p) !in events
    ensures Holds(Run(s, events).access, p, l)
    decreases |events|
  {
    if events != [] {
      StepKeepsHold(s, events[0], p, l);
      RunKeepsHold(Step(s, events[0]), events[1..], p, l);
    }
  }

  // Finish gives back exactly what Prepare took, whatever the predicate says by then; a Prepare that
  // fails to map the buffer has already given it back.
  lemma FinishGivesBackWhatPrepareTook(s: State, p: Id, index: Index, fails: bool, events: seq<Event>)
    requires Inv(s) && p in s.pixs && !s.access[p].open && Finish(p) !in events
    ensures var prepared := Step(s, Prepare(p, index, fails));
      var during := Run(prepared, events);
      var after := Step(during, Finish(p));
      if fails && !s.access[p].mapped && !s.pixs[p].mem then prepared == s
      else
        && prepared.depth - s.depth == (if NeedsGpuLock(s, p, index) then 1 else 0)
        && during.depth - after.depth == prepared.depth - s.depth
  {
    var prepared := Step(s, Prepare(p, index, fails));
    if !fails || s.access[p].mapped || s.pixs[p].mem {
      RunKeepsHold(prepared, events, p, NeedsGpuLock(s, p, index));
    }
  }

  // ---------- the server's own code ----------

  // The fields the handlers change.  inflight is what Present still owes an acknowledgement for.
  class GpuCopyServer {
    const legacy: bool
    var bufs: map<Id, Buffer>
    var rootPending: int
    var pixs: map<Id, Pixmap>
    var root: Id
    var access: map<Id, Access>
    var depth: int
    var allocations: nat
    var serials: nat
    ghost var inflight: seq<Copy>

    ghost function View(): State reads this {
      State(legacy, Ledger(bufs, inflight, rootPending), pixs, root, access, depth, allocations, serials)
    }

    constructor (legacyDrawing: bool)
      ensures View() == Init(legacyDrawing)
    {
      legacy, bufs, rootPending, pixs, root := legacyDrawing, map[], 0, map[], 0;
      access, depth, allocations, serials, inflight := map[], 0, 0, 0, [];
    }

    method EnsureGpuSampleable(p: Id, kind: Kind, works: bool) returns (b: Id)
      requires p in pixs && p in access && 0 !in bufs
      modifies this`bufs, this`access
      ensures View() == Ensure(old(View()), p, kind, works)
      ensures b == if Sampleable(View(), p, kind) then pixs[p].buffer else 0
    {
      b := pixs[p].buffer;
      if b !in bufs || pixs[p].mem { return 0; }
      var buffer := bufs[b];
      bufs := bufs[b := Convert(buffer, kind, works)];
      if buffer.kind.Regular? && works {
        access := access[p := access[p].(mapped := true)];
      }
      if bufs[b].kind != kind {
        b := 0;
      }
    }

    method AcquirePending(b: Id)
      modifies this`bufs
      ensures bufs == Acquire(old(bufs), b)
    {
      if b in bufs {
        var buffer := bufs[b];
        bufs := bufs[b := buffer.(pending := buffer.pending + 1)];
        bufs := bufs[b := bufs[b].(refs := bufs[b].refs + 1)];
      }
    }

    method ReleasePending(b: Id)
      modifies this`bufs
      ensures bufs == Release(old(bufs), b)
    {
      if b in bufs {
        bufs := bufs[b := bufs[b].(pending := bufs[b].pending - 1)];
        var left := bufs[b].refs - 1;
        if left == 0 {
          bufs := bufs - {b};
        } else {
          bufs := bufs[b := bufs[b].(refs := left)];
        }
      }
    }

    method TryScheduleGpuCopy(p: Id, d: Id, srcWorks: bool, dstWorks: bool, room: bool)
      returns (scheduled: bool, serial: nat, outDst: Id)
      requires p in pixs && p in access && d in pixs && d in access && 0 !in bufs
      modifies this
      ensures View() == Step(old(View()), Schedule(p, d, srcWorks, dstWorks, room))
      ensures scheduled ==> serial == serials == old(serials) + 1
      ensures scheduled ==> outDst == if d == root then 0 else pixs[d].buffer
    {
      scheduled, serial, outDst := false, 0, 0;
      if legacy { return; }
      var src := EnsureGpuSampleable(p, Ahb, srcWorks);
      if src == 0 { return; }
      var dst := EnsureGpuSampleable(d, Ahb, dstWorks);
      if dst == 0 || !room { return; }
      outDst := PublishCopy(p, d);
      scheduled, serial := true, serials;
    }

    method PublishCopy(p: Id, d: Id) returns (outDst: Id)
      requires p in pixs && d in pixs
      modifies this`bufs, this`rootPending, this`serials, this`inflight
      ensures View() == Publish(old(View()), p, d)
      ensures outDst == if d == root then 0 else pixs[d].buffer
    {
      AcquirePending(pixs[p].buffer);
      outDst := 0;
      if d != root {
        AcquirePending(pixs[d].buffer);
        outDst := pixs[d].buffer;
      } else {
        rootPending := rootPending + 1;
      }
      serials := serials + 1;
      inflight := inflight + [Copy(serials, p, pixs[p].buffer, pixs[d].buffer, d == root)];
    }

    // dst is zero for a copy to the screen.
    method GpuCopyAck(ghost i: nat, p: Id, dst: Id)
      requires i < |inflight| && p in pixs && 0 !in bufs
      requires inflight[i].pixmap == p && dst == if inflight[i].toRoot then 0 else inflight[i].dst
      requires inflight[i].dst != 0
      modifies this`bufs, this`rootPending, this`inflight
      ensures View() == Step(old(View()), Ack(i))
    {
      ReleasePending(pixs[p].buffer);
      if dst != 0 {
        ReleasePending(dst);
      } else {
        rootPending := rootPending - 1;
      }
      inflight := Remove(inflight, i);
    }

    // Map the pixmap's buffer unless it is mapped or in memory of its own, and note what was taken.
    method OpenAccess(p: Id, gpuLocked: bool, fails: bool) returns (ok: bool)
      requires p in pixs && p in access
      modifies this`access
      ensures ok <==> !fails || old(access)[p].mapped || pixs[p].mem
      ensures access == if ok then old(access)[p := Opened(old(access)[p], pixs[p].mem, gpuLocked)] else old(access)
    {
      var a := access[p];
      if !a.mapped && !pixs[p].mem {
        if fails { return false; }
        a := a.(mapped := true, wasMapped := false);
      } else {
        a := a.(wasMapped := true);
      }
      access := access[p := a.(open := true, gpuLocked := gpuLocked)];
      ok := true;
    }

    method PrepareAccess(p: Id, index: Index, fails: bool) returns (ok: bool)
      requires p in pixs && p in access && !access[p].open
      modifies this`access, this`depth
      ensures View() == PrepareStep(old(View()), p, index, fails)
      ensures ok <==> access[p].open
    {
      var gpuLocked := NeedsLock(legacy, bufs, rootPending, pixs[p], p == root, index);
      if gpuLocked {
        depth := depth + 1;
      }
      ok := OpenAccess(p, gpuLocked, fails);
      if !ok && gpuLocked {
        depth := depth - 1;
      }
    }

    method FinishAccess(p: Id)
      requires p in access && access[p].open
      modifies this`access, this`depth
      ensures View() == Step(old(View()), Finish(p))
    {
      var a := access[p];
      if !a.wasMapped {
        a := a.(mapped := false);
      }
      if a.gpuLocked {
        depth := depth - 1;
      }
      access := access[p := a.(open := false, gpuLocked := false)];
    }
  }
}
