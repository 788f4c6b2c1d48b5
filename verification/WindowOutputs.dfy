/**
 The host's outputs: views of windows that hold keys and buttons, own a window's size, or depend on
 a parent view.  The list, its leases and its ownership flags change under any sequence of bind,
 release, resize, input, destroy and reset.

 Whether a shell window, a window or a point still exists when it is looked up is an input.  Dirty
 flags, viewports and published frames are not kept.
 */
module WindowOutputs {

  type KeyCode = k: int | 8 <= k <= 255 witness 8
  type ButtonCode = b: int | 1 <= b <= 7 witness 1

  // outputKey and outputButton are one operation on two devices.
  datatype Input = Key(k: KeyCode) | Button(b: ButtonCode)

  datatype Signal = Signal(input: Input, down: bool)

  // window zero is the whole screen; parent zero is none
  datatype Output = Output(
    id: nat, window: nat, dead: bool, shell: bool, parent: nat, width: int, ownsSize: bool, held: set<Input>)

  datatype State = State(outs: seq<Output>, log: seq<Signal>)

  const LORIE_WINDOW_SIZE_LIMIT: int := 16384

  predicate Borrowed(o: Output) { o.shell || o.parent != 0 }

  // A live view that the size of its window may pass to.
  predicate Eligible(o: Output, window: nat) { !o.dead && !Borrowed(o) && o.window == window && o.width > 0 }

  predicate Separated(outs: seq<Output>, id: nat) {
    exists i :: 0 <= i < |outs| && !outs[i].dead && outs[i].parent == id
  }

  datatype Event =
    | Bind(id: nat, window: nat, detail: nat, parent: nat, shellWindow: bool, allocates: bool)
    | Unbind(id: nat)
    | Resize(id: nat, window: nat, x: int, y: int, shellWindow: bool)
    | InputTo(id: nat, window: nat, input: Input, down: bool, shellWindow: bool, reachable: bool)
    | Blur(id: nat, window: nat, shellWindow: bool, reachable: bool)
    | ReleaseButton(id: nat, window: nat, b: ButtonCode)
    | ReleaseEverything
    | Destroyed(window: nat)
    | Reset

  // ---------- leases ----------

  datatype Lease = Lease(output: Output, log: seq<Signal>)

  predicate AnyHolds(outs: seq<Output>, x: Input) { exists i :: 0 <= i < |outs| && x in outs[i].held }

  // One key or button of one output; others is the list without that output.
  function Toggle(others: seq<Output>, l: Lease, x: Input, down: bool): Lease {
    if (x in l.output.held) == down then l
    else
      Lease(l.output.(held := if down then l.output.held + {x} else l.output.held - {x}),
            if AnyHolds(others, x) then l.log else l.log + [Signal(x, down)])
  }

  function ReleaseEach(others: seq<Output>, l: Lease, inputs: seq<Input>): Lease
    decreases |inputs|
  {
    if inputs == [] then l else ReleaseEach(others, Toggle(others, l, inputs[0], false), inputs[1..])
  }

  // Keys 8 to 255, then buttons 1 to 7.
  function AllInputs(): seq<Input> { seq(255, i requires 0 <= i < 255 => InputAt(i)) }

  function InputAt(i: nat): Input
    requires i < 255
  {
    if i < 248 then Key(i + 8) else Button(i - 247)
  }

  function ReleaseInput(others: seq<Output>, l: Lease): Lease { ReleaseEach(others, l, AllInputs()) }

  // ---------- the list ----------

  function Remove(outs: seq<Output>, i: nat): seq<Output>
    requires i < |outs|
  {
    outs[..i] + outs[i + 1..]
  }

  function Insert(outs: seq<Output>, i: nat, o: Output): seq<Output>
    requires i <= |outs|
  {
    outs[..i] + [o] + outs[i..]
  }

  function FindId(outs: seq<Output>, id: nat, i: nat): (found: nat)
    requires i <= |outs|
    ensures i <= found <= |outs|
    ensures found < |outs| ==> outs[found].id == id
    ensures forall j :: i <= j < found ==> outs[j].id != id
    decreases |outs| - i
  {
    if i == |outs| || outs[i].id == id then i else FindId(outs, id, i + 1)
  }

  function FindEligible(outs: seq<Output>, window: nat, i: nat): (found: nat)
    requires i <= |outs|
    ensures i <= found <= |outs|
    ensures found < |outs| ==> Eligible(outs[found], window)
    ensures forall j :: i <= j < found ==> !Eligible(outs[j], window)
    decreases |outs| - i
  {
    if i == |outs| || Eligible(outs[i], window) then i else FindEligible(outs, window, i + 1)
  }

  function Orphaned(o: Output, id: nat): Output { if o.parent == id then o.(dead := true) else o }

  function KillChildren(outs: seq<Output>, id: nat): seq<Output> {
    seq(|outs|, i requires 0 <= i < |outs| => Orphaned(outs[i], id))
  }

  function PassSize(outs: seq<Output>, window: nat): seq<Output> {
    var j := FindEligible(outs, window, 0);
    if j == |outs| then outs else outs[j := outs[j].(ownsSize := true)]
  }

  // releaseSelection on an output already unlinked from the list.
  function Detached(rest: seq<Output>, o: Output, log: seq<Signal>): State {
    var killed := KillChildren(rest, o.id);
    var lease := ReleaseInput(killed, Lease(o, log));
    State(if o.ownsSize then PassSize(killed, o.window) else killed, lease.log)
  }

  function Detach(s: State, i: nat): State
    requires i < |s.outs|
  {
    Detached(Remove(s.outs, i), s.outs[i], s.log)
  }

  lemma DetachShrinks(s: State, i: nat)
    requires i < |s.outs|
    ensures |Detach(s, i).outs| == |s.outs| - 1
  {}

  function ReleaseAt(s: State, i: nat): State
    requires i < |s.outs|
  {
    var lease := ReleaseInput(Remove(s.outs, i), Lease(s.outs[i], s.log));
    State(s.outs[i := lease.output], lease.log)
  }

  function KillAt(s: State, i: nat): State
    requires i < |s.outs|
  {
    s.(outs := s.outs[i := s.outs[i].(dead := true)])
  }

  // ---------- commands ----------

  predicate MayDepend(outs: seq<Output>, parent: nat, window: nat) {
    var p := FindId(outs, parent, 0);
    p < |outs| && !outs[p].dead && !Borrowed(outs[p]) && !Separated(outs, parent) && window != 0 && outs[p].window == window
  }

  function BindStep(s: State, e: Event): State
    requires e.Bind?
  {
    if e.id == 0 then s
    else
      var i := FindId(s.outs, e.id, 0);
      var s := if i < |s.outs| then DetachShrinks(s, i); Detach(s, i) else s;
      if e.detail > 2 || (e.detail == 1 && !e.shellWindow) || (e.detail == 2 && !MayDepend(s.outs, e.parent, e.window))
         || !e.allocates then s
      else
        var o := Output(e.id, e.window, false, e.detail == 1, if e.detail == 2 then e.parent else 0, 0, false, {});
        s.(outs := Insert(s.outs, i, o))
  }

  // A command to a view: nothing unless it is live and on that window; a vanished shell view dies.
  datatype Target = Ignore | Dies(i: nat) | At(i: nat)

  function Resolve(outs: seq<Output>, id: nat, window: nat, shellWindow: bool): (t: Target)
    ensures !t.Ignore? ==> t.i < |outs| && outs[t.i].id == id && outs[t.i].window == window && !outs[t.i].dead
    ensures t.Dies? ==> outs[t.i].shell
  {
    var i := FindId(outs, id, 0);
    if id == 0 || i == |outs| || outs[i].dead || outs[i].window != window then Ignore
    else if outs[i].shell && !shellWindow then Dies(i)
    else At(i)
  }

  function OwnSize(o: Output, window: nat, owner: bool): Output {
    if o.window == window then o.(ownsSize := owner) else o
  }

  function ResizeAt(outs: seq<Output>, i: nat, x: int): seq<Output>
    requires i < |outs|
  {
    var outs := outs[i := outs[i].(width := x)];
    if outs[i].window == 0 then outs
    else seq(|outs|, j requires 0 <= j < |outs| => OwnSize(outs[j], outs[i].window, j == i))
  }

  function ToggleAt(s: State, i: nat, x: Input, down: bool): State
    requires i < |s.outs|
  {
    var lease := Toggle(Remove(s.outs, i), Lease(s.outs[i], s.log), x, down);
    State(s.outs[i := lease.output], lease.log)
  }

  // What a command does to the live view it names.
  function Act(s: State, i: nat, e: Event): State
    requires i < |s.outs| && (e.Resize? || e.InputTo? || e.Blur?)
  {
    match e
    case Resize(_, _, x, y, _) =>
      if Borrowed(s.outs[i]) || x < 1 || y < 1 || x > LORIE_WINDOW_SIZE_LIMIT || y > LORIE_WINDOW_SIZE_LIMIT then s
      else s.(outs := ResizeAt(s.outs, i, x))
    case InputTo(_, _, input, down, _, reachable) => if reachable then ToggleAt(s, i, input, down) else s
    case Blur(_, _, _, reachable) => if reachable then ReleaseAt(s, i) else s
  }

  function CommandStep(s: State, e: Event): State
    requires e.Resize? || e.InputTo? || e.Blur?
  {
    match Resolve(s.outs, e.id, e.window, e.shellWindow)
    case Ignore => s
    case Dies(i) => KillAt(ReleaseAt(s, i), i)
    case At(i) => Act(s, i, e)
  }

  function FindView(outs: seq<Output>, id: nat, window: nat, i: nat): (found: nat)
    requires i <= |outs|
    ensures i <= found <= |outs|
    decreases |outs| - i
  {
    if i == |outs| || (outs[i].id == id && outs[i].window == window) then i else FindView(outs, id, window, i + 1)
  }

  function ReleaseFrom(s: State, i: nat): State
    requires i <= |s.outs|
    decreases |s.outs| - i
  {
    if i == |s.outs| then s else ReleaseFrom(ReleaseAt(s, i), i + 1)
  }

  // Every view of a destroyed window, in list order.
  function DestroyFrom(s: State, window: nat, i: nat): State
    requires i <= |s.outs|
    decreases |s.outs| - i
  {
    if i == |s.outs| then s
    else if s.outs[i].window == window then DestroyFrom(KillAt(ReleaseAt(s, i), i), window, i + 1)
    else DestroyFrom(s, window, i + 1)
  }

  function ResetFrom(s: State): State
    decreases |s.outs|
  {
    if s.outs == [] then s else
      DetachShrinks(s, 0);
      ResetFrom(Detach(s, 0))
  }

  function Step(s: State, e: Event): State {
    match e
    case Bind(_, _, _, _, _, _) => BindStep(s, e)
    case Unbind(id) =>
      var i := FindId(s.outs, id, 0);
      if id == 0 || i == |s.outs| then s else Detach(s, i)
    case ReleaseButton(id, window, b) =>
      var i := FindView(s.outs, id, window, 0);
      if i == |s.outs| then s else ToggleAt(s, i, Button(b), false)
    case ReleaseEverything => ReleaseFrom(s, 0)
    case Destroyed(window) => DestroyFrom(s, window, 0)
    case Reset => ResetFrom(s)
    case _ => CommandStep(s, e)
  }

  function Run(s: State, events: seq<Event>): State
    decreases |events|
  {
    if events == [] then s else Run(Step(s, events[0]), events[1..])
  }

  const INIT := State([], [])

  // ==================== leases and signals ====================

  // Whether the device has the key or button down after these signals.
  function Down(log: seq<Signal>, x: Input): bool {
    log != [] && if log[|log| - 1].input == x then log[|log| - 1].down else Down(log[..|log| - 1], x)
  }

  // Every signal for x changes its state: press, release, press, ...
  predicate Alternates(log: seq<Signal>, x: Input) {
    log == []
    || (Alternates(log[..|log| - 1], x) && (log[|log| - 1].input == x ==> log[|log| - 1].down != Down(log[..|log| - 1], x)))
  }

  lemma EmitMeaning(log: seq<Signal>, x: Input, down: bool, y: Input)
    ensures Down(log + [Signal(x, down)], y) == if x == y then down else Down(log, y)
    ensures Alternates(log, y) && (x == y ==> Down(log, x) != down) ==> Alternates(log + [Signal(x, down)], y)
  {
    var l := log + [Signal(x, down)];
    assert l[..|l| - 1] == log;
  }

  // The device agrees with the leases, one output taken apart from the others.
  ghost predicate SyncApart(log: seq<Signal>, others: seq<Output>, held: set<Input>) {
    forall x :: Alternates(log, x) && (Down(log, x) <==> x in held || AnyHolds(others, x))
  }

  ghost predicate Sync(s: State) {
    forall x :: Alternates(s.log, x) && (Down(s.log, x) <==> AnyHolds(s.outs, x))
  }

  lemma ToggleKeepsSync(others: seq<Output>, l: Lease, x: Input, down: bool)
    requires SyncApart(l.log, others, l.output.held)
    ensures SyncApart(Toggle(others, l, x, down).log, others, Toggle(others, l, x, down).output.held)
  {
    if (x in l.output.held) != down && !AnyHolds(others, x) {
      var t := Toggle(others, l, x, down);
      forall y ensures Alternates(t.log, y) && (Down(t.log, y) <==> y in t.output.held || AnyHolds(others, y)) {
        assert Alternates(l.log, y) && (Down(l.log, y) <==> y in l.output.held || AnyHolds(others, y));
        assert Down(l.log, x) <==> x in l.output.held || AnyHolds(others, x);
        EmitMeaning(l.log, x, down, y);
      }
    }
  }

  lemma {:induction false} ReleaseEachKeepsSync(others: seq<Output>, l: Lease, inputs: seq<Input>)
    requires SyncApart(l.log, others, l.output.held)
    ensures var r := ReleaseEach(others, l, inputs);
      && SyncApart(r.log, others, r.output.held)
      && r.output == l.output.(held := r.output.held)
      && forall x :: x in r.output.held <==> x in l.output.held && x !in inputs
    decreases |inputs|
  {
    if inputs != [] {
      ToggleKeepsSync(others, l, inputs[0], false);
      ReleaseEachKeepsSync(others, Toggle(others, l, inputs[0], false), inputs[1..]);
      assert inputs == [inputs[0]] + inputs[1..];
    }
  }

  lemma EveryInputIsListed(x: Input)
    ensures x in AllInputs()
  {
    var i := if x.Key? then x.k - 8 else x.b + 247;
    assert AllInputs()[i] == x;
  }

  // releaseInput leaves the output with nothing and changes nothing else about it.
  lemma ReleaseInputFrees(others: seq<Output>, l: Lease)
    requires SyncApart(l.log, others, l.output.held)
    ensures var r := ReleaseInput(others, l);
      SyncApart(r.log, others, {}) && r.output == l.output.(held := {})
  {
    ReleaseEachKeepsSync(others, l, AllInputs());
    var r := ReleaseInput(others, l);
    forall x ensures x !in r.output.held {
      EveryInputIsListed(x);
    }
    assert r.output.held == {};
  }

  lemma HoldsApart(outs: seq<Output>, i: nat, x: Input)
    requires i < |outs|
    ensures AnyHolds(outs, x) <==> x in outs[i].held || AnyHolds(Remove(outs, i), x)
  {
    var rest := Remove(outs, i);
    if AnyHolds(outs, x) && x !in outs[i].held {
      var j :| 0 <= j < |outs| && x in outs[j].held;
      assert rest[if j < i then j else j - 1] == outs[j];
    }
    if AnyHolds(rest, x) {
      var j :| 0 <= j < |rest| && x in rest[j].held;
      assert rest[j] == outs[if j < i then j else j + 1];
    }
  }

  lemma SyncSplits(s: State, i: nat)
    requires i < |s.outs|
    ensures Sync(s) <==> SyncApart(s.log, Remove(s.outs, i), s.outs[i].held)
  {
    forall x ensures AnyHolds(s.outs, x) <==> x in s.outs[i].held || AnyHolds(Remove(s.outs, i), x) {
      HoldsApart(s.outs, i, x);
    }
  }

  lemma LeaseBack(s: State, i: nat, l: Lease)
    requires i < |s.outs| && SyncApart(l.log, Remove(s.outs, i), l.output.held)
    ensures Sync(State(s.outs[i := l.output], l.log))
  {
    var t := State(s.outs[i := l.output], l.log);
    assert Remove(t.outs, i) == Remove(s.outs, i);
    SyncSplits(t, i);
  }

  lemma ToggleAtKeepsSync(s: State, i: nat, x: Input, down: bool)
    requires i < |s.outs| && Sync(s)
    ensures Sync(ToggleAt(s, i, x, down))
  {
    SyncSplits(s, i);
    ToggleKeepsSync(Remove(s.outs, i), Lease(s.outs[i], s.log), x, down);
    LeaseBack(s, i, Toggle(Remove(s.outs, i), Lease(s.outs[i], s.log), x, down));
  }

  lemma ReleaseAtFrees(s: State, i: nat)
    requires i < |s.outs| && Sync(s)
    ensures Sync(ReleaseAt(s, i)) && ReleaseAt(s, i).outs == s.outs[i := s.outs[i].(held := {})]
  {
    SyncSplits(s, i);
    ReleaseInputFrees(Remove(s.outs, i), Lease(s.outs[i], s.log));
    LeaseBack(s, i, ReleaseInput(Remove(s.outs, i), Lease(s.outs[i], s.log)));
  }

  // Lists whose outputs hold the same things.
  predicate SameHeld(a: seq<Output>, b: seq<Output>) {
    |a| == |b| && forall i :: 0 <= i < |a| ==> a[i].held == b[i].held
  }

  lemma SameHeldHolds(a: seq<Output>, b: seq<Output>, x: Input)
    requires SameHeld(a, b)
    ensures AnyHolds(a, x) <==> AnyHolds(b, x)
  {
    if AnyHolds(a, x) {
      var i :| 0 <= i < |a| && x in a[i].held;
      assert x in b[i].held;
    }
    if AnyHolds(b, x) {
      var i :| 0 <= i < |b| && x in b[i].held;
      assert x in a[i].held;
    }
  }

  lemma SameHeldSync(a: State, outs: seq<Output>)
    requires SameHeld(a.outs, outs)
    ensures Sync(a) <==> Sync(a.(outs := outs))
  {
    forall x ensures AnyHolds(a.outs, x) <==> AnyHolds(outs, x) {
      SameHeldHolds(a.outs, outs, x);
    }
  }

  lemma DetachKeepsSync(s: State, i: nat)
    requires i < |s.outs| && Sync(s)
    ensures Sync(Detach(s, i))
  {
    var rest, o := Remove(s.outs, i), s.outs[i];
    var killed := KillChildren(rest, o.id);
    SyncSplits(s, i);
    forall x ensures AnyHolds(rest, x) <==> AnyHolds(killed, x) {
      SameHeldHolds(rest, killed, x);
    }
    assert SyncApart(s.log, killed, o.held);
    ReleaseInputFrees(killed, Lease(o, s.log));
    var log := ReleaseInput(killed, Lease(o, s.log)).log;
    assert Sync(State(killed, log));
    SameHeldSync(State(killed, log), PassSize(killed, o.window));
  }

  lemma InsertKeepsSync(s: State, i: nat, o: Output)
    requires i <= |s.outs| && Sync(s) && o.held == {}
    ensures Sync(s.(outs := Insert(s.outs, i, o)))
  {
    var t := s.(outs := Insert(s.outs, i, o));
    assert Remove(t.outs, i) == s.outs;
    SyncSplits(t, i);
  }

  lemma BindKeepsSync(s: State, e: Event)
    requires Sync(s) && e.Bind?
    ensures Sync(BindStep(s, e))
  {
    var i := FindId(s.outs, e.id, 0);
    if i < |s.outs| {
      DetachKeepsSync(s, i);
      DetachShrinks(s, i);
    }
    var t := if i < |s.outs| then Detach(s, i) else s;
    var o := Output(e.id, e.window, false, e.detail == 1, if e.detail == 2 then e.parent else 0, 0, false, {});
    InsertKeepsSync(t, i, o);
  }

  lemma KillAtKeepsSync(s: State, i: nat)
    requires i < |s.outs| && Sync(s)
    ensures Sync(KillAt(s, i))
  {
    SameHeldSync(s, KillAt(s, i).outs);
  }

  lemma ActKeepsSync(s: State, i: nat, e: Event)
    requires Sync(s) && i < |s.outs| && (e.Resize? || e.InputTo? || e.Blur?)
    ensures Sync(Act(s, i, e))
  {
    match e
    case Resize(_, _, x, _, _) => SameHeldSync(s, ResizeAt(s.outs, i, x));
    case InputTo(_, _, input, down, _, _) => ToggleAtKeepsSync(s, i, input, down);
    case Blur(_, _, _, _) => ReleaseAtFrees(s, i);
  }

  lemma CommandKeepsSync(s: State, e: Event)
    requires Sync(s) && (e.Resize? || e.InputTo? || e.Blur?)
    ensures Sync(CommandStep(s, e))
  {
    match Resolve(s.outs, e.id, e.window, e.shellWindow)
    case Ignore =>
    case Dies(i) =>
      ReleaseAtFrees(s, i);
      KillAtKeepsSync(ReleaseAt(s, i), i);
    case At(i) => ActKeepsSync(s, i, e);
  }

  lemma {:induction false} ReleaseFromKeepsSync(s: State, i: nat)
    requires i <= |s.outs| && Sync(s)
    ensures Sync(ReleaseFrom(s, i))
    decreases |s.outs| - i
  {
    if i < |s.outs| {
      ReleaseAtFrees(s, i);
      ReleaseFromKeepsSync(ReleaseAt(s, i), i + 1);
    }
  }

  lemma {:induction false} DestroyFromKeepsSync(s: State, window: nat, i: nat)
    requires i <= |s.outs| && Sync(s)
    ensures Sync(DestroyFrom(s, window, i))
    decreases |s.outs| - i
  {
    if i < |s.outs| {
      if s.outs[i].window == window {
        ReleaseAtFrees(s, i);
        KillAtKeepsSync(ReleaseAt(s, i), i);
        DestroyFromKeepsSync(KillAt(ReleaseAt(s, i), i), window, i + 1);
      } else {
        DestroyFromKeepsSync(s, window, i + 1);
      }
    }
  }

  lemma {:induction false} ResetFromKeepsSync(s: State)
    requires Sync(s)
    ensures Sync(ResetFrom(s)) && ResetFrom(s).outs == []
    decreases |s.outs|
  {
    if s.outs != [] {
      DetachKeepsSync(s, 0);
      DetachShrinks(s, 0);
      ResetFromKeepsSync(Detach(s, 0));
    }
  }

  lemma StepKeepsSync(s: State, e: Event)
    requires Sync(s)
    ensures Sync(Step(s, e))
  {
    match e
    case Bind(_, _, _, _, _, _) => BindKeepsSync(s, e);
    case Unbind(id) =>
      if FindId(s.outs, id, 0) < |s.outs| {
        DetachKeepsSync(s, FindId(s.outs, id, 0));
      }
    case ReleaseButton(id, window, b) =>
      if FindView(s.outs, id, window, 0) < |s.outs| {
        ToggleAtKeepsSync(s, FindView(s.outs, id, window, 0), Button(b), false);
      }
    case ReleaseEverything => ReleaseFromKeepsSync(s, 0);
    case Destroyed(window) => DestroyFromKeepsSync(s, window, 0);
    case Reset => ResetFromKeepsSync(s);
    case Resize(_, _, _, _, _) => CommandKeepsSync(s, e);
    case InputTo(_, _, _, _, _, _) => CommandKeepsSync(s, e);
    case Blur(_, _, _, _) => CommandKeepsSync(s, e);
  }

  lemma {:induction false} RunKeepsSync(s: State, events: seq<Event>)
    requires Sync(s)
    ensures Sync(Run(s, events))
    decreases |events|
  {
    if events != [] {
      StepKeepsSync(s, events[0]);
      RunKeepsSync(Step(s, events[0]), events[1..]);
    }
  }

  // Over any run, the signals for each key and button strictly alternate, and it is down exactly
  // while some listed output holds it.
  lemma SignalsAlternate(events: seq<Event>, x: Input)
    ensures var s := Run(INIT, events);
      Alternates(s.log, x) && (Down(s.log, x) <==> AnyHolds(s.outs, x))
  {
    RunKeepsSync(INIT, events);
  }

  // After a reset nothing is listed and nothing is down.
  lemma ResetReleasesEverything(events: seq<Event>, x: Input)
    ensures var s := Run(INIT, events + [Reset]);
      s.outs == [] && !Down(s.log, x)
  {
    RunKeepsSync(INIT, events);
    RunSnoc(INIT, events, Reset);
    ResetFromKeepsSync(Run(INIT, events));
  }

  lemma {:induction false} RunSnoc(s: State, events: seq<Event>, e: Event)
    ensures Run(s, events + [e]) == Step(Run(s, events), e)
    decreases |events|
  {
    if events == [] {
      assert ([e])[1..] == [] && [] + [e] == [e];
    } else {
      assert (events + [e])[1..] == events[1..] + [e];
      RunSnoc(Step(s, events[0]), events[1..], e);
    }
  }

  // ==================== identity, size and dependence ====================

  predicate LiveOwner(o: Output, window: nat) { o.ownsSize && !o.dead && o.window == window }

  predicate ParentOf(p: Output, o: Output) {
    p.id == o.parent && !p.dead && !Borrowed(p) && p.window == o.window != 0
  }

  predicate Dependent(o: Output) { !o.dead && o.parent != 0 }

  predicate IdsOk(outs: seq<Output>) {
    && (forall i :: 0 <= i < |outs| ==> outs[i].id != 0)
    && (forall i, j :: 0 <= i < j < |outs| ==> outs[i].id != outs[j].id)
  }

  // One owner a window, and an owner is a view of a real window in its own right.
  ghost predicate OwnersOk(outs: seq<Output>) {
    && (forall a :: a in outs && a.ownsSize ==> a.window != 0 && !Borrowed(a))
    && (forall a, b :: a in outs && b in outs && a.ownsSize && b.ownsSize && a.window == b.window ==> a.id == b.id)
  }

  ghost predicate HasOwner(outs: seq<Output>, window: nat) { exists b :: b in outs && LiveOwner(b, window) }

  // A window with a live resized view has a live owner; the window given is excused.
  ghost predicate SizedExcept(outs: seq<Output>, excused: nat) {
    forall a :: a in outs && a.window != 0 && a.window != excused && Eligible(a, a.window) ==> HasOwner(outs, a.window)
  }

  ghost predicate HasParent(outs: seq<Output>, o: Output) { exists p :: p in outs && ParentOf(p, o) }

  // Dependents have their parents, one each; those of the id given are excused.
  ghost predicate DependExcept(outs: seq<Output>, excused: nat) {
    && (forall a :: a in outs && Dependent(a) && a.parent != excused ==> HasParent(outs, a))
    && (forall a, b :: a in outs && b in outs && Dependent(a) && Dependent(b) && a.parent == b.parent ==> a.id == b.id)
  }

  ghost predicate Shape(outs: seq<Output>) {
    IdsOk(outs) && OwnersOk(outs) && SizedExcept(outs, 0) && DependExcept(outs, 0)
  }

  // ---------- changes that only touch leases ----------

  predicate SameBut(a: Output, b: Output) { a.(held := {}) == b.(held := {}) }

  predicate AllSame(a: seq<Output>, b: seq<Output>) {
    |a| == |b| && forall i :: 0 <= i < |a| ==> SameBut(a[i], b[i])
  }

  lemma CounterpartIn(a: seq<Output>, b: seq<Output>, o: Output)
    requires AllSame(a, b) && o in b
    ensures exists p :: p in a && SameBut(p, o)
  {
    var i :| 0 <= i < |b| && b[i] == o;
    assert a[i] in a && SameBut(a[i], o);
  }

  lemma LeasesKeepSized(a: seq<Output>, b: seq<Output>)
    requires AllSame(a, b) && AllSame(b, a) && SizedExcept(a, 0)
    ensures SizedExcept(b, 0)
  {
    forall o | o in b && o.window != 0 && Eligible(o, o.window) ensures HasOwner(b, o.window) {
      CounterpartIn(a, b, o);
      var p :| p in a && SameBut(p, o);
      assert HasOwner(a, p.window);
      var q :| q in a && LiveOwner(q, p.window);
      CounterpartIn(b, a, q);
    }
  }

  lemma LeasesKeepDepend(a: seq<Output>, b: seq<Output>)
    requires AllSame(a, b) && AllSame(b, a) && DependExcept(a, 0)
    ensures DependExcept(b, 0)
  {
    forall o | o in b && Dependent(o) ensures HasParent(b, o) {
      CounterpartIn(a, b, o);
      var p :| p in a && SameBut(p, o);
      assert HasParent(a, p);
      var q :| q in a && ParentOf(q, p);
      CounterpartIn(b, a, q);
    }
    forall o, r | o in b && r in b && Dependent(o) && Dependent(r) && o.parent == r.parent ensures o.id == r.id {
      CounterpartIn(a, b, o);
      CounterpartIn(a, b, r);
    }
  }

  lemma LeasesKeepShape(a: seq<Output>, b: seq<Output>)
    requires AllSame(a, b) && Shape(a)
    ensures Shape(b)
  {
    LeasesKeepSized(a, b);
    LeasesKeepDepend(a, b);
    assert forall i :: 0 <= i < |a| ==> SameBut(a[i], b[i]) && a[i].id == b[i].id;
    forall o | o in b && o.ownsSize ensures o.window != 0 && !Borrowed(o) {
      CounterpartIn(a, b, o);
    }
    forall o, r | o in b && r in b && o.ownsSize && r.ownsSize && o.window == r.window ensures o.id == r.id {
      CounterpartIn(a, b, o);
      CounterpartIn(a, b, r);
    }
  }

  // ---------- unlinking an output ----------

  lemma RemovedIn(outs: seq<Output>, i: nat, o: Output)
    requires i < |outs| && IdsOk(outs)
    ensures o in Remove(outs, i) <==> o in outs && o.id != outs[i].id
  {
    if o in Remove(outs, i) {
      var j :| 0 <= j < |Remove(outs, i)| && Remove(outs, i)[j] == o;
      assert outs[if j < i then j else j + 1] == o;
    }
    if o in outs && o.id != outs[i].id {
      var j :| 0 <= j < |outs| && outs[j] == o;
      assert Remove(outs, i)[if j < i then j else j - 1] == o;
    }
  }

  lemma RemoveKeepsIds(outs: seq<Output>, i: nat)
    requires i < |outs| && IdsOk(outs)
    ensures IdsOk(Remove(outs, i))
  {
    var r := Remove(outs, i);
    assert forall j :: 0 <= j < |r| ==> r[j] == outs[if j < i then j else j + 1];
  }

  lemma RemoveShape(outs: seq<Output>, i: nat)
    requires i < |outs| && Shape(outs)
    ensures var r, o := Remove(outs, i), outs[i];
      && IdsOk(r) && OwnersOk(r) && DependExcept(r, o.id)
      && SizedExcept(r, if o.ownsSize then o.window else 0)
      && (o.ownsSize ==> forall a :: a in r && a.ownsSize ==> a.window != o.window)
  {
    var r, o := Remove(outs, i), outs[i];
    RemoveKeepsIds(outs, i);
    forall a ensures a in r <==> a in outs && a.id != o.id {
      RemovedIn(outs, i, a);
    }
    forall a | a in r && a.window != 0 && Eligible(a, a.window) && !(o.ownsSize && a.window == o.window)
      ensures HasOwner(r, a.window)
    {
      assert HasOwner(outs, a.window);
      var b :| b in outs && LiveOwner(b, a.window);
      assert b in r by {
        if b.id == o.id {
          OnlyOne(outs, i, b);
        }
      }
    }
    forall a | a in r && Dependent(a) && a.parent != o.id ensures HasParent(r, a) {
      assert HasParent(outs, a);
      var p :| p in outs && ParentOf(p, a);
      assert p in r;
    }
  }

  lemma OnlyOne(outs: seq<Output>, i: nat, o: Output)
    requires IdsOk(outs) && i < |outs| && o in outs && o.id == outs[i].id
    ensures o == outs[i]
  {}

  lemma KilledIn(outs: seq<Output>, id: nat, o: Output)
    ensures o in KillChildren(outs, id) <==> exists p :: p in outs && Orphaned(p, id) == o
  {
    var k := KillChildren(outs, id);
    if o in k {
      var i :| 0 <= i < |k| && k[i] == o;
      assert outs[i] in outs && Orphaned(outs[i], id) == o;
    }
    if exists p :: p in outs && Orphaned(p, id) == o {
      var p :| p in outs && Orphaned(p, id) == o;
      var i :| 0 <= i < |outs| && outs[i] == p;
      assert k[i] == o;
    }
  }

  // Killing the children leaves every other view as it was, and unborrowed ones always.
  lemma KillShape(outs: seq<Output>, id: nat, window: nat)
    requires id != 0 && IdsOk(outs) && OwnersOk(outs) && DependExcept(outs, id) && SizedExcept(outs, window)
    ensures var k := KillChildren(outs, id);
      IdsOk(k) && OwnersOk(k) && DependExcept(k, 0) && SizedExcept(k, window)
  {
    var k := KillChildren(outs, id);
    forall o ensures o in k <==> exists p :: p in outs && Orphaned(p, id) == o {
      KilledIn(outs, id, o);
    }
    forall o | o in k && Dependent(o) ensures o in outs && o.parent != id && HasParent(k, o) {
      assert HasParent(outs, o);
      var p :| p in outs && ParentOf(p, o);
      assert Orphaned(p, id) == p;
    }
    forall o | o in k && o.window != 0 && o.window != window && Eligible(o, o.window) ensures HasOwner(k, o.window) {
      assert HasOwner(outs, o.window);
      var b :| b in outs && LiveOwner(b, o.window);
      assert Orphaned(b, id) == b;
    }
  }

  lemma UpdatedIn(outs: seq<Output>, i: nat, o: Output, x: Output)
    requires IdsOk(outs) && i < |outs| && o.id == outs[i].id
    ensures x in outs[i := o] <==> x == o || (x in outs && x.id != o.id)
    ensures IdsOk(outs[i := o])
  {
    var u := outs[i := o];
    if x in u && x != o {
      var j :| 0 <= j < |u| && u[j] == x;
      assert outs[j] == x;
    }
    if x in outs && x.id != o.id {
      var j :| 0 <= j < |outs| && outs[j] == x;
      assert u[j] == x;
    }
    assert u[i] == o;
  }

  // The size passes to the first live resized view of the window, if there is one.
  lemma PassSizeShape(outs: seq<Output>, window: nat)
    requires window != 0 && IdsOk(outs) && OwnersOk(outs) && DependExcept(outs, 0) && SizedExcept(outs, window)
    requires forall a :: a in outs && a.ownsSize ==> a.window != window
    ensures Shape(PassSize(outs, window))
  {
    var j := FindEligible(outs, window, 0);
    if j < |outs| {
      var o := outs[j].(ownsSize := true);
      var u := outs[j := o];
      forall x ensures x in u <==> x == o || (x in outs && x.id != o.id) {
        UpdatedIn(outs, j, o, x);
      }
      UpdatedIn(outs, j, o, o);
      forall a | a in u && a.window != 0 && Eligible(a, a.window) ensures HasOwner(u, a.window) {
        if a.window == window {
          assert LiveOwner(o, window);
        } else {
          assert HasOwner(outs, a.window);
          var b :| b in outs && LiveOwner(b, a.window);
          assert b in u by {
            if b.id == o.id {
              OnlyOne(outs, j, b);
            }
          }
        }
      }
      UpdateKeepsDepend(outs, j, o);
    }
  }

  // A change that leaves identity, life and parentage alone.
  lemma UpdateKeepsDepend(outs: seq<Output>, i: nat, o: Output)
    requires IdsOk(outs) && DependExcept(outs, 0) && i < |outs|
    requires o.id == outs[i].id && o.window == outs[i].window && o.dead == outs[i].dead
    requires o.parent == outs[i].parent && o.shell == outs[i].shell
    ensures DependExcept(outs[i := o], 0)
  {
    var u, was := outs[i := o], outs[i];
    forall x ensures x in u <==> x == o || (x in outs && x.id != o.id) {
      UpdatedIn(outs, i, o, x);
    }
    forall a | a in u && Dependent(a) ensures HasParent(u, a) {
      var old_a := if a == o then was else a;
      assert HasParent(outs, old_a);
      var p :| p in outs && ParentOf(p, old_a);
      if p.id == o.id {
        OnlyOne(outs, i, p);
        assert o in u && ParentOf(o, a);
      } else {
        assert p in u && ParentOf(p, a);
      }
    }
    forall a, b | a in u && b in u && Dependent(a) && Dependent(b) && a.parent == b.parent ensures a.id == b.id {
      var old_a, old_b := if a == o then was else a, if b == o then was else b;
      assert old_a in outs && old_b in outs;
    }
  }

  lemma DetachShape(s: State, i: nat)
    requires i < |s.outs| && Shape(s.outs)
    ensures Shape(Detach(s, i).outs)
    ensures forall o :: o in Detach(s, i).outs ==> o.id != s.outs[i].id
  {
    var rest, o := Remove(s.outs, i), s.outs[i];
    RemoveShape(s.outs, i);
    KillShape(rest, o.id, if o.ownsSize then o.window else 0);
    var killed := KillChildren(rest, o.id);
    forall x ensures x in killed <==> exists p :: p in rest && Orphaned(p, o.id) == x {
      KilledIn(rest, o.id, x);
    }
    forall x ensures x in rest ==> x.id != o.id {
      RemovedIn(s.outs, i, x);
    }
    if o.ownsSize {
      assert forall a :: a in killed && a.ownsSize ==> a.window != o.window;
      PassSizeShape(killed, o.window);
      PassSizeKeepsIds(killed, o.window, o.id);
    }
  }

  lemma PassSizeKeepsIds(outs: seq<Output>, window: nat, id: nat)
    requires IdsOk(outs) && forall o :: o in outs ==> o.id != id
    ensures forall o :: o in PassSize(outs, window) ==> o.id != id
  {
    var j := FindEligible(outs, window, 0);
    if j < |outs| {
      forall x ensures x in PassSize(outs, window) ==> x.id != id {
        UpdatedIn(outs, j, outs[j].(ownsSize := true), x);
      }
    }
  }

  // ---------- linking a new one ----------

  lemma InsertedIn(outs: seq<Output>, i: nat, o: Output, x: Output)
    requires i <= |outs|
    ensures x in Insert(outs, i, o) <==> x == o || x in outs
  {
    assert outs == outs[..i] + outs[i..];
  }

  lemma InsertKeepsIds(outs: seq<Output>, i: nat, o: Output)
    requires i <= |outs| && IdsOk(outs) && o.id != 0 && forall x :: x in outs ==> x.id != o.id
    ensures IdsOk(Insert(outs, i, o))
  {
    var u := Insert(outs, i, o);
    assert forall j :: 0 <= j < |u| && j != i ==> u[j] == outs[if j < i then j else j - 1];
  }

  lemma InsertShape(outs: seq<Output>, i: nat, o: Output)
    requires i <= |outs| && Shape(outs) && o.id != 0 && forall x :: x in outs ==> x.id != o.id
    requires !o.ownsSize && o.width == 0
    requires o.parent != 0 ==> HasParent(outs, o) && !Separated(outs, o.parent)
    ensures Shape(Insert(outs, i, o))
  {
    var u := Insert(outs, i, o);
    InsertKeepsIds(outs, i, o);
    forall x ensures x in u <==> x == o || x in outs {
      InsertedIn(outs, i, o, x);
    }
    forall a | a in u && a.window != 0 && Eligible(a, a.window) ensures HasOwner(u, a.window) {
      assert HasOwner(outs, a.window);
    }
    forall a | a in u && Dependent(a) ensures HasParent(u, a) {
      assert HasParent(outs, a);
    }
    forall a, b | a in u && b in u && Dependent(a) && Dependent(b) && a.parent == b.parent ensures a.id == b.id {
      if a == o && b != o {
        NotSeparated(outs, b);
      } else if b == o && a != o {
        NotSeparated(outs, a);
      }
    }
  }

  lemma NotSeparated(outs: seq<Output>, a: Output)
    requires a in outs && Dependent(a)
    ensures Separated(outs, a.parent)
  {}

  lemma BindShape(s: State, e: Event)
    requires Shape(s.outs) && e.Bind?
    ensures Shape(BindStep(s, e).outs)
  {
    if e.id != 0 {
      var i := FindId(s.outs, e.id, 0);
      if i < |s.outs| {
        DetachShape(s, i);
        DetachShrinks(s, i);
      }
      var t := if i < |s.outs| then Detach(s, i) else s;
      var o := Output(e.id, e.window, false, e.detail == 1, if e.detail == 2 then e.parent else 0, 0, false, {});
      if e.detail == 2 && MayDepend(t.outs, e.parent, e.window) {
        assert ParentOf(t.outs[FindId(t.outs, e.parent, 0)], o);
      }
      if e.detail != 2 || MayDepend(t.outs, e.parent, e.window) {
        InsertShape(t.outs, i, o);
      }
    }
  }

  // ---------- resizing ----------

  lemma ResizedIn(outs: seq<Output>, i: nat, x: int)
    requires i < |outs| && Shape(outs) && !outs[i].dead && !Borrowed(outs[i]) && outs[i].window != 0
    ensures var u, window := ResizeAt(outs, i, x), outs[i].window;
      && |u| == |outs|
      && (forall j :: 0 <= j < |outs| && j != i ==> u[j] == OwnSize(outs[j], window, false))
      && u[i] == outs[i].(width := x, ownsSize := true)
  {}

  lemma ResizeShape(outs: seq<Output>, i: nat, x: int)
    requires i < |outs| && Shape(outs) && !outs[i].dead && !Borrowed(outs[i]) && outs[i].window != 0
    ensures Shape(ResizeAt(outs, i, x))
  {
    var u, window := ResizeAt(outs, i, x), outs[i].window;
    ResizedIn(outs, i, x);
    ResizeKeepsSized(outs, u, i, window);
    ResizeKeepsOwners(outs, u, i, window);
    assert forall j :: 0 <= j < |outs| ==> SameRole(u[j], outs[j]);
    ResizeKeepsDepend(outs, u);
    assert IdsOk(u);
  }

  lemma ResizeKeepsSized(outs: seq<Output>, u: seq<Output>, i: nat, window: nat)
    requires i < |outs| == |u| && SizedExcept(outs, 0) && LiveOwner(u[i], window)
    requires forall j :: 0 <= j < |outs| && j != i ==> u[j] == OwnSize(outs[j], window, false)
    requires outs[i].window == window
    ensures SizedExcept(u, 0)
  {
    forall a | a in u && a.window != 0 && Eligible(a, a.window) ensures HasOwner(u, a.window) {
      if a.window == window {
        assert u[i] in u;
      } else {
        var k :| 0 <= k < |u| && u[k] == a;
        assert outs[k] == a && HasOwner(outs, a.window);
        var b :| b in outs && LiveOwner(b, a.window);
        var j :| 0 <= j < |outs| && outs[j] == b;
        assert u[j] == b;
      }
    }
  }

  lemma ResizeKeepsOwners(outs: seq<Output>, u: seq<Output>, i: nat, window: nat)
    requires i < |outs| == |u| && OwnersOk(outs) && window != 0
    requires forall j :: 0 <= j < |outs| && j != i ==> u[j] == OwnSize(outs[j], window, false)
    requires u[i].window == window && u[i].ownsSize && !Borrowed(u[i])
    ensures OwnersOk(u)
  {
    forall a | a in u && a.ownsSize ensures a == u[i] || (a in outs && a.window != window) {
      var j :| 0 <= j < |u| && u[j] == a;
    }
  }

  // Sizes say nothing about dependence.
  predicate SameRole(a: Output, b: Output) {
    a.id == b.id && a.window == b.window && a.dead == b.dead && a.shell == b.shell && a.parent == b.parent
  }

  lemma ResizeKeepsDepend(outs: seq<Output>, u: seq<Output>)
    requires |outs| == |u| && DependExcept(outs, 0)
    requires forall j :: 0 <= j < |outs| ==> SameRole(u[j], outs[j])
    ensures DependExcept(u, 0)
  {
    forall a | a in u && Dependent(a) ensures HasParent(u, a) {
      var j :| 0 <= j < |u| && u[j] == a;
      assert HasParent(outs, outs[j]);
      var p :| p in outs && ParentOf(p, outs[j]);
      var k :| 0 <= k < |outs| && outs[k] == p;
      assert u[k] in u && ParentOf(u[k], a);
    }
    forall a, b | a in u && b in u && Dependent(a) && Dependent(b) && a.parent == b.parent ensures a.id == b.id {
      var j :| 0 <= j < |u| && u[j] == a;
      var k :| 0 <= k < |u| && u[k] == b;
      assert outs[j] in outs && outs[k] in outs;
    }
  }

  // Resizing a view of the whole screen changes its width alone.
  lemma ResizeScreenShape(outs: seq<Output>, i: nat, x: int)
    requires i < |outs| && Shape(outs) && outs[i].window == 0
    ensures Shape(ResizeAt(outs, i, x))
  {
    var o := outs[i].(width := x);
    var u := outs[i := o];
    forall a ensures a in u <==> a == o || (a in outs && a.id != o.id) {
      UpdatedIn(outs, i, o, a);
    }
    UpdatedIn(outs, i, o, o);
    UpdateKeepsDepend(outs, i, o);
    assert outs[i] in outs;
    forall a | a in u && a.window != 0 && Eligible(a, a.window) ensures HasOwner(u, a.window) {
      assert HasOwner(outs, a.window);
      var b :| b in outs && LiveOwner(b, a.window);
      assert b in u by {
        if b.id == o.id {
          OnlyOne(outs, i, b);
        }
      }
    }
  }

  // ---------- dying ----------

  function Perished(o: Output, window: nat): Output {
    if o.window == window then o.(dead := true, held := {}) else o
  }

  // A destroyed window takes all its views with it: the list is marked through, in order.
  lemma {:induction false} DestroyFromOuts(s: State, window: nat, i: nat)
    requires i <= |s.outs| && Sync(s)
    ensures var outs := DestroyFrom(s, window, i).outs;
      |outs| == |s.outs| && forall j :: 0 <= j < |outs| ==>
        outs[j] == if j < i then s.outs[j] else Perished(s.outs[j], window)
    decreases |s.outs| - i
  {
    if i < |s.outs| {
      if s.outs[i].window == window {
        ReleaseAtFrees(s, i);
        KillAtKeepsSync(ReleaseAt(s, i), i);
        DestroyFromOuts(KillAt(ReleaseAt(s, i), i), window, i + 1);
      } else {
        DestroyFromOuts(s, window, i + 1);
      }
    }
  }

  lemma PerishShape(a: seq<Output>, b: seq<Output>, window: nat)
    requires Shape(a) && |a| == |b| && forall j :: 0 <= j < |a| ==> b[j] == Perished(a[j], window)
    ensures Shape(b)
  {
    forall o | o in b ensures exists p :: p in a && o == Perished(p, window) {
      var j :| 0 <= j < |b| && b[j] == o;
      assert a[j] in a;
    }
    forall p | p in a && p.window != window ensures p in b {
      var j :| 0 <= j < |a| && a[j] == p;
      assert b[j] == p;
    }
    forall o | o in b && o.window != 0 && Eligible(o, o.window) ensures HasOwner(b, o.window) {
      assert o in a && HasOwner(a, o.window);
      var q :| q in a && LiveOwner(q, o.window);
      assert q in b;
    }
    forall o | o in b && Dependent(o) ensures HasParent(b, o) {
      assert o in a && HasParent(a, o);
      var q :| q in a && ParentOf(q, o);
      assert q in b;
    }
  }

  lemma DestroyShape(s: State, window: nat)
    requires Shape(s.outs) && Sync(s)
    ensures Shape(DestroyFrom(s, window, 0).outs)
  {
    DestroyFromOuts(s, window, 0);
    PerishShape(s.outs, DestroyFrom(s, window, 0).outs, window);
  }

  // A shell view is borrowed: nothing depends on it and it owns no size.
  lemma ShellDiesShape(outs: seq<Output>, i: nat)
    requires Shape(outs) && i < |outs| && outs[i].shell
    ensures Shape(outs[i := outs[i].(dead := true)])
  {
    var o := outs[i].(dead := true);
    var u := outs[i := o];
    forall x ensures x in u <==> x == o || (x in outs && x.id != o.id) {
      UpdatedIn(outs, i, o, x);
    }
    UpdatedIn(outs, i, o, o);
    assert outs[i] in outs && !o.ownsSize;
    forall a | a in u && a.window != 0 && Eligible(a, a.window) ensures HasOwner(u, a.window) {
      assert HasOwner(outs, a.window);
      var b :| b in outs && LiveOwner(b, a.window);
      assert b in u by {
        if b.id == o.id {
          OnlyOne(outs, i, b);
        }
      }
    }
    forall a | a in u && Dependent(a) ensures HasParent(u, a) {
      assert HasParent(outs, a);
      var p :| p in outs && ParentOf(p, a);
      assert p in u by {
        if p.id == o.id {
          OnlyOne(outs, i, p);
        }
      }
    }
  }

  // ---------- every step ----------

  lemma ReleaseAtShape(s: State, i: nat)
    requires i < |s.outs| && Sync(s) && Shape(s.outs)
    ensures Shape(ReleaseAt(s, i).outs)
  {
    ReleaseAtFrees(s, i);
    LeasesKeepShape(s.outs, ReleaseAt(s, i).outs);
  }

  lemma ToggleAtShape(s: State, i: nat, x: Input, down: bool)
    requires i < |s.outs| && Shape(s.outs)
    ensures Shape(ToggleAt(s, i, x, down).outs)
  {
    LeasesKeepShape(s.outs, ToggleAt(s, i, x, down).outs);
  }

  lemma CommandShape(s: State, e: Event)
    requires Shape(s.outs) && Sync(s) && (e.Resize? || e.InputTo? || e.Blur?)
    ensures Shape(CommandStep(s, e).outs)
  {
    match Resolve(s.outs, e.id, e.window, e.shellWindow)
    case Ignore =>
    case Dies(i) =>
      ReleaseAtFrees(s, i);
      ReleaseAtShape(s, i);
      ShellDiesShape(ReleaseAt(s, i).outs, i);
    case At(i) =>
      match e {
        case Resize(_, _, x, _, _) =>
          if !Borrowed(s.outs[i]) {
            if s.outs[i].window == 0 {
              ResizeScreenShape(s.outs, i, x);
            } else {
              ResizeShape(s.outs, i, x);
            }
          }
        case InputTo(_, _, input, down, _, _) => ToggleAtShape(s, i, input, down);
        case Blur(_, _, _, _) => ReleaseAtShape(s, i);
      }
  }

  lemma {:induction false} ReleaseFromShape(s: State, i: nat)
    requires i <= |s.outs| && Sync(s) && Shape(s.outs)
    ensures Shape(ReleaseFrom(s, i).outs)
    decreases |s.outs| - i
  {
    if i < |s.outs| {
      ReleaseAtFrees(s, i);
      ReleaseAtShape(s, i);
      ReleaseFromShape(ReleaseAt(s, i), i + 1);
    }
  }

  lemma StepKeepsShape(s: State, e: Event)
    requires Sync(s) && Shape(s.outs)
    ensures Shape(Step(s, e).outs)
  {
    match e
    case Bind(_, _, _, _, _, _) => BindShape(s, e);
    case Unbind(id) =>
      if FindId(s.outs, id, 0) < |s.outs| {
        DetachShape(s, FindId(s.outs, id, 0));
      }
    case ReleaseButton(id, window, b) =>
      if FindView(s.outs, id, window, 0) < |s.outs| {
        ToggleAtShape(s, FindView(s.outs, id, window, 0), Button(b), false);
      }
    case ReleaseEverything => ReleaseFromShape(s, 0);
    case Destroyed(window) => DestroyShape(s, window);
    case Reset => ResetFromKeepsSync(s);
    case Resize(_, _, _, _, _) => CommandShape(s, e);
    case InputTo(_, _, _, _, _, _) => CommandShape(s, e);
    case Blur(_, _, _, _) => CommandShape(s, e);
  }

  lemma {:induction false} RunKeepsShape(s: State, events: seq<Event>)
    requires Sync(s) && Shape(s.outs)
    ensures Shape(Run(s, events).outs)
    decreases |events|
  {
    if events != [] {
      StepKeepsSync(s, events[0]);
      StepKeepsShape(s, events[0]);
      RunKeepsShape(Step(s, events[0]), events[1..]);
    }
  }

  predicate BothOwn(a: Output, b: Output) { a.ownsSize && b.ownsSize && a.window == b.window }

  predicate Siblings(a: Output, b: Output) { Dependent(a) && Dependent(b) && a.parent == b.parent }

  // Over any run: ids are nonzero and unique; a window has at most one size owner, and a live one
  // whenever a live resized view of it exists; a live dependent has a live parent on the same window
  // and shares it with no other live dependent.
  lemma OwnershipHolds(events: seq<Event>)
    ensures var outs := Run(INIT, events).outs;
      && IdsOk(outs)
      && (forall i, j :: 0 <= i < |outs| && 0 <= j < |outs| && BothOwn(outs[i], outs[j]) ==> i == j)
      && (forall a :: a in outs && a.window != 0 && Eligible(a, a.window) ==>
            exists b :: b in outs && b.ownsSize && !b.dead && b.window == a.window)
      && (forall a :: a in outs && Dependent(a) ==> exists p :: p in outs && ParentOf(p, a))
      && (forall i, j :: 0 <= i < |outs| && 0 <= j < |outs| && Siblings(outs[i], outs[j]) ==> i == j)
  {
    RunKeepsShape(INIT, events);
    var outs := Run(INIT, events).outs;
    forall a | a in outs && a.window != 0 && Eligible(a, a.window)
      ensures exists b :: b in outs && b.ownsSize && !b.dead && b.window == a.window
    {
      assert HasOwner(outs, a.window);
    }
    forall a | a in outs && Dependent(a) ensures exists p :: p in outs && ParentOf(p, a) {
      assert HasParent(outs, a);
    }
    forall i, j | 0 <= i < |outs| && 0 <= j < |outs| && outs[i].id == outs[j].id ensures i == j {}
  }

  // ==================== dead outputs that hold ====================

  // An output that was live before is dead and holds x.
  ghost predicate NewlyDeadHolds(before: seq<Output>, after: seq<Output>, x: Input) {
    exists a, b :: a in before && b in after && a.id == b.id && !a.dead && b.dead && x in b.held
  }

  // The command takes a listed output away while a live child of it holds x.
  ghost predicate Strands(outs: seq<Output>, e: Event, x: Input) {
    && (e.Unbind? || e.Bind?)
    && e.id != 0
    && FindId(outs, e.id, 0) < |outs|
    && exists c :: c in outs && !c.dead && c.parent == e.id && x in c.held
  }

  // Nothing dies but with empty hands.
  predicate Gentle(a: seq<Output>, b: seq<Output>) {
    |a| == |b| && forall i :: 0 <= i < |a| ==> b[i].id == a[i].id && (b[i].dead ==> a[i].dead || b[i].held == {})
  }

  lemma GentleStrandsNone(a: seq<Output>, b: seq<Output>, x: Input)
    requires IdsOk(a) && Gentle(a, b)
    ensures !NewlyDeadHolds(a, b, x)
  {
    forall p, q | p in a && q in b && p.id == q.id && !p.dead && q.dead ensures x !in q.held {
      var i :| 0 <= i < |b| && b[i] == q;
      OnlyOne(a, i, p);
    }
  }

  // Detaching an output changes the others' lives alone, and of those its children's.
  lemma DetachPointwise(s: State, i: nat)
    requires i < |s.outs|
    ensures var r, rest := Detach(s, i).outs, Remove(s.outs, i);
      |r| == |rest| && forall j :: 0 <= j < |r| ==>
        && r[j].id == rest[j].id && r[j].held == rest[j].held
        && r[j].dead == (rest[j].dead || rest[j].parent == s.outs[i].id)
  {}

  // No output is its own parent.
  lemma ChildIsOther(outs: seq<Output>, i: nat, c: Output)
    requires Shape(outs) && i < |outs| && c in outs && Dependent(c) && c.parent == outs[i].id
    ensures c in Remove(outs, i)
  {
    assert HasParent(outs, c);
    var p :| p in outs && ParentOf(p, c);
    RemovedIn(outs, i, c);
    if c.id == outs[i].id {
      OnlyOne(outs, i, c);
      OnlyOne(outs, i, p);
      assert false;
    }
  }

  // A view newly dead after a detach is a child.
  lemma StrandedIsChild(s: State, i: nat, a: Output, b: Output)
    requires Shape(s.outs) && i < |s.outs| && a in s.outs && b in Detach(s, i).outs
    requires a.id == b.id && !a.dead && b.dead
    ensures a.parent == s.outs[i].id && a.held == b.held
  {
    var r, rest := Detach(s, i).outs, Remove(s.outs, i);
    DetachPointwise(s, i);
    RemoveKeepsIds(s.outs, i);
    var j :| 0 <= j < |r| && r[j] == b;
    assert rest[j] in rest;
    RemovedIn(s.outs, i, rest[j]);
    RemovedIn(s.outs, i, a);
    OnlyOne(rest, j, a);
  }

  // And a live child is newly dead after it.
  lemma ChildIsStranded(s: State, i: nat, c: Output) returns (b: Output)
    requires Shape(s.outs) && i < |s.outs| && c in s.outs && !c.dead && c.parent == s.outs[i].id
    ensures b in Detach(s, i).outs && b.id == c.id && b.dead && b.held == c.held
  {
    var r, rest := Detach(s, i).outs, Remove(s.outs, i);
    DetachPointwise(s, i);
    ChildIsOther(s.outs, i, c);
    var j :| 0 <= j < |rest| && rest[j] == c;
    b := r[j];
  }

  lemma DetachStrandsExactly(s: State, i: nat, x: Input)
    requires Shape(s.outs) && i < |s.outs|
    ensures NewlyDeadHolds(s.outs, Detach(s, i).outs, x) <==>
      exists c :: c in s.outs && !c.dead && c.parent == s.outs[i].id && x in c.held
  {
    if NewlyDeadHolds(s.outs, Detach(s, i).outs, x) {
      var a, b :| a in s.outs && b in Detach(s, i).outs && a.id == b.id && !a.dead && b.dead && x in b.held;
      StrandedIsChild(s, i, a, b);
    }
    if c :| c in s.outs && !c.dead && c.parent == s.outs[i].id && x in c.held {
      var b := ChildIsStranded(s, i, c);
    }
  }

  lemma InsertStrandsNone(before: seq<Output>, outs: seq<Output>, i: nat, o: Output, x: Input)
    requires i <= |outs| && !o.dead
    ensures NewlyDeadHolds(before, Insert(outs, i, o), x) <==> NewlyDeadHolds(before, outs, x)
  {
    forall b ensures b in Insert(outs, i, o) <==> b == o || b in outs {
      InsertedIn(outs, i, o, b);
    }
  }

  lemma BindStrandsExactly(s: State, e: Event, x: Input)
    requires Shape(s.outs) && e.Bind?
    ensures NewlyDeadHolds(s.outs, Step(s, e).outs, x) <==> Strands(s.outs, e, x)
  {
    GentleStrandsNone(s.outs, s.outs, x);
    if e.id != 0 {
      var i := FindId(s.outs, e.id, 0);
      var t := if i < |s.outs| then Detach(s, i) else s;
      if i < |s.outs| {
        DetachStrandsExactly(s, i, x);
        DetachShrinks(s, i);
      }
      var o := Output(e.id, e.window, false, e.detail == 1, if e.detail == 2 then e.parent else 0, 0, false, {});
      InsertStrandsNone(s.outs, t.outs, i, o, x);
    }
  }

  lemma {:induction false} ReleaseFromGentle(s: State, i: nat)
    requires i <= |s.outs| && Sync(s)
    ensures Gentle(s.outs, ReleaseFrom(s, i).outs)
    decreases |s.outs| - i
  {
    if i < |s.outs| {
      ReleaseAtFrees(s, i);
      ReleaseFromGentle(ReleaseAt(s, i), i + 1);
    }
  }

  lemma UpdateGentle(outs: seq<Output>, i: nat, o: Output)
    requires i < |outs| && o.id == outs[i].id && (o.dead ==> outs[i].dead || o.held == {})
    ensures Gentle(outs, outs[i := o])
  {}

  lemma ResizeGentle(outs: seq<Output>, i: nat, x: int)
    requires i < |outs|
    ensures Gentle(outs, ResizeAt(outs, i, x))
  {}

  lemma ToggleGentle(s: State, i: nat, x: Input, down: bool)
    requires i < |s.outs|
    ensures Gentle(s.outs, ToggleAt(s, i, x, down).outs)
  {
    UpdateGentle(s.outs, i, Toggle(Remove(s.outs, i), Lease(s.outs[i], s.log), x, down).output);
  }

  lemma ActGentle(s: State, i: nat, e: Event)
    requires Sync(s) && i < |s.outs| && (e.Resize? || e.InputTo? || e.Blur?)
    ensures Gentle(s.outs, Act(s, i, e).outs)
  {
    match e
    case Resize(_, _, x, _, _) => ResizeGentle(s.outs, i, x);
    case InputTo(_, _, input, down, _, _) => ToggleGentle(s, i, input, down);
    case Blur(_, _, _, _) =>
      ReleaseAtFrees(s, i);
      UpdateGentle(s.outs, i, s.outs[i].(held := {}));
  }

  lemma CommandGentle(s: State, e: Event)
    requires Sync(s) && (e.Resize? || e.InputTo? || e.Blur?)
    ensures Gentle(s.outs, CommandStep(s, e).outs)
  {
    match Resolve(s.outs, e.id, e.window, e.shellWindow)
    case Ignore =>
    case Dies(i) =>
      ReleaseAtFrees(s, i);
      UpdateGentle(s.outs, i, s.outs[i].(dead := true, held := {}));
      assert KillAt(ReleaseAt(s, i), i).outs == s.outs[i := s.outs[i].(dead := true, held := {})];
    case At(i) => ActGentle(s, i, e);
  }

  // A step leaves an output newly dead and holding x if and only if it is an unbind, or a bind of a
  // listed id, of an output with a live child that holds x.
  lemma DeadDependentsExactly(s: State, e: Event, x: Input)
    requires Sync(s) && Shape(s.outs)
    ensures NewlyDeadHolds(s.outs, Step(s, e).outs, x) <==> Strands(s.outs, e, x)
  {
    match e
    case Bind(_, _, _, _, _, _) => BindStrandsExactly(s, e, x);
    case Unbind(id) =>
      GentleStrandsNone(s.outs, s.outs, x);
      var i := FindId(s.outs, id, 0);
      if i < |s.outs| {
        DetachStrandsExactly(s, i, x);
      }
    case Reset =>
      ResetFromKeepsSync(s);
    case Destroyed(window) =>
      DestroyFromOuts(s, window, 0);
      GentleStrandsNone(s.outs, Step(s, e).outs, x);
    case ReleaseEverything =>
      ReleaseFromGentle(s, 0);
      GentleStrandsNone(s.outs, Step(s, e).outs, x);
    case ReleaseButton(id, window, b) =>
      var i := FindView(s.outs, id, window, 0);
      if i < |s.outs| {
        ToggleGentle(s, i, Button(b), false);
      }
      GentleStrandsNone(s.outs, Step(s, e).outs, x);
    case Resize(_, _, _, _, _) =>
      CommandGentle(s, e);
      GentleStrandsNone(s.outs, Step(s, e).outs, x);
    case InputTo(_, _, _, _, _, _) =>
      CommandGentle(s, e);
      GentleStrandsNone(s.outs, Step(s, e).outs, x);
    case Blur(_, _, _, _) =>
      CommandGentle(s, e);
      GentleStrandsNone(s.outs, Step(s, e).outs, x);
  }

  lemma RunCons(s: State, e: Event, rest: seq<Event>)
    ensures Run(s, [e] + rest) == Run(Step(s, e), rest)
  {
    assert ([e] + rest)[1..] == rest;
  }

  // From the start: a view, a dependent of it that presses a key, and the view is released.  The
  // dependent is dead, still holds the key, and the key stays down.
  lemma DeadDependentKeepsItsLease(k: KeyCode)
    ensures var events := [Bind(1, 10, 0, 0, true, true), Bind(2, 10, 2, 1, true, true),
                           InputTo(2, 10, Key(k), true, true, true), Unbind(1)];
      var s := Run(INIT, events);
      && s.outs == [Output(2, 10, true, false, 1, 0, false, {Key(k)})]
      && Down(s.log, Key(k))
  {
    var view, child := Output(1, 10, false, false, 0, 0, false, {}), Output(2, 10, false, false, 1, 0, false, {});
    var holder := child.(held := {Key(k)});
    var press := InputTo(2, 10, Key(k), true, true, true);
    var bind1, bind2 := Bind(1, 10, 0, 0, true, true), Bind(2, 10, 2, 1, true, true);
    var s1 := Step(INIT, bind1);
    var s2 := Step(s1, bind2);
    var s3 := Step(s2, press);
    var s4 := Step(s3, Unbind(1));
    assert s1.outs == [view];
    DependentBinds(s1, view, child);
    DependentPresses(s2, view, child, k);
    assert FindId(s3.outs, 1, 0) == 0;
    DetachPointwise(s3, 0);
    assert Remove(s3.outs, 0) == [holder] && KillChildren([holder], 1) == [holder.(dead := true)];
    RunCons(INIT, bind1, [bind2, press, Unbind(1)]);
    RunCons(s1, bind2, [press, Unbind(1)]);
    RunCons(s2, press, [Unbind(1)]);
    RunCons(s3, Unbind(1), []);
    SignalsAlternate([bind1, bind2, press, Unbind(1)], Key(k));
    assert Key(k) in s4.outs[0].held;
  }

  lemma DependentBinds(s: State, view: Output, child: Output)
    requires s.outs == [view] && view == Output(1, 10, false, false, 0, 0, false, {})
    requires child == Output(2, 10, false, false, 1, 0, false, {})
    ensures Step(s, Bind(2, 10, 2, 1, true, true)).outs == [view, child]
  {
    assert FindId(s.outs, 2, 0) == FindId(s.outs, 2, 1) == 1 && FindId(s.outs, 1, 0) == 0;
    assert Insert(s.outs, 1, child) == [view, child];
  }

  lemma DependentPresses(s: State, view: Output, child: Output, k: KeyCode)
    requires s.outs == [view, child] && view == Output(1, 10, false, false, 0, 0, false, {})
    requires child == Output(2, 10, false, false, 1, 0, false, {})
    ensures Step(s, InputTo(2, 10, Key(k), true, true, true)).outs == [view, child.(held := {Key(k)})]
  {
    assert FindId(s.outs, 2, 0) == FindId(s.outs, 2, 1) == 1;
    assert Resolve(s.outs, 2, 10, true) == At(1) && s.outs[1] == child;
    assert child.held + {Key(k)} == {Key(k)};
  }

  // ==================== the list itself ====================

  // The static list of selections, and the signals queued to the keyboard and the mouse.
  class Outputs {
    var selections: seq<Output>
    var log: seq<Signal>

    ghost function View(): State reads this { State(selections, log) }

    constructor ()
      ensures View() == INIT
    {
      selections, log := [], [];
    }

    // outputKey and outputButton; others is the list apart from the output.
    method OutputInput(others: seq<Output>, output: Output, x: Input, down: bool) returns (r: Output)
      modifies this`log
      ensures Lease(r, log) == Toggle(others, Lease(output, old(log)), x, down)
    {
      r := output;
      if (x in r.held) == down { return; }
      r := r.(held := if down then r.held + {x} else r.held - {x});
      var i := 0;
      while i < |others|
        invariant i <= |others|
        invariant forall j :: 0 <= j < i ==> x !in others[j].held
      {
        if x in others[i].held { return; }
        i := i + 1;
      }
      log := log + [Signal(x, down)];
    }

    method ReleaseAllInput(others: seq<Output>, output: Output) returns (r: Output)
      modifies this`log
      ensures Lease(r, log) == ReleaseInput(others, Lease(output, old(log)))
    {
      r := output;
      var inputs := AllInputs();
      var i := 0;
      while i < |inputs|
        invariant i <= |inputs|
        invariant ReleaseEach(others, Lease(output, old(log)), inputs) == ReleaseEach(others, Lease(r, log), inputs[i..])
      {
        r := OutputInput(others, r, inputs[i], false);
        i := i + 1;
      }
    }

    // releaseSelection, the output already unlinked.
    method ReleaseSelection(output: Output)
      modifies this
      ensures View() == Detached(old(selections), output, old(log))
    {
      var i := 0;
      while i < |selections|
        invariant i <= |selections| == |old(selections)|
        invariant forall j :: 0 <= j < i ==> selections[j] == Orphaned(old(selections)[j], output.id)
        invariant forall j :: i <= j < |selections| ==> selections[j] == old(selections)[j]
        invariant log == old(log)
      {
        if selections[i].parent == output.id {
          selections := selections[i := selections[i].(dead := true)];
        }
        i := i + 1;
      }
      assert selections == KillChildren(old(selections), output.id);
      var released := ReleaseAllInput(selections, output);
      if output.ownsSize {
        GiveSize(output.window);
      }
    }

    method GiveSize(window: nat)
      modifies this`selections
      ensures selections == PassSize(old(selections), window)
    {
      var j := 0;
      while j < |selections| && !Eligible(selections[j], window)
        invariant j <= |selections|
        invariant FindEligible(selections, window, 0) == FindEligible(selections, window, j)
      {
        j := j + 1;
      }
      if j < |selections| {
        selections := selections[j := selections[j].(ownsSize := true)];
      }
    }

    method Search(id: nat) returns (i: nat)
      ensures i == FindId(selections, id, 0)
    {
      i := 0;
      while i < |selections| && selections[i].id != id
        invariant i <= |selections|
        invariant FindId(selections, id, 0) == FindId(selections, id, i)
      {
        i := i + 1;
      }
    }

    method Unlink(i: nat)
      requires i < |selections|
      modifies this
      ensures View() == Detach(old(View()), i)
    {
      var output := selections[i];
      selections := Remove(selections, i);
      ReleaseSelection(output);
    }

    method UnbindCommand(id: nat)
      modifies this
      ensures View() == Step(old(View()), Unbind(id))
    {
      if id == 0 { return; }
      var i := Search(id);
      if i < |selections| {
        Unlink(i);
      }
    }

    method BindCommand(e: Event)
      requires e.Bind?
      modifies this
      ensures View() == Step(old(View()), e)
    {
      if e.id == 0 { return; }
      var i := Search(e.id);
      if i < |selections| {
        DetachShrinks(View(), i);
        Unlink(i);
      }
      if e.detail > 2 || (e.detail == 1 && !e.shellWindow) { return; }
      if e.detail == 2 {
        var p := Search(e.parent);
        if p == |selections| || selections[p].dead || Borrowed(selections[p]) || Separated(selections, e.parent)
           || e.window == 0 || selections[p].window != e.window {
          return;
        }
      }
      if !e.allocates { return; }
      var output := Output(e.id, e.window, false, e.detail == 1, if e.detail == 2 then e.parent else 0, 0, false, {});
      selections := Insert(selections, i, output);
    }

    method ReleaseInputOf(i: nat)
      requires i < |selections|
      modifies this
      ensures View() == ReleaseAt(old(View()), i)
    {
      var r := ReleaseAllInput(Remove(selections, i), selections[i]);
      selections := selections[i := r];
    }

    method Command(e: Event)
      requires e.Resize? || e.InputTo? || e.Blur?
      modifies this
      ensures View() == Step(old(View()), e)
    {
      if e.id == 0 { return; }
      var i := Search(e.id);
      if i == |selections| || selections[i].dead || selections[i].window != e.window { return; }
      if selections[i].shell && !e.shellWindow {
        ReleaseInputOf(i);
        selections := selections[i := selections[i].(dead := true)];
        return;
      }
      ActOn(i, e);
    }

    method ActOn(i: nat, e: Event)
      requires i < |selections| && (e.Resize? || e.InputTo? || e.Blur?)
      modifies this
      ensures View() == Act(old(View()), i, e)
    {
      match e
      case Resize(_, _, x, y, _) => ResizeView(i, x, y);
      case InputTo(_, _, input, down, _, reachable) =>
        if reachable {
          var r := OutputInput(Remove(selections, i), selections[i], input, down);
          selections := selections[i := r];
        }
      case Blur(_, _, _, reachable) =>
        if reachable {
          ReleaseInputOf(i);
        }
    }

    method ResizeView(i: nat, x: int, y: int)
      requires i < |selections|
      modifies this`selections
      ensures selections ==
        if Borrowed(old(selections)[i]) || x < 1 || y < 1 || x > LORIE_WINDOW_SIZE_LIMIT || y > LORIE_WINDOW_SIZE_LIMIT
        then old(selections) else ResizeAt(old(selections), i, x)
    {
      if Borrowed(selections[i]) || x < 1 || y < 1 || x > LORIE_WINDOW_SIZE_LIMIT || y > LORIE_WINDOW_SIZE_LIMIT {
        return;
      }
      selections := selections[i := selections[i].(width := x)];
      var window := selections[i].window;
      if window == 0 { return; }
      ghost var resized := selections;
      var j := 0;
      while j < |selections|
        invariant j <= |selections| == |resized|
        invariant forall k :: 0 <= k < j ==> selections[k] == OwnSize(resized[k], window, k == i)
        invariant forall k :: j <= k < |resized| ==> selections[k] == resized[k]
      {
        if selections[j].window == window {
          selections := selections[j := selections[j].(ownsSize := j == i)];
        }
        j := j + 1;
      }
      assert selections == ResizeAt(old(selections), i, x);
    }

    method WindowDestroyed(window: nat)
      modifies this
      ensures View() == Step(old(View()), Destroyed(window))
    {
      var i := 0;
      while i < |selections|
        invariant i <= |selections|
        invariant DestroyFrom(old(View()), window, 0) == DestroyFrom(View(), window, i)
      {
        if selections[i].window == window {
          ReleaseInputOf(i);
          selections := selections[i := selections[i].(dead := true)];
        }
        i := i + 1;
      }
    }

    method ResetOutputs()
      modifies this
      ensures View() == Step(old(View()), Reset)
    {
      while selections != []
        invariant ResetFrom(old(View())) == ResetFrom(View())
        decreases |selections|
      {
        DetachShrinks(View(), 0);
        Unlink(0);
      }
    }
  }
}
