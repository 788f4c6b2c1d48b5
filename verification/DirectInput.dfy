/**
 Touch contacts and tablet tools: twenty contact slots and two tools, each leased to one output at a
 time.  The touch screen is present, as it is from InitInput on; the two stylus devices come and go:
 they are made when first needed and removed on request, whatever the slots hold then.  Positions,
 pressure and tilt ride along with the events and are not kept.
 */
module DirectInput {

  const CONTACTS: nat := 20

  // output zero is a free slot
  datatype Contact = Contact(output: nat, contact: nat)
  datatype Tablet = Tablet(output: nat, buttons: set<nat>)

  datatype Phase = Begin | Update | End

  datatype Signal =
    | Touch(slot: nat, phase: Phase)
    | Proximity(eraser: bool, entering: bool)
    | Motion(eraser: bool)
    | Press(eraser: bool, button: nat, down: bool)
    | Removed(eraser: bool)  // the device itself goes, with its proximity and buttons

  // loriePen and lorieEraser are not NULL
  datatype Stylus = Stylus(pen: bool, eraser: bool)

  datatype State = State(contacts: seq<Contact>, pen: Tablet, eraser: Tablet, devices: Stylus, log: seq<Signal>)

  const FREE := Contact(0, 0)
  const AWAY := Tablet(0, {})

  function Init(n: nat): State { State(seq(n, i => FREE), AWAY, AWAY, Stylus(false, false), []) }

  // ---------- touch ----------

  function FindContact(contacts: seq<Contact>, c: Contact, i: nat): (found: nat)
    requires i <= |contacts|
    ensures i <= found <= |contacts|
    ensures found < |contacts| ==> contacts[found] == c
    ensures forall j :: i <= j < found ==> contacts[j] != c
    decreases |contacts| - i
  {
    if i == |contacts| || contacts[i] == c then i else FindContact(contacts, c, i + 1)
  }

  function FindFree(contacts: seq<Contact>, i: nat): (found: nat)
    requires i <= |contacts|
    ensures i <= found <= |contacts|
    ensures found < |contacts| ==> contacts[found].output == 0
    decreases |contacts| - i
  {
    if i == |contacts| || contacts[i].output == 0 then i else FindFree(contacts, i + 1)
  }

  function Say(s: State, x: Signal): State { s.(log := s.log + [x]) }

  function SetContact(s: State, i: nat, c: Contact, phase: Phase): State
    requires i < |s.contacts|
  {
    Say(s.(contacts := s.contacts[i := c]), Touch(i, phase))
  }

  // The contact id is at most 31 and the pressure in range, or the event is dropped.
  function TouchStep(s: State, output: nat, contact: nat, phase: Phase, valid: bool): State {
    if output == 0 || !valid || contact > 31 then s
    else
      var c := Contact(output, contact);
      var held := FindContact(s.contacts, c, 0);
      if phase.Begin? then
        var i := FindFree(s.contacts, 0);
        if held < |s.contacts| || i == |s.contacts| then s else SetContact(s, i, c, Begin)
      else if held == |s.contacts| then s
      else SetContact(s, held, if phase.End? then FREE else c, phase)
  }

  // ---------- tablet ----------

  function ToolOf(s: State, eraser: bool): Tablet { if eraser then s.eraser else s.pen }

  function SetTool(s: State, eraser: bool, t: Tablet): State {
    if eraser then s.(eraser := t) else s.(pen := t)
  }

  // Bring button i, i+1, .. 3 of the tool from now to next, one signal for each that differs.
  function Change(s: State, eraser: bool, now: set<nat>, next: set<nat>, i: nat): State
    decreases 4 - i
  {
    if i > 3 then s
    else
      var s := if (i in now) != (i in next) then Say(s, Press(eraser, i, i in next)) else s;
      Change(s, eraser, now, next, i + 1)
  }

  function Has(d: Stylus, eraser: bool): bool { if eraser then d.eraser else d.pen }

  // lorieSetStylusEnabled(TRUE): the pen first, and no eraser if that fails.
  function Enabled(d: Stylus, penWorks: bool, eraserWorks: bool): Stylus {
    if !d.pen && !penWorks then d else Stylus(true, d.eraser || eraserWorks)
  }

  function Enable(s: State, penWorks: bool, eraserWorks: bool): State {
    s.(devices := Enabled(s.devices, penWorks, eraserWorks))
  }

  // lorieSetStylusEnabled(FALSE): the slots are left as they are.
  function Disable(s: State): State {
    var s := if s.devices.pen then Say(s, Removed(false)) else s;
    var s := if s.devices.eraser then Say(s, Removed(true)) else s;
    s.(devices := Stylus(false, false))
  }

  // tabletRelease: buttons up, then out of proximity, on a device that is there.
  function ToolAway(s: State, eraser: bool): State {
    var t := ToolOf(s, eraser);
    if t.output == 0 || !Has(s.devices, eraser) then SetTool(s, eraser, AWAY)
    else SetTool(Say(Change(s, eraser, t.buttons, {}, 1), Proximity(eraser, false)), eraser, AWAY)
  }

  // The host's tip, first barrel and second barrel bits, rearranged.
  function Remap(bits: bv8): bv8 { (bits & 1) | ((bits & 2) << 1) | ((bits & 4) >> 1) }

  // X button i + 1 for bit i.
  function ButtonsOf(bits: bv8): set<nat> {
    (if bits & 1 != 0 then {1} else {}) + (if bits & 2 != 0 then {2} else {}) + if bits & 4 != 0 then {3} else {}
  }

  // Tip is left, first barrel right, second barrel middle.
  lemma RemapMeaning(bits: bv8)
    ensures var b := ButtonsOf(Remap(bits));
      && (1 in b <==> bits & 1 != 0) && (3 in b <==> bits & 2 != 0) && (2 in b <==> bits & 4 != 0)
      && forall x :: x in b ==> 1 <= x <= 3
  {
    assert Remap(bits) & 1 == bits & 1;
    assert Remap(bits) & 4 == (bits & 2) << 1;
    assert Remap(bits) & 2 == (bits & 4) >> 1;
  }

  function TabletNear(s: State, output: nat, eraser: bool, next: set<nat>): State {
    var s := if ToolOf(s, !eraser).output != 0 then ToolAway(s, !eraser) else s;
    var s := if ToolOf(s, eraser).output != 0 && ToolOf(s, eraser).output != output then ToolAway(s, eraser) else s;
    Arrive(s, output, eraser, next)
  }

  function Arrive(s: State, output: nat, eraser: bool, next: set<nat>): State {
    var t := ToolOf(s, eraser);
    var s := if t.output == 0 then Say(s, Proximity(eraser, true)) else s;
    SetTool(Change(Say(s, Motion(eraser)), eraser, t.buttons, next, 1), eraser, Tablet(output, next))
  }

  // Either device missing has both made, as far as that works.
  function Needed(s: State, made: Stylus): State {
    if s.devices.pen && s.devices.eraser then s else Enable(s, made.pen, made.eraser)
  }

  function TabletStep(s: State, output: nat, eraser: bool, near: bool, next: set<nat>, valid: bool, made: Stylus): State {
    if output == 0 || !valid then s
    else if near then
      var s := Needed(s, made);
      if Has(s.devices, eraser) then TabletNear(s, output, eraser, next) else s
    else if ToolOf(s, eraser).output == output then ToolAway(s, eraser)
    else s
  }

  // ---------- releasing an output ----------

  function ReleaseContacts(s: State, output: nat, i: nat): (r: State)
    requires i <= |s.contacts|
    decreases |s.contacts| - i
  {
    if i == |s.contacts| then s
    else if output != 0 && s.contacts[i].output == output
      then ReleaseContacts(SetContact(s, i, FREE, End), output, i + 1)
    else ReleaseContacts(s, output, i + 1)
  }

  function ReleaseTool(s: State, output: nat, eraser: bool): State {
    if output != 0 && ToolOf(s, eraser).output == output then ToolAway(s, eraser) else s
  }

  function ReleaseStep(s: State, output: nat): State {
    ReleaseTool(ReleaseTool(ReleaseContacts(s, output, 0), output, false), output, true)
  }

  datatype Event =
    | TouchEvent(output: nat, contact: nat, phase: Phase, valid: bool)
    | TabletEvent(output: nat, eraser: bool, near: bool, buttons: bv8, valid: bool, made: Stylus)
    | Release(output: nat)
    | StylusEnable(on: bool, made: Stylus)

  function Step(s: State, e: Event): State {
    match e
    case TouchEvent(output, contact, phase, valid) => TouchStep(s, output, contact, phase, valid)
    case TabletEvent(output, eraser, near, buttons, valid, made) =>
      TabletStep(s, output, eraser, near, ButtonsOf(Remap(buttons)), valid && buttons <= 7, made)
    case Release(output) => ReleaseStep(s, output)
    case StylusEnable(on, made) => if on then Enable(s, made.pen, made.eraser) else Disable(s)
  }

  function Run(s: State, events: seq<Event>): State
    decreases |events|
  {
    if events == [] then s else Run(Step(s, events[0]), events[1..])
  }

  // ---------- what the X devices see ----------

  // A device as its events alone show it: which touches are down, which tools are near, with which
  // buttons.
  datatype Device = Device(touching: set<nat>, near: set<bool>, pressed: set<(bool, nat)>)

  // Begin only when up, Update and End only when down; in and out in turn, out with no button down;
  // a button goes down or up in turn, and only while its tool is near.
  ghost predicate Legal(d: Device, x: Signal) {
    match x
    case Touch(slot, phase) => (slot in d.touching) == !phase.Begin?
    case Proximity(eraser, entering) =>
      && (eraser in d.near) == !entering
      && (!entering ==> forall b :: (eraser, b) !in d.pressed)
      && (entering ==> d.near == {})
    case Motion(eraser) => eraser in d.near
    case Press(eraser, button, down) => eraser in d.near && ((eraser, button) in d.pressed) == !down
    case Removed(_) => true
  }

  function After(d: Device, x: Signal): Device {
    match x
    case Touch(slot, phase) =>
      d.(touching := if phase.End? then d.touching - {slot} else d.touching + {slot})
    case Proximity(eraser, entering) => d.(near := if entering then d.near + {eraser} else d.near - {eraser})
    case Motion(_) => d
    case Press(eraser, button, down) =>
      d.(pressed := if down then d.pressed + {(eraser, button)} else d.pressed - {(eraser, button)})
    case Removed(eraser) =>
      Device(d.touching, d.near - {eraser}, set x | x in d.pressed && x.0 != eraser)
  }

  function Observed(log: seq<Signal>): Device {
    if log == [] then Device({}, {}, {}) else After(Observed(log[..|log| - 1]), log[|log| - 1])
  }

  // The touch screen and the stylus devices are judged apart.
  predicate Concerns(x: Signal, stylus: bool) { stylus == !x.Touch? }

  ghost predicate LegalLog(log: seq<Signal>, stylus: bool) {
    log == []
    || (LegalLog(log[..|log| - 1], stylus)
        && (Concerns(log[|log| - 1], stylus) ==> Legal(Observed(log[..|log| - 1]), log[|log| - 1])))
  }

  lemma SayObserved(log: seq<Signal>, x: Signal, stylus: bool)
    ensures Observed(log + [x]) == After(Observed(log), x)
    ensures LegalLog(log + [x], stylus) <==>
      LegalLog(log, stylus) && (Concerns(x, stylus) ==> Legal(Observed(log), x))
  {
    assert (log + [x])[..|log|] == log;
  }

  // ---------- the slots ----------

  predicate ContactsOk(contacts: seq<Contact>) {
    && (forall i :: 0 <= i < |contacts| && contacts[i].output == 0 ==> contacts[i] == FREE)
    && (forall i, j :: 0 <= i < j < |contacts| && contacts[i].output != 0 ==> contacts[i] != contacts[j])
  }

  predicate ToolOk(t: Tablet) {
    && (t.output == 0 ==> t == AWAY)
    && forall b :: b in t.buttons ==> 1 <= b <= 3
  }

  // At most one tool is held.
  predicate ToolsOk(s: State) {
    && ToolOk(s.pen)
    && ToolOk(s.eraser)
    && (s.pen.output == 0 || s.eraser.output == 0)
  }

  // The touches that are down are the occupied slots.
  ghost predicate TouchesAgree(contacts: seq<Contact>, d: Device) {
    forall i: nat :: i in d.touching <==> i < |contacts| && contacts[i].output != 0
  }

  // What holds whatever becomes of the stylus devices.
  ghost predicate TouchOk(contacts: seq<Contact>, log: seq<Signal>) {
    && ContactsOk(contacts)
    && LegalLog(log, false)
    && TouchesAgree(contacts, Observed(log))
  }

  ghost predicate Inv(s: State) {
    && TouchOk(s.contacts, s.log)
    && ToolsOk(s)
  }

  // ---------- stylus signals do not concern the touch screen ----------

  lemma StylusSignal(contacts: seq<Contact>, log: seq<Signal>, x: Signal)
    requires TouchOk(contacts, log) && !x.Touch?
    ensures TouchOk(contacts, log + [x])
  {
    SayObserved(log, x, false);
  }

  lemma {:induction false} ChangeKeepsTouch(s: State, eraser: bool, now: set<nat>, next: set<nat>, i: nat)
    requires TouchOk(s.contacts, s.log)
    ensures TouchOk(s.contacts, Change(s, eraser, now, next, i).log)
    decreases 4 - i
  {
    if i <= 3 {
      var x := Press(eraser, i, i in next);
      StylusSignal(s.contacts, s.log, x);
      ChangeKeepsTouch(if (i in now) != (i in next) then Say(s, x) else s, eraser, now, next, i + 1);
    }
  }

  // Changing buttons only adds signals.
  lemma {:induction false} ChangeFrames(s: State, eraser: bool, now: set<nat>, next: set<nat>, i: nat)
    ensures var r := Change(s, eraser, now, next, i); r == s.(log := r.log)
    decreases 4 - i
  {
    if i <= 3 {
      var t := if (i in now) != (i in next) then Say(s, Press(eraser, i, i in next)) else s;
      ChangeFrames(t, eraser, now, next, i + 1);
    }
  }

  lemma ToolAwayKeeps(s: State, eraser: bool)
    requires Inv(s)
    ensures var r := ToolAway(s, eraser);
      && Inv(r)
      && r == SetTool(s, eraser, AWAY).(log := r.log)
  {
    var t := ToolOf(s, eraser);
    var up := Change(s, eraser, t.buttons, {}, 1);
    ChangeFrames(s, eraser, t.buttons, {}, 1);
    ChangeKeepsTouch(s, eraser, t.buttons, {}, 1);
    StylusSignal(s.contacts, up.log, Proximity(eraser, false));
  }

  lemma ArriveKeeps(s: State, output: nat, eraser: bool, next: set<nat>)
    requires Inv(s) && output != 0 && ToolOf(s, !eraser).output == 0 && forall b :: b in next ==> 1 <= b <= 3
    ensures var r := Arrive(s, output, eraser, next);
      && Inv(r)
      && r == SetTool(s, eraser, Tablet(output, next)).(log := r.log)
  {
    var t := ToolOf(s, eraser);
    StylusSignal(s.contacts, s.log, Proximity(eraser, true));
    var s1 := if t.output == 0 then Say(s, Proximity(eraser, true)) else s;
    StylusSignal(s.contacts, s1.log, Motion(eraser));
    var s2 := Say(s1, Motion(eraser));
    ChangeFrames(s2, eraser, t.buttons, next, 1);
    ChangeKeepsTouch(s2, eraser, t.buttons, next, 1);
  }

  // The other tool is put away first, and this one if another output holds it.
  function Cleared(s: State, output: nat, eraser: bool): State {
    var s := if ToolOf(s, !eraser).output != 0 then ToolAway(s, !eraser) else s;
    if ToolOf(s, eraser).output != 0 && ToolOf(s, eraser).output != output then ToolAway(s, eraser) else s
  }

  lemma ClearedKeeps(s: State, output: nat, eraser: bool)
    requires Inv(s)
    ensures var r := Cleared(s, output, eraser);
      && Inv(r)
      && r.devices == s.devices && r.contacts == s.contacts
      && ToolOf(r, !eraser) == AWAY
      && (ToolOf(r, eraser) == AWAY || (ToolOf(r, eraser) == ToolOf(s, eraser) && ToolOf(s, eraser).output == output))
  {
    ToolAwayKeeps(s, !eraser);
    ToolAwayKeeps(if ToolOf(s, !eraser).output != 0 then ToolAway(s, !eraser) else s, eraser);
  }

  lemma TabletKeeps(s: State, output: nat, eraser: bool, near: bool, next: set<nat>, valid: bool, made: Stylus)
    requires Inv(s) && forall b :: b in next ==> 1 <= b <= 3
    ensures Inv(TabletStep(s, output, eraser, near, next, valid, made))
  {
    ToolAwayKeeps(s, eraser);
    if output != 0 && valid && near {
      var needed := Needed(s, made);
      assert Inv(needed);
      NearKeeps(needed, output, eraser, next);
    }
  }

  lemma NearKeeps(s: State, output: nat, eraser: bool, next: set<nat>)
    requires Inv(s) && output != 0 && forall b :: b in next ==> 1 <= b <= 3
    ensures Inv(TabletNear(s, output, eraser, next))
  {
    ClearedKeeps(s, output, eraser);
    ArriveKeeps(Cleared(s, output, eraser), output, eraser, next);
  }

  // ---------- touch keeps it ----------

  lemma SetContactKeeps(s: State, i: nat, c: Contact, phase: Phase)
    requires Inv(s) && i < |s.contacts|
    requires (s.contacts[i].output != 0) == !phase.Begin? && (c.output != 0) == !phase.End?
    requires c.output == 0 ==> c == FREE
    requires c.output != 0 ==> forall j :: 0 <= j < |s.contacts| && j != i ==> s.contacts[j] != c
    ensures Inv(SetContact(s, i, c, phase))
  {
    SayObserved(s.log, Touch(i, phase), false);
    assert i in Observed(s.log).touching <==> s.contacts[i].output != 0;
  }

  lemma TouchKeeps(s: State, output: nat, contact: nat, phase: Phase, valid: bool)
    requires Inv(s)
    ensures Inv(TouchStep(s, output, contact, phase, valid))
  {
    if output != 0 && valid && contact <= 31 {
      var c := Contact(output, contact);
      var held, free := FindContact(s.contacts, c, 0), FindFree(s.contacts, 0);
      if phase.Begin? {
        if held == |s.contacts| && free < |s.contacts| {
          SetContactKeeps(s, free, c, Begin);
        }
      } else if held < |s.contacts| {
        SetContactKeeps(s, held, if phase.End? then FREE else c, phase);
      }
    }
  }

  // Releasing contacts leaves the tools, and the slots before i, alone.
  lemma {:induction false} ReleaseContactsFrames(s: State, output: nat, i: nat)
    requires i <= |s.contacts|
    ensures var r := ReleaseContacts(s, output, i);
      && r == s.(contacts := r.contacts, log := r.log)
      && |r.contacts| == |s.contacts|
      && (forall j :: 0 <= j < i ==> r.contacts[j] == s.contacts[j])
    decreases |s.contacts| - i
  {
    if i < |s.contacts| {
      var released := output != 0 && s.contacts[i].output == output;
      ReleaseContactsFrames(if released then SetContact(s, i, FREE, End) else s, output, i + 1);
    }
  }

  lemma {:induction false} ReleaseContactsKeeps(s: State, output: nat, i: nat)
    requires Inv(s) && i <= |s.contacts|
    ensures Inv(ReleaseContacts(s, output, i))
    decreases |s.contacts| - i
  {
    if i < |s.contacts| {
      if output != 0 && s.contacts[i].output == output {
        SetContactKeeps(s, i, FREE, End);
        ReleaseContactsKeeps(SetContact(s, i, FREE, End), output, i + 1);
      } else {
        ReleaseContactsKeeps(s, output, i + 1);
      }
    }
  }

  lemma {:induction false} ReleaseContactsFrees(s: State, output: nat, i: nat)
    requires output != 0 && i <= |s.contacts|
    ensures var r := ReleaseContacts(s, output, i);
      |r.contacts| == |s.contacts| && forall j :: i <= j < |r.contacts| ==> r.contacts[j].output != output
    decreases |s.contacts| - i
  {
    if i < |s.contacts| {
      var next := if s.contacts[i].output == output then SetContact(s, i, FREE, End) else s;
      ReleaseContactsFrees(next, output, i + 1);
      ReleaseContactsFrames(next, output, i + 1);
    }
  }

  lemma ReleaseKeeps(s: State, output: nat)
    requires Inv(s)
    ensures var r := ReleaseStep(s, output);
      && Inv(r)
      && (output != 0 ==> r.pen.output != output && r.eraser.output != output)
      && (output != 0 ==> forall j :: 0 <= j < |r.contacts| ==> r.contacts[j].output != output)
  {
    ReleaseContactsKeeps(s, output, 0);
    ReleaseContactsFrames(s, output, 0);
    var a := ReleaseContacts(s, output, 0);
    if output != 0 {
      ReleaseContactsFrees(s, output, 0);
    }
    ToolAwayKeeps(a, false);
    ToolAwayKeeps(ReleaseTool(a, output, false), true);
  }

  // ---------- every run ----------

  lemma DisableKeeps(s: State)
    requires Inv(s)
    ensures Inv(Disable(s))
  {
    StylusSignal(s.contacts, s.log, Removed(false));
    var s1 := if s.devices.pen then Say(s, Removed(false)) else s;
    StylusSignal(s.contacts, s1.log, Removed(true));
  }

  lemma StepKeepsInv(s: State, e: Event)
    requires Inv(s)
    ensures Inv(Step(s, e))
  {
    match e
    case TouchEvent(output, contact, phase, valid) => TouchKeeps(s, output, contact, phase, valid);
    case TabletEvent(output, eraser, near, buttons, valid, made) =>
      RemapMeaning(buttons);
      TabletKeeps(s, output, eraser, near, ButtonsOf(Remap(buttons)), valid && buttons <= 7, made);
    case Release(output) => ReleaseKeeps(s, output);
    case StylusEnable(_, _) => DisableKeeps(s);
  }

  lemma {:induction false} RunKeepsInv(s: State, events: seq<Event>)
    requires Inv(s)
    ensures Inv(Run(s, events))
    decreases |events|
  {
    if events != [] {
      StepKeepsInv(s, events[0]);
      RunKeepsInv(Step(s, events[0]), events[1..]);
    }
  }

  // Over any run the slots say what the touch screen sees: occupied slots are distinct contacts of
  // outputs; and one of pen and eraser is away.
  lemma SlotsAreDistinct(n: nat, events: seq<Event>)
    ensures var s := Run(Init(n), events);
      && (forall i, j :: 0 <= i < j < |s.contacts| && s.contacts[i].output != 0 ==> s.contacts[i] != s.contacts[j])
      && (forall i: nat :: i in Observed(s.log).touching <==> i < |s.contacts| && s.contacts[i].output != 0)
      && (s.pen.output == 0 || s.eraser.output == 0)
  {
    RunKeepsInv(Init(n), events);
  }

  // Releasing an output leaves it owning nothing, in every reachable state.
  lemma ReleaseLeavesNothing(n: nat, events: seq<Event>, output: nat)
    requires output != 0
    ensures var s := Step(Run(Init(n), events), Release(output));
      && s.pen.output != output && s.eraser.output != output
      && (forall i :: 0 <= i < |s.contacts| ==> s.contacts[i].output != output)
  {
    RunKeepsInv(Init(n), events);
    ReleaseKeeps(Run(Init(n), events), output);
  }

  // The trace of one touch slot: (Begin Update* End)*, with the last one perhaps still open.
  function SlotTrace(log: seq<Signal>, slot: nat): seq<Phase> {
    if log == [] then []
    else
      var before, x := SlotTrace(log[..|log| - 1], slot), log[|log| - 1];
      if x.Touch? && x.slot == slot then before + [x.phase] else before
  }

  predicate InTurn(trace: seq<Phase>) {
    trace == []
    || (InTurn(trace[..|trace| - 1]) && (trace[|trace| - 1].Begin? <==> |trace| == 1 || trace[|trace| - 2].End?))
  }

  lemma {:induction false} LegalSlotTrace(log: seq<Signal>, slot: nat)
    requires LegalLog(log, false)
    ensures InTurn(SlotTrace(log, slot))
    ensures slot in Observed(log).touching <==> SlotTrace(log, slot) != [] && !SlotTrace(log, slot)[|SlotTrace(log, slot)| - 1].End?
  {
    if log != [] {
      var init, x := log[..|log| - 1], log[|log| - 1];
      LegalSlotTrace(init, slot);
      if x.Touch? && x.slot == slot {
        var before := SlotTrace(init, slot);
        var trace := before + [x.phase];
        assert trace[..|trace| - 1] == before;
      }
    }
  }

  // Over any run, whatever becomes of the stylus, every touch slot's trace is in turn.
  lemma EveryTouchTraceIsInTurn(n: nat, events: seq<Event>, slot: nat)
    ensures InTurn(SlotTrace(Run(Init(n), events).log, slot))
  {
    RunKeepsInv(Init(n), events);
    LegalSlotTrace(Run(Init(n), events).log, slot);
  }

  // ---------- the stylus: when its history is legal ----------

  // A tool that a slot holds and its device, new since then, does not know to be near.
  ghost predicate Lost(s: State, eraser: bool) {
    ToolOf(s, eraser).output != 0 && eraser !in Observed(s.log).near
  }

  ghost predicate NoneLost(s: State) { !Lost(s, false) && !Lost(s, true) }

  // What the stylus devices see is what the slots say, lost tools apart.
  ghost predicate ToolAgrees(t: Tablet, has: bool, eraser: bool, d: Device) {
    && (eraser in d.near ==> t.output != 0 && has)
    && (forall b :: (eraser, b) in d.pressed <==> eraser in d.near && b in t.buttons)
  }

  ghost predicate StylusOk(s: State) {
    && LegalLog(s.log, true)
    && ToolAgrees(s.pen, s.devices.pen, false, Observed(s.log))
    && ToolAgrees(s.eraser, s.devices.eraser, true, Observed(s.log))
  }

  // The one family of steps that send a stylus device a signal it cannot make sense of: they reach a
  // lost tool's slot while a device for it is there.
  ghost predicate Reaches(s: State, output: nat, eraser: bool) {
    Lost(s, eraser) && ToolOf(s, eraser).output == output && Has(s.devices, eraser)
  }

  ghost predicate Breaks(s: State, e: Event) {
    match e
    case TouchEvent(_, _, _, _) => false
    case StylusEnable(_, _) => false
    case Release(output) =>
      output != 0 && (Reaches(s, output, false) || Reaches(s, output, true))
    case TabletEvent(output, eraser, near, buttons, valid, made) =>
      output != 0 && valid && buttons <= 7 &&
      if near then
        var devices := Needed(s, made).devices;
        Has(devices, eraser) && (Lost(s, eraser) || (Lost(s, !eraser) && Has(devices, !eraser)))
      else Reaches(s, output, eraser)
  }

  // A history that is legal was legal at every earlier point.
  lemma {:induction false} LegalPrefix(a: seq<Signal>, b: seq<Signal>, stylus: bool)
    requires a <= b && LegalLog(b, stylus)
    ensures LegalLog(a, stylus)
    decreases |b|
  {
    if a != b {
      LegalPrefix(a, b[..|b| - 1], stylus);
    }
  }

  // The tool's buttons below i are already as in next.
  ghost predicate Midway(d: Device, eraser: bool, now: set<nat>, next: set<nat>, i: nat) {
    forall b :: (eraser, b) in d.pressed <==> if b < i then b in next else b in now
  }

  ghost predicate SamePressed(d: Device, r: Device, eraser: bool) {
    forall b :: (eraser, b) in d.pressed <==> (eraser, b) in r.pressed
  }

  // Changing a tool's buttons touches nothing else.
  lemma {:induction false} ChangeObserved(s: State, eraser: bool, now: set<nat>, next: set<nat>, i: nat)
    ensures var r := Change(s, eraser, now, next, i);
      && s.log <= r.log
      && Observed(r.log).near == Observed(s.log).near
      && SamePressed(Observed(s.log), Observed(r.log), !eraser)
    decreases 4 - i
  {
    if i <= 3 {
      var x := Press(eraser, i, i in next);
      SayObserved(s.log, x, true);
      ChangeObserved(if (i in now) != (i in next) then Say(s, x) else s, eraser, now, next, i + 1);
    }
  }

  lemma {:induction false} ChangeLegal(s: State, eraser: bool, now: set<nat>, next: set<nat>, i: nat)
    requires LegalLog(s.log, true) && eraser in Observed(s.log).near && i <= 4
    requires Midway(Observed(s.log), eraser, now, next, i)
    ensures var r := Change(s, eraser, now, next, i);
      && LegalLog(r.log, true)
      && Midway(Observed(r.log), eraser, now, next, 4)
    decreases 4 - i
  {
    if i <= 3 {
      var x := Press(eraser, i, i in next);
      SayObserved(s.log, x, true);
      ChangeLegal(if (i in now) != (i in next) then Say(s, x) else s, eraser, now, next, i + 1);
    }
  }

  // A tool as its device and its slot have it, and the other one.
  ghost predicate AgreesOn(s: State, eraser: bool) {
    ToolAgrees(ToolOf(s, eraser), Has(s.devices, eraser), eraser, Observed(s.log))
  }

  lemma StylusParts(s: State, eraser: bool)
    ensures StylusOk(s) <==> LegalLog(s.log, true) && AgreesOn(s, eraser) && AgreesOn(s, !eraser)
  {}

  // What the other tool's part depends on.
  lemma OtherAgrees(s: State, r: State, eraser: bool)
    requires AgreesOn(s, eraser) && ToolOf(r, eraser) == ToolOf(s, eraser) && r.devices == s.devices
    requires eraser in Observed(r.log).near <==> eraser in Observed(s.log).near
    requires SamePressed(Observed(s.log), Observed(r.log), eraser)
    ensures AgreesOn(r, eraser)
  {}

  // The signals that put a tool away: its buttons up, then out.
  lemma AwaySignals(s: State, eraser: bool)
    requires ToolOf(s, eraser).output != 0 && Has(s.devices, eraser)
    ensures var up := Change(s, eraser, ToolOf(s, eraser).buttons, {}, 1);
      var r := ToolAway(s, eraser);
      && r.log == up.log + [Proximity(eraser, false)] && s.log <= r.log
      && Observed(r.log).near == Observed(s.log).near - {eraser}
      && SamePressed(Observed(s.log), Observed(r.log), !eraser)
      && Observed(r.log).pressed == Observed(up.log).pressed
      && (LegalLog(r.log, true) <==> LegalLog(up.log, true) && Legal(Observed(up.log), Proximity(eraser, false)))
      && Observed(up.log).near == Observed(s.log).near
  {
    var up := Change(s, eraser, ToolOf(s, eraser).buttons, {}, 1);
    ChangeObserved(s, eraser, ToolOf(s, eraser).buttons, {}, 1);
    ChangeFrames(s, eraser, ToolOf(s, eraser).buttons, {}, 1);
    SayObserved(up.log, Proximity(eraser, false), true);
  }

  // A near tool is put away legally.
  lemma NearAway(s: State, eraser: bool)
    requires ToolsOk(s) && StylusOk(s) && eraser in Observed(s.log).near
    ensures StylusOk(ToolAway(s, eraser))
  {
    StylusParts(s, eraser);
    var t := ToolOf(s, eraser);
    AwaySignals(s, eraser);
    ChangeLegal(s, eraser, t.buttons, {}, 1);
    var r := ToolAway(s, eraser);
    ChangeFrames(s, eraser, t.buttons, {}, 1);
    OtherAgrees(s, r, !eraser);
    StylusParts(r, eraser);
  }

  // Putting a tool away is legal unless it is lost and has a device.
  lemma AwayExact(s: State, eraser: bool)
    requires ToolsOk(s) && StylusOk(s)
    ensures var r := ToolAway(s, eraser); var bad := Lost(s, eraser) && Has(s.devices, eraser);
      && (LegalLog(r.log, true) <==> !bad)
      && (!bad ==> StylusOk(r))
      && (!eraser in Observed(r.log).near <==> !eraser in Observed(s.log).near)
      && (NoneLost(s) ==> NoneLost(r))
      && r.devices == s.devices && r.contacts == s.contacts && s.log <= r.log
  {
    StylusParts(s, eraser);
    var t, r := ToolOf(s, eraser), ToolAway(s, eraser);
    if t.output != 0 && Has(s.devices, eraser) {
      AwaySignals(s, eraser);
      ChangeFrames(s, eraser, t.buttons, {}, 1);
      if eraser in Observed(s.log).near {
        NearAway(s, eraser);
      }
    } else {
      OtherAgrees(s, r, !eraser);
      StylusParts(r, eraser);
    }
  }

  // Coming into or staying in proximity is legal unless the tool is lost.
  lemma ArriveExact(s: State, output: nat, eraser: bool, next: set<nat>)
    requires ToolsOk(s) && StylusOk(s) && output != 0 && ToolOf(s, !eraser).output == 0 && Has(s.devices, eraser)
    requires forall b :: b in next ==> 1 <= b <= 3
    ensures var r := Arrive(s, output, eraser, next);
      && (LegalLog(r.log, true) <==> !Lost(s, eraser))
      && (!Lost(s, eraser) ==> StylusOk(r) && NoneLost(r))
  {
    var t := ToolOf(s, eraser);
    var s1 := if t.output == 0 then Say(s, Proximity(eraser, true)) else s;
    var s2 := Say(s1, Motion(eraser));
    SayObserved(s.log, Proximity(eraser, true), true);
    SayObserved(s1.log, Motion(eraser), true);
    ChangeObserved(s2, eraser, t.buttons, next, 1);
    ChangeFrames(s2, eraser, t.buttons, next, 1);
    StylusParts(s, eraser);
    var r := Arrive(s, output, eraser, next);
    if Lost(s, eraser) {
      if LegalLog(r.log, true) {
        LegalPrefix(s2.log, r.log, true);
      }
    } else {
      if t.output == 0 {
        NothingNear(s);
      }
      ChangeLegal(s2, eraser, t.buttons, next, 1);
      OtherAgrees(s, r, !eraser);
      StylusParts(r, eraser);
    }
  }

  lemma NothingNear(s: State)
    requires StylusOk(s) && s.pen.output == 0 && s.eraser.output == 0
    ensures Observed(s.log).near == {}
  {
    var near := Observed(s.log).near;
    assert false !in near && true !in near;
    forall e: bool ensures e !in near {
      if e {
        assert e == true;
      } else {
        assert e == false;
      }
    }
  }

  lemma EnableKeepsStylus(s: State, made: Stylus)
    requires StylusOk(s)
    ensures StylusOk(Enable(s, made.pen, made.eraser)) && StylusOk(Needed(s, made))
  {}

  lemma DisableKeepsStylus(s: State)
    requires StylusOk(s)
    ensures StylusOk(Disable(s))
  {
    SayObserved(s.log, Removed(false), true);
    var s1 := if s.devices.pen then Say(s, Removed(false)) else s;
    SayObserved(s1.log, Removed(true), true);
  }

  // Clearing the way is legal unless a lost tool with a device is in it.
  lemma ClearedExact(s: State, output: nat, eraser: bool)
    requires Inv(s) && StylusOk(s) && Has(s.devices, eraser)
    ensures var r := Cleared(s, output, eraser);
      var other := Lost(s, !eraser) && Has(s.devices, !eraser);
      var own := Lost(s, eraser) && ToolOf(s, eraser).output != output;
      && (LegalLog(r.log, true) <==> !other && !own)
      && (!other && !own ==> StylusOk(r) && (Lost(r, eraser) <==> Lost(s, eraser)))
  {
    AwayExact(s, !eraser);
    ToolAwayKeeps(s, !eraser);
    var s1 := if ToolOf(s, !eraser).output != 0 then ToolAway(s, !eraser) else s;
    if ToolOf(s, !eraser).output == 0 {
      AwayExact(s, eraser);
    }
  }

  // From clearing the way to the new buttons.
  lemma NearExact(s: State, output: nat, eraser: bool, next: set<nat>)
    requires Inv(s) && StylusOk(s) && Has(s.devices, eraser) && output != 0 && forall b :: b in next ==> 1 <= b <= 3
    ensures var r := TabletNear(s, output, eraser, next);
      var bad := Lost(s, eraser) || (Lost(s, !eraser) && Has(s.devices, !eraser));
      && (LegalLog(r.log, true) <==> !bad)
      && (!bad ==> StylusOk(r) && NoneLost(r))
  {
    ClearedKeeps(s, output, eraser);
    ClearedExact(s, output, eraser);
    var c := Cleared(s, output, eraser);
    var r := TabletNear(s, output, eraser, next);
    assert r == Arrive(c, output, eraser, next);
    if LegalLog(c.log, true) {
      ArriveExact(c, output, eraser, next);
    } else if LegalLog(r.log, true) {
      ArriveExtends(c, output, eraser, next);
      LegalPrefix(c.log, r.log, true);
    }
  }

  lemma ArriveExtends(s: State, output: nat, eraser: bool, next: set<nat>)
    ensures s.log <= Arrive(s, output, eraser, next).log
  {
    var t := ToolOf(s, eraser);
    var s1 := if t.output == 0 then Say(s, Proximity(eraser, true)) else s;
    ChangeObserved(Say(s1, Motion(eraser)), eraser, t.buttons, next, 1);
  }

  // Touches do not concern the stylus.
  lemma TouchSignal(s: State, i: nat, c: Contact, phase: Phase)
    requires i < |s.contacts| && StylusOk(s)
    ensures StylusOk(SetContact(s, i, c, phase))
    ensures Observed(SetContact(s, i, c, phase).log).near == Observed(s.log).near
  {
    SayObserved(s.log, Touch(i, phase), true);
  }

  lemma {:induction false} ReleaseContactsStylus(s: State, output: nat, i: nat)
    requires i <= |s.contacts| && StylusOk(s)
    ensures var r := ReleaseContacts(s, output, i);
      StylusOk(r) && Observed(r.log).near == Observed(s.log).near
    decreases |s.contacts| - i
  {
    if i < |s.contacts| {
      TouchSignal(s, i, FREE, End);
      var released := output != 0 && s.contacts[i].output == output;
      ReleaseContactsStylus(if released then SetContact(s, i, FREE, End) else s, output, i + 1);
    }
  }

  // With the contacts gone the tools go, of which only one can be held.
  lemma ReleaseToolsExact(s: State, output: nat)
    requires Inv(s) && StylusOk(s) && output != 0
    ensures var r := ReleaseTool(ReleaseTool(s, output, false), output, true);
      var bad := Reaches(s, output, false) || Reaches(s, output, true);
      && (LegalLog(r.log, true) <==> !bad)
      && (!bad ==> StylusOk(r))
      && (NoneLost(s) ==> NoneLost(r))
  {
    AwayExact(s, false);
    AwayExact(s, true);
    ToolAwayKeeps(s, false);
    var b := ReleaseTool(s, output, false);
    if s.pen.output == output {
      assert b.eraser.output == 0 && b == ToolAway(s, false);
    } else {
      assert b == s;
    }
  }

  lemma ReleaseExact(s: State, output: nat)
    requires Inv(s) && StylusOk(s)
    ensures LegalLog(ReleaseStep(s, output).log, true) <==> !Breaks(s, Release(output))
    ensures !Breaks(s, Release(output)) ==> StylusOk(ReleaseStep(s, output))
    ensures NoneLost(s) ==> NoneLost(ReleaseStep(s, output))
  {
    ReleaseContactsKeeps(s, output, 0);
    ReleaseContactsFrames(s, output, 0);
    ReleaseContactsStylus(s, output, 0);
    var a := ReleaseContacts(s, output, 0);
    SameLost(s, a, output);
    if output != 0 {
      ReleaseToolsExact(a, output);
    }
  }

  // What is lost depends on the tools, the devices and what is near.
  lemma SameLost(s: State, a: State, output: nat)
    requires a.pen == s.pen && a.eraser == s.eraser && a.devices == s.devices
    requires Observed(a.log).near == Observed(s.log).near
    ensures Reaches(a, output, false) == Reaches(s, output, false)
    ensures Reaches(a, output, true) == Reaches(s, output, true)
    ensures NoneLost(a) == NoneLost(s)
  {}

  // A step keeps the stylus history legal if and only if it is not one of those.
  lemma StylusExact(s: State, e: Event)
    requires Inv(s) && StylusOk(s)
    ensures LegalLog(Step(s, e).log, true) <==> !Breaks(s, e)
    ensures !Breaks(s, e) ==> StylusOk(Step(s, e))
  {
    match e
    case TouchEvent(output, contact, phase, valid) =>
      var c := Contact(output, contact);
      var held, free := FindContact(s.contacts, c, 0), FindFree(s.contacts, 0);
      if free < |s.contacts| {
        TouchSignal(s, free, c, Begin);
      }
      if held < |s.contacts| {
        TouchSignal(s, held, if phase.End? then FREE else c, phase);
      }
    case TabletEvent(output, eraser, near, buttons, valid, made) => TabletExact(s, e);
    case Release(output) => ReleaseExact(s, output);
    case StylusEnable(on, made) =>
      EnableKeepsStylus(s, made);
      DisableKeepsStylus(s);
  }

  lemma TabletExact(s: State, e: Event)
    requires Inv(s) && StylusOk(s) && e.TabletEvent?
    ensures LegalLog(Step(s, e).log, true) <==> !Breaks(s, e)
    ensures !Breaks(s, e) ==> StylusOk(Step(s, e))
  {
    if e.output != 0 && e.valid && e.buttons <= 7 {
      if e.near {
        TabletNearExact(s, e);
      } else {
        AwayExact(s, e.eraser);
      }
    }
  }

  lemma TabletNearExact(s: State, e: Event)
    requires Inv(s) && StylusOk(s) && e.TabletEvent? && e.output != 0 && e.valid && e.buttons <= 7 && e.near
    ensures LegalLog(Step(s, e).log, true) <==> !Breaks(s, e)
    ensures !Breaks(s, e) ==> StylusOk(Step(s, e))
  {
    RemapMeaning(e.buttons);
    EnableKeepsStylus(s, e.made);
    var needed := Needed(s, e.made);
    assert ToolOf(needed, e.eraser) == ToolOf(s, e.eraser) && ToolOf(needed, !e.eraser) == ToolOf(s, !e.eraser);
    assert Lost(needed, e.eraser) == Lost(s, e.eraser) && Lost(needed, !e.eraser) == Lost(s, !e.eraser);
    if Has(needed.devices, e.eraser) {
      NearExact(needed, e.output, e.eraser, ButtonsOf(Remap(e.buttons)));
    }
  }

  // No step of the run is one of those.
  ghost predicate NeverBreaks(s: State, events: seq<Event>)
    decreases |events|
  {
    events == [] || (!Breaks(s, events[0]) && NeverBreaks(Step(s, events[0]), events[1..]))
  }

  lemma {:induction false} RunExtends(s: State, events: seq<Event>)
    ensures s.log <= Run(s, events).log
    decreases |events|
  {
    if events != [] {
      StepExtends(s, events[0]);
      RunExtends(Step(s, events[0]), events[1..]);
    }
  }

  lemma {:induction false} RunIsLegalExactly(s: State, events: seq<Event>)
    requires Inv(s) && StylusOk(s)
    ensures LegalLog(Run(s, events).log, true) <==> NeverBreaks(s, events)
    decreases |events|
  {
    if events != [] {
      var t := Step(s, events[0]);
      StepKeepsInv(s, events[0]);
      StylusExact(s, events[0]);
      if Breaks(s, events[0]) {
        RunExtends(t, events[1..]);
        if LegalLog(Run(s, events).log, true) {
          LegalPrefix(t.log, Run(s, events).log, true);
        }
      } else {
        RunIsLegalExactly(t, events[1..]);
      }
    }
  }

  lemma StepExtends(s: State, e: Event)
    ensures s.log <= Step(s, e).log
  {
    match e
    case TouchEvent(_, _, _, _) =>
    case StylusEnable(_, _) =>
    case Release(output) => ReleaseExtends(s, output);
    case TabletEvent(output, eraser, near, buttons, _, made) =>
      AwayExtends(s, eraser);
      NearExtends(Needed(s, made), output, eraser, ButtonsOf(Remap(buttons)));
  }

  lemma ReleaseExtends(s: State, output: nat)
    ensures s.log <= ReleaseStep(s, output).log
  {
    ReleaseContactsExtends(s, output, 0);
    var a := ReleaseContacts(s, output, 0);
    AwayExtends(a, false);
    AwayExtends(ReleaseTool(a, output, false), true);
  }

  lemma NearExtends(s: State, output: nat, eraser: bool, next: set<nat>)
    ensures s.log <= TabletNear(s, output, eraser, next).log
  {
    AwayExtends(s, !eraser);
    AwayExtends(if ToolOf(s, !eraser).output != 0 then ToolAway(s, !eraser) else s, eraser);
    ArriveExtends(Cleared(s, output, eraser), output, eraser, next);
  }

  lemma AwayExtends(s: State, eraser: bool)
    ensures s.log <= ToolAway(s, eraser).log
  {
    ChangeObserved(s, eraser, ToolOf(s, eraser).buttons, {}, 1);
  }

  lemma {:induction false} ReleaseContactsExtends(s: State, output: nat, i: nat)
    requires i <= |s.contacts|
    ensures s.log <= ReleaseContacts(s, output, i).log
    decreases |s.contacts| - i
  {
    if i < |s.contacts| {
      var released := output != 0 && s.contacts[i].output == output;
      ReleaseContactsExtends(if released then SetContact(s, i, FREE, End) else s, output, i + 1);
    }
  }

  // Over any run the stylus devices see a legal history -- at most one tool near, in and out in turn,
  // buttons alternating while it is near and all up when it leaves -- if and only if no step reaches
  // a slot whose device was removed while it was held and is there again.
  lemma EveryRunIsLegal(n: nat, events: seq<Event>)
    ensures LegalLog(Run(Init(n), events).log, false)
    ensures LegalLog(Run(Init(n), events).log, true) <==> NeverBreaks(Init(n), events)
  {
    RunKeepsInv(Init(n), events);
    RunIsLegalExactly(Init(n), events);
  }

  // The devices are removed only while neither tool is held.
  predicate Careful(s: State, events: seq<Event>)
    decreases |events|
  {
    events == []
    || ((events[0].StylusEnable? && !events[0].on ==> s.pen.output == 0 && s.eraser.output == 0)
        && Careful(Step(s, events[0]), events[1..]))
  }

  lemma CarefulStep(s: State, e: Event)
    requires Inv(s) && StylusOk(s) && NoneLost(s)
    requires e.StylusEnable? && !e.on ==> s.pen.output == 0 && s.eraser.output == 0
    ensures !Breaks(s, e) && NoneLost(Step(s, e))
  {
    assert !Lost(s, false) && !Lost(s, true);
    match e
    case TouchEvent(output, contact, phase, valid) =>
      var c := Contact(output, contact);
      var held, free := FindContact(s.contacts, c, 0), FindFree(s.contacts, 0);
      if free < |s.contacts| {
        TouchSignal(s, free, c, Begin);
      }
      if held < |s.contacts| {
        TouchSignal(s, held, if phase.End? then FREE else c, phase);
      }
    case TabletEvent(_, eraser, _, _, _, _) =>
      assert !Lost(s, eraser) && !Lost(s, !eraser);
      CarefulTablet(s, e);
    case Release(output) => ReleaseExact(s, output);
    case StylusEnable(_, _) =>
  }

  lemma CarefulTablet(s: State, e: Event)
    requires Inv(s) && StylusOk(s) && NoneLost(s) && e.TabletEvent?
    requires !Lost(s, e.eraser) && !Lost(s, !e.eraser)
    ensures NoneLost(Step(s, e))
  {
    RemapMeaning(e.buttons);
    AwayExact(s, e.eraser);
    EnableKeepsStylus(s, e.made);
    var needed := Needed(s, e.made);
    if e.output != 0 && Has(needed.devices, e.eraser) {
      NearExact(needed, e.output, e.eraser, ButtonsOf(Remap(e.buttons)));
    }
  }

  lemma {:induction false} CarefulNeverBreaks(s: State, events: seq<Event>)
    requires Inv(s) && StylusOk(s) && NoneLost(s) && Careful(s, events)
    ensures NeverBreaks(s, events)
    decreases |events|
  {
    if events != [] {
      StepKeepsInv(s, events[0]);
      CarefulStep(s, events[0]);
      StylusExact(s, events[0]);
      CarefulNeverBreaks(Step(s, events[0]), events[1..]);
    }
  }

  // So it is legal whenever devices are removed only while no tool is held.
  lemma CarefulRunIsLegal(n: nat, events: seq<Event>)
    requires Careful(Init(n), events)
    ensures LegalLog(Run(Init(n), events).log, true)
  {
    CarefulNeverBreaks(Init(n), events);
    EveryRunIsLegal(n, events);
  }

  // And not otherwise: the pen comes near, the devices are removed, the pen moves on.  The new
  // device gets a motion without ever having been entered.
  lemma RemovalUnderThePenBreaks(n: nat)
    ensures var both := Stylus(true, true);
      var near := TabletEvent(1, false, true, 0, true, both);
      var s := Run(Init(n), [near, StylusEnable(false, both), near]);
      && !LegalLog(s.log, true)
      && s.log == [Proximity(false, true), Motion(false), Removed(false), Removed(true), Motion(false)]
  {
    var both := Stylus(true, true);
    var near := TabletEvent(1, false, true, 0, true, both);
    var off := StylusEnable(false, both);
    var events := [near, off, near];
    var s1 := Step(Init(n), near);
    var s2 := Step(s1, off);
    var s3 := Step(s2, near);
    assert ButtonsOf(Remap(0)) == {};
    assert s1.log == [] + [Proximity(false, true)] + [Motion(false)] && s1.pen == Tablet(1, {});
    assert s2.log == s1.log + [Removed(false)] + [Removed(true)] && s2.pen == s1.pen;
    assert s3.log == s2.log + [Motion(false)];
    assert events[1..] == [off, near] && events[1..][1..] == [near] && events[1..][1..][1..] == [];
    assert Run(Init(n), events) == Run(s1, events[1..]) == Run(s2, events[1..][1..]) == Run(s3, []);
    SayObserved(s1.log, Removed(false), true);
    SayObserved(s1.log + [Removed(false)], Removed(true), true);
    SayObserved(s2.log, Motion(false), true);
  }

  // ---------- the slots themselves ----------

  class Devices {
    const contacts: array<Contact>
    const tablets: array<Tablet>
    var devices: Stylus
    var log: seq<Signal>

    ghost predicate Valid() { tablets.Length == 2 }

    ghost function View(): State
      reads this, contacts, tablets
      requires Valid()
    {
      State(contacts[..], tablets[0], tablets[1], devices, log)
    }

    constructor ()
      ensures Valid() && fresh(contacts) && fresh(tablets) && View() == Init(CONTACTS)
    {
      contacts := new Contact[CONTACTS](i => FREE);
      tablets := new Tablet[2](i => AWAY);
      devices, log := Stylus(false, false), [];
      new;
      assert contacts[..] == Init(CONTACTS).contacts;
    }

    function Tool(eraser: bool): nat { if eraser then 1 else 0 }

    method OnTouch(output: nat, contact: nat, phase: Phase, valid: bool)
      requires Valid()
      modifies this`log, contacts
      ensures View() == Step(old(View()), TouchEvent(output, contact, phase, valid))
    {
      if output == 0 || !valid || contact > 31 { return; }
      var c := Contact(output, contact);
      var slot := 0;
      while slot < contacts.Length && contacts[slot] != c
        invariant slot <= contacts.Length
        invariant FindContact(contacts[..], c, 0) == FindContact(contacts[..], c, slot)
      {
        slot := slot + 1;
      }
      if phase.Begin? {
        if slot != contacts.Length { return; }
        slot := 0;
        while slot < contacts.Length && contacts[slot].output != 0
          invariant slot <= contacts.Length
          invariant FindFree(contacts[..], 0) == FindFree(contacts[..], slot)
        {
          slot := slot + 1;
        }
      }
      if slot == contacts.Length { return; }
      contacts[slot] := c;
      log := log + [Touch(slot, phase)];
      if phase.End? {
        contacts[slot] := FREE;
      }
    }

    method ChangeButtons(eraser: bool, now: set<nat>, next: set<nat>)
      requires Valid()
      modifies this`log
      ensures View() == Change(old(View()), eraser, now, next, 1)
    {
      var i := 1;
      while i <= 3
        invariant 1 <= i <= 4
        invariant Change(old(View()), eraser, now, next, 1) == Change(View(), eraser, now, next, i)
      {
        if (i in now) != (i in next) {
          log := log + [Press(eraser, i, i in next)];
        }
        i := i + 1;
      }
    }

    method TabletRelease(eraser: bool)
      requires Valid()
      modifies this`log, tablets
      ensures View() == ToolAway(old(View()), eraser)
    {
      var state := tablets[Tool(eraser)];
      if state.output != 0 && Has(devices, eraser) {
        ChangeFrames(View(), eraser, state.buttons, {}, 1);
        ChangeButtons(eraser, state.buttons, {});
        log := log + [Proximity(eraser, false)];
      }
      tablets[Tool(eraser)] := AWAY;
    }

    // lorieSetStylusEnabled, with what making each device comes to.
    method SetStylusEnabled(on: bool, made: Stylus)
      requires Valid()
      modifies this`devices, this`log
      ensures View() == Step(old(View()), StylusEnable(on, made))
    {
      if on {
        if !devices.pen {
          devices := devices.(pen := made.pen);
          if !devices.pen { return; }
        }
        if !devices.eraser {
          devices := devices.(eraser := made.eraser);
        }
        return;
      }
      if devices.pen {
        log := log + [Removed(false)];
        devices := devices.(pen := false);
      }
      if devices.eraser {
        log := log + [Removed(true)];
        devices := devices.(eraser := false);
      }
    }

    method OnTablet(output: nat, eraser: bool, near: bool, buttons: bv8, valid: bool, made: Stylus)
      requires Valid()
      modifies this`devices, this`log, tablets
      ensures View() == Step(old(View()), TabletEvent(output, eraser, near, buttons, valid, made))
    {
      if output == 0 || !valid || buttons > 7 { return; }
      if !near {
        if tablets[Tool(eraser)].output == output {
          TabletRelease(eraser);
        }
        return;
      }
      if !devices.pen || !devices.eraser {
        SetStylusEnabled(true, made);
      }
      if !Has(devices, eraser) { return; }
      Proximate(output, eraser, ButtonsOf(Remap(buttons)));
    }

    method Proximate(output: nat, eraser: bool, next: set<nat>)
      requires Valid()
      modifies this`log, tablets
      ensures View() == TabletNear(old(View()), output, eraser, next)
    {
      if tablets[Tool(!eraser)].output != 0 {
        TabletRelease(!eraser);
      }
      if tablets[Tool(eraser)].output != 0 && tablets[Tool(eraser)].output != output {
        TabletRelease(eraser);
      }
      Approach(output, eraser, next);
    }

    method Approach(output: nat, eraser: bool, next: set<nat>)
      requires Valid()
      modifies this`log, tablets
      ensures View() == Arrive(old(View()), output, eraser, next)
    {
      var state := tablets[Tool(eraser)];
      if state.output == 0 {
        log := log + [Proximity(eraser, true)];
      }
      log := log + [Motion(eraser)];
      ChangeFrames(View(), eraser, state.buttons, next, 1);
      ChangeButtons(eraser, state.buttons, next);
      tablets[Tool(eraser)] := Tablet(output, next);
    }

    method ReleaseOutput(output: nat)
      requires Valid()
      modifies this`log, contacts, tablets
      ensures View() == Step(old(View()), Release(output))
    {
      var i := 0;
      while i < contacts.Length
        invariant i <= contacts.Length
        invariant ReleaseContacts(old(View()), output, 0) == ReleaseContacts(View(), output, i)
      {
        if contacts[i].output == output && output != 0 {
          contacts[i] := FREE;
          log := log + [Touch(i, End)];
        }
        i := i + 1;
      }
      if tablets[0].output == output && output != 0 {
        TabletRelease(false);
      }
      if tablets[1].output == output && output != 0 {
        TabletRelease(true);
      }
    }
  }
}
