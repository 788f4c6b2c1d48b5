/**
 The XDND source side of the data bridge (version 5 of the XDND protocol): the host drags, the
 bridge talks to whatever X window is under the pointer.

 The X tree, property lookups and the transfer table are inputs: what lies under a point, whether
 drag data is still being transferred, and which transfers finish.  The proofs hold for every
 answer.  Every message handed to message() and every client message taken is logged, and the
 protocol is stated on that log alone, by a monitor that does not know the bridge's variables.
 */
module DragNegotiation {

  type Window = nat // zero is None

  function Wrap32(n: nat): nat { n % 0x1_0000_0000 }

  datatype Move = Move(output: nat, window: Window, x: int, y: int)

  // What moveDrag finds under a point: no such output, or the nearest XdndAware window (or None).
  datatype Hit = Nowhere | Over(window: Window, proxy: Window, version: nat)

  // The protocol as a neutral observer sees it.
  datatype Item =
    | SentEnter(target: Window, via: Window)
    | SentPosition(target: Window, via: Window, again: bool) // again: the drop path asks once more
    | SentLeave(target: Window, via: Window)
    | SentDrop(target: Window, via: Window)
    | GotStatus(target: Window, accepts: bool)
    | Forgotten // the session ended without a message to the target

  // The conversation with the window under the pointer, and what has been said so far.
  datatype Talk = Talk(target: Window, proxy: Window, accepted: bool, positionPending: bool, log: seq<Item>)

  // Drop commands of the host; since the drag entered, successful drag-data transfers and how many of
  // them the last position knew about; and positions from the drop path before the drag entered.
  datatype History = History(hostDrops: nat, completed: nat, known: nat, base: nat)

  datatype Drag = Drag(
    enabled: bool, talk: Talk, output: nat, version: nat, dropPending: bool, moveQueued: bool, move: Move,
    dataRevision: nat, positionRevision: nat, past: History)

  datatype Event =
    | Enable
    | HostEnter(output: nat, offered: bool)          // offered: the channel has something to drag
    | HostMove(move: Move, hit: Hit)
    | HostLeave
    | HostDrop(hit: Hit, dataPending: bool)
    | HostFinish                                     // FINISH and CANCEL
    | ClientStatus(from: Window, accepts: bool, hit: Hit, dropHit: Hit, dataPending: bool)
    | ClientFinished(from: Window)
    | TransferFinished(current: bool, success: bool, hit: Hit, dataPending: bool)
    | Reset

  function Init(): Drag {
    Drag(false, Talk(0, 0, false, false, []), 0, 0, false, false, Move(0, 0, 0, 0), 0, 0, History(0, 0, 0, 0))
  }

  // ---------- the conversation ----------

  function Enter(t: Talk, window: Window, proxy: Window): Talk {
    Talk(window, proxy, false, false, t.log + [SentEnter(window, proxy)])
  }

  function Position(t: Talk, again: bool): Talk {
    t.(positionPending := true, log := t.log + [SentPosition(t.target, t.proxy, again)])
  }

  // Only dragTarget is cleared: the flags of the session stay behind.
  function Leave(t: Talk): Talk {
    if t.target == 0 then t else t.(target := 0, log := t.log + [SentLeave(t.target, t.proxy)])
  }

  function Drop(t: Talk): Talk { t.(log := t.log + [SentDrop(t.target, t.proxy)]) }

  function Answer(t: Talk, accepts: bool): Talk {
    t.(positionPending := false, accepted := accepts, log := t.log + [GotStatus(t.target, accepts)])
  }

  // The session is dropped without telling the target.
  function Forget(t: Talk): Talk {
    if t.target == 0 then t else t.(target := 0, log := t.log + [Forgotten])
  }

  function Retarget(t: Talk, window: Window, proxy: Window): Talk {
    if window == t.target then t
    else if window == 0 then Leave(t).(proxy := 0, accepted := false, positionPending := false)
    else Enter(Leave(t), window, proxy)
  }

  // ---------- the handlers ----------

  function MoveDrag(d: Drag, move: Move, hit: Hit, again: bool): Drag {
    var d := d.(move := move);
    if d.talk.positionPending then d.(moveQueued := true)
    else if hit.Nowhere? then d
    else
      var talk := Retarget(d.talk, hit.window, hit.proxy);
      var version := if hit.window != d.talk.target && hit.window != 0 then hit.version else d.version;
      var d := d.(talk := talk, output := move.output, version := version);
      if talk.target == 0 then d
      else d.(talk := Position(talk, again), positionRevision := d.dataRevision,
               past := d.past.(known := d.past.completed))
  }

  function RejectDrag(d: Drag): Drag { d.(dropPending := false, talk := Leave(d.talk)) }

  // The guard under which the drop path asks the target again.
  predicate Renegotiates(d: Drag, dataPending: bool) {
    && !d.talk.positionPending && d.talk.target != 0 && !d.talk.accepted
    && !dataPending && d.dataRevision != d.positionRevision
  }

  function DropDrag(d: Drag, hit: Hit, dataPending: bool): Drag {
    if d.talk.positionPending || (d.talk.target != 0 && !d.talk.accepted && dataPending) then d.(dropPending := true)
    else if Renegotiates(d, dataPending) then
      MoveDrag(d.(dropPending := true), d.move, hit, true)
    else if d.talk.target != 0 && d.talk.accepted then d.(dropPending := false, talk := Drop(d.talk))
    else RejectDrag(d)
  }

  function Succeeded(d: Drag): Drag {
    d.(dataRevision := Wrap32(d.dataRevision + 1), past := d.past.(completed := d.past.completed + 1))
  }

  function SelectionFinished(d: Drag, current: bool, success: bool, hit: Hit, dataPending: bool): Drag {
    if !current || d.talk.target == 0 then d
    else if success then
      var d := Succeeded(d);
      if d.dropPending then DropDrag(d, hit, dataPending) else d
    else if d.dropPending then RejectDrag(d)
    else d
  }

  function Status(d: Drag, from: Window, accepts: bool, hit: Hit, dropHit: Hit, dataPending: bool): Drag {
    if !d.enabled || d.talk.target == 0 || from != d.talk.target then d
    else
      var d := d.(talk := Answer(d.talk, accepts));
      var d := if d.moveQueued then MoveDrag(d.(moveQueued := false), d.move, hit, false) else d;
      if d.dropPending then DropDrag(d, dropHit, dataPending) else d
  }

  function Quiesce(d: Drag, talk: Talk): Drag {
    d.(talk := talk.(positionPending := false), moveQueued := false, dropPending := false)
  }

  function NewSession(d: Drag, output: nat): Drag {
    Quiesce(d, Forget(d.talk).(accepted := false)).(
      output := output, dataRevision := 0, positionRevision := 0,
      past := History(d.past.hostDrops, 0, 0, Renegotiations(d.talk.log)))
  }

  function Commanded(d: Drag): Drag { d.(past := d.past.(hostDrops := d.past.hostDrops + 1)) }

  function Step(d: Drag, e: Event): Drag {
    match e
    case Enable => d.(enabled := true)
    case HostEnter(output, offered) => if d.enabled && offered then NewSession(d, output) else d
    case HostMove(move, hit) => if d.enabled then MoveDrag(d, move, hit, false) else d
    case HostLeave => if d.enabled then Quiesce(d, Leave(d.talk).(accepted := false)) else d
    case HostDrop(hit, dataPending) =>
      if d.enabled then DropDrag(Commanded(d), hit, dataPending) else d
    case HostFinish => if d.enabled then Quiesce(d, Forget(d.talk).(accepted := false)) else d
    case ClientStatus(from, accepts, hit, dropHit, dataPending) => Status(d, from, accepts, hit, dropHit, dataPending)
    case ClientFinished(from) =>
      if d.enabled && d.talk.target != 0 && from == d.talk.target then d.(talk := Forget(d.talk)) else d
    case TransferFinished(current, success, hit, dataPending) => SelectionFinished(d, current, success, hit, dataPending)
    case Reset => Quiesce(d, Forget(d.talk)).(enabled := false)
  }

  function Run(d: Drag, events: seq<Event>): Drag
    decreases |events|
  {
    if events == [] then d else Run(Step(d, events[0]), events[1..])
  }

  // ---------- the protocol monitor ----------

  datatype Session = NoSession | With(target: Window, via: Window, outstanding: bool, accepts: bool, dropped: bool)

  // The strict monitor also wants the drop to be the last word: after it the target may only be
  // waited for or forgotten.
  predicate Legal(s: Session, i: Item, strict: bool) {
    match i
    case SentEnter(t, _) => s.NoSession? && t != 0
    case SentPosition(t, via, _) => s.With? && s.target == t && s.via == via && !s.outstanding && !(strict && s.dropped)
    case SentLeave(t, via) => s.With? && s.target == t && s.via == via && !(strict && s.dropped)
    case SentDrop(t, via) =>
      s.With? && s.target == t && s.via == via && !s.outstanding && s.accepts && !(strict && s.dropped)
    case GotStatus(t, _) => s.With? && s.target == t
    case Forgotten => s.With?
  }

  function After(s: Session, i: Item): Session {
    match i
    case SentEnter(t, via) => With(t, via, false, false, false)
    case SentPosition(t, via, _) => if s.With? then s.(outstanding := true) else With(t, via, true, false, false)
    case SentLeave(_, _) => NoSession
    case SentDrop(_, _) => if s.With? then s.(dropped := true) else s
    case GotStatus(t, accepts) =>
      if s.With? then s.(outstanding := false, accepts := accepts) else With(t, t, false, accepts, false)
    case Forgotten => NoSession
  }

  // The session the log ends in.
  function Observed(log: seq<Item>): Session {
    if log == [] then NoSession else After(Observed(log[..|log| - 1]), log[|log| - 1])
  }

  predicate LegalLog(log: seq<Item>, strict: bool) {
    log == []
    || (LegalLog(log[..|log| - 1], strict) && Legal(Observed(log[..|log| - 1]), log[|log| - 1], strict))
  }

  function Drops(log: seq<Item>): nat {
    if log == [] then 0 else Drops(log[..|log| - 1]) + if log[|log| - 1].SentDrop? then 1 else 0
  }

  // Positions sent from the drop path.
  function Renegotiations(log: seq<Item>): nat {
    if log == [] then 0
    else Renegotiations(log[..|log| - 1]) + if log[|log| - 1].SentPosition? && log[|log| - 1].again then 1 else 0
  }

  lemma SayObserved(log: seq<Item>, i: Item, strict: bool)
    ensures Observed(log + [i]) == After(Observed(log), i)
    ensures Drops(log + [i]) == Drops(log) + if i.SentDrop? then 1 else 0
    ensures Renegotiations(log + [i]) == Renegotiations(log) + if i.SentPosition? && i.again then 1 else 0
    ensures LegalLog(log + [i], strict) <==> LegalLog(log, strict) && Legal(Observed(log), i, strict)
  {
    var l := log + [i];
    assert l[..|l| - 1] == log && l[|l| - 1] == i;
  }

  // Every item of a legal log was allowed by what came before it.
  lemma {:induction false} LegalAt(log: seq<Item>, k: nat, strict: bool)
    requires LegalLog(log, strict) && k < |log|
    ensures LegalLog(log[..k], strict) && Legal(Observed(log[..k]), log[k], strict)
  {
    var init := log[..|log| - 1];
    if k < |init| {
      LegalAt(init, k, strict);
      assert init[..k] == log[..k];
    } else {
      assert log[..k] == init;
    }
  }

  // ---------- the conversation keeps to it ----------

  // The window under the pointer has been dropped on.
  predicate Dropped(t: Talk) { Observed(t.log).With? && Observed(t.log).dropped }

  // The bridge's variables are what the monitor has observed, and all of it was legal.
  ghost predicate TalkOk(t: Talk, strict: bool) {
    && LegalLog(t.log, strict)
    && Observed(t.log) ==
       if t.target == 0 then NoSession else With(t.target, t.proxy, t.positionPending, t.accepted, Dropped(t))
  }

  // Something may still be said to the target.
  predicate MaySpeak(t: Talk, strict: bool) { strict ==> !Dropped(t) }

  predicate SameCounts(t: Talk, r: Talk) {
    && Drops(r.log) == Drops(t.log)
    && Renegotiations(r.log) == Renegotiations(t.log)
  }

  lemma LeaveKeeps(t: Talk, strict: bool)
    requires TalkOk(t, strict) && MaySpeak(t, strict)
    ensures TalkOk(Leave(t), strict) && SameCounts(t, Leave(t)) && !Dropped(Leave(t))
  {
    SayObserved(t.log, SentLeave(t.target, t.proxy), strict);
  }

  lemma ForgetKeeps(t: Talk, strict: bool)
    requires TalkOk(t, strict)
    ensures TalkOk(Forget(t), strict) && SameCounts(t, Forget(t)) && !Dropped(Forget(t))
  {
    SayObserved(t.log, Forgotten, strict);
  }

  lemma RetargetKeeps(t: Talk, window: Window, proxy: Window, strict: bool)
    requires TalkOk(t, strict) && MaySpeak(t, strict)
    ensures var r := Retarget(t, window, proxy);
      && TalkOk(r, strict)
      && SameCounts(t, r)
      && MaySpeak(r, strict)
  {
    LeaveKeeps(t, strict);
    SayObserved(Leave(t).log, SentEnter(window, proxy), strict);
  }

  lemma PositionKeeps(t: Talk, again: bool, strict: bool)
    requires TalkOk(t, strict) && MaySpeak(t, strict) && t.target != 0 && !t.positionPending
    ensures var r := Position(t, again);
      && TalkOk(r, strict)
      && Drops(r.log) == Drops(t.log)
      && Renegotiations(r.log) == Renegotiations(t.log) + (if again then 1 else 0)
      && MaySpeak(r, strict)
  {
    SayObserved(t.log, SentPosition(t.target, t.proxy, again), strict);
  }

  lemma DropTalkKeeps(t: Talk, strict: bool)
    requires TalkOk(t, strict) && MaySpeak(t, strict) && t.target != 0 && !t.positionPending && t.accepted
    ensures var r := Drop(t);
      && TalkOk(r, strict)
      && Drops(r.log) == Drops(t.log) + 1
      && Renegotiations(r.log) == Renegotiations(t.log)
  {
    SayObserved(t.log, SentDrop(t.target, t.proxy), strict);
  }

  lemma AnswerKeeps(t: Talk, accepts: bool, strict: bool)
    requires TalkOk(t, strict) && t.target != 0
    ensures var r := Answer(t, accepts);
      && TalkOk(r, strict)
      && SameCounts(t, r)
      && Dropped(r) == Dropped(t)
  {
    SayObserved(t.log, GotStatus(t.target, accepts), strict);
  }

  // ---------- the invariant ----------

  ghost predicate Counted(log: seq<Item>, past: History, dataRevision: nat, positionRevision: nat) {
    && past.base <= Renegotiations(log) <= past.base + past.known
    && past.known <= past.completed
    && (past.known == past.completed ==> dataRevision == positionRevision)
  }

  function Owed(d: Drag): nat { if d.dropPending then 1 else 0 }

  // spent: the host has dropped since the drag entered.  Until then nothing is dropped; and once
  // something is, nothing is left to say.
  ghost predicate InOrder(d: Drag, spent: bool) {
    && (d.moveQueued ==> d.talk.positionPending)
    && (!spent ==> !d.dropPending && !Dropped(d.talk))
    && (Dropped(d.talk) ==> !d.dropPending && !d.talk.positionPending)
  }

  ghost predicate Inv(d: Drag, strict: bool, spent: bool) {
    && TalkOk(d.talk, strict)
    && Counted(d.talk.log, d.past, d.dataRevision, d.positionRevision)
    && Drops(d.talk.log) + Owed(d) <= d.past.hostDrops
    && (strict ==> InOrder(d, spent))
  }

  // What a move says: perhaps another target, and a position if there is one.
  function Moved(t: Talk, hit: Hit, again: bool): Talk
    requires hit.Over?
  {
    var talk := Retarget(t, hit.window, hit.proxy);
    if talk.target == 0 then talk else Position(talk, again)
  }

  lemma MovedKeeps(t: Talk, hit: Hit, again: bool, strict: bool)
    requires hit.Over? && TalkOk(t, strict) && MaySpeak(t, strict) && !t.positionPending
    ensures var r := Moved(t, hit, again);
      && TalkOk(r, strict)
      && MaySpeak(r, strict)
      && Drops(r.log) == Drops(t.log)
      && Renegotiations(r.log) == Renegotiations(t.log) + (if again && r.target != 0 then 1 else 0)
  {
    RetargetKeeps(t, hit.window, hit.proxy, strict);
    var talk := Retarget(t, hit.window, hit.proxy);
    if talk.target != 0 {
      PositionKeeps(talk, again, strict);
    }
  }

  lemma MoveKeeps(d: Drag, move: Move, hit: Hit, again: bool, strict: bool, spent: bool)
    requires Inv(d, strict, spent) && MaySpeak(d.talk, strict) && (again ==> d.past.known < d.past.completed)
    ensures Inv(MoveDrag(d, move, hit, again), strict, spent)
    ensures MaySpeak(MoveDrag(d, move, hit, again).talk, strict)
  {
    if !d.talk.positionPending && hit.Over? {
      MovedKeeps(d.talk, hit, again, strict);
      assert MoveDrag(d, move, hit, again).talk == Moved(d.talk, hit, again);
    }
  }

  // A renegotiated position follows drag data that the previous position did not know about.
  lemma RenegotiationKeeps(d: Drag, hit: Hit, dataPending: bool, strict: bool)
    requires Inv(d, strict, true) && MaySpeak(d.talk, strict)
    requires Renegotiates(d, dataPending) && Drops(d.talk.log) + 1 <= d.past.hostDrops
    ensures Inv(DropDrag(d, hit, dataPending), strict, true)
  {
    assert d.past.known < d.past.completed;
    MoveKeeps(d.(dropPending := true), d.move, hit, true, strict, true);
  }

  lemma DropSentKeeps(d: Drag, strict: bool)
    requires Inv(d, strict, true) && MaySpeak(d.talk, strict) && Drops(d.talk.log) + 1 <= d.past.hostDrops
    requires d.talk.target != 0 && !d.talk.positionPending && d.talk.accepted
    ensures Inv(d.(dropPending := false, talk := Drop(d.talk)), strict, true)
  {
    DropTalkKeeps(d.talk, strict);
  }

  lemma RejectKeeps(d: Drag, strict: bool, spent: bool)
    requires Inv(d, strict, spent) && MaySpeak(d.talk, strict)
    ensures Inv(RejectDrag(d), strict, spent)
  {
    LeaveKeeps(d.talk, strict);
  }

  lemma DropKeeps(d: Drag, hit: Hit, dataPending: bool, strict: bool)
    requires Inv(d, strict, true) && MaySpeak(d.talk, strict) && Drops(d.talk.log) + 1 <= d.past.hostDrops
    ensures Inv(DropDrag(d, hit, dataPending), strict, true)
  {
    if d.talk.positionPending || (d.talk.target != 0 && !d.talk.accepted && dataPending) {
      assert DropDrag(d, hit, dataPending) == d.(dropPending := true);
    } else if Renegotiates(d, dataPending) {
      RenegotiationKeeps(d, hit, dataPending, strict);
    } else if d.talk.target != 0 && d.talk.accepted {
      DropSentKeeps(d, strict);
    } else {
      RejectKeeps(d, strict, true);
    }
  }

  lemma FinishedKeeps(d: Drag, current: bool, success: bool, hit: Hit, dataPending: bool, strict: bool, spent: bool)
    requires Inv(d, strict, spent)
    ensures Inv(SelectionFinished(d, current, success, hit, dataPending), strict, spent)
  {
    if current && d.talk.target != 0 {
      assert Inv(Succeeded(d), strict, spent);
      if d.dropPending {
        if success {
          assert Inv(Succeeded(d), strict, true);
          DropKeeps(Succeeded(d), hit, dataPending, strict);
        } else {
          RejectKeeps(d, strict, spent);
        }
      }
    }
  }

  // A status is taken, and a queued move goes out.
  function Taken(d: Drag, accepts: bool, hit: Hit): Drag {
    var d := d.(talk := Answer(d.talk, accepts));
    if d.moveQueued then MoveDrag(d.(moveQueued := false), d.move, hit, false) else d
  }

  lemma TakenKeeps(d: Drag, accepts: bool, hit: Hit, strict: bool, spent: bool)
    requires Inv(d, strict, spent) && d.talk.target != 0
    ensures var r := Taken(d, accepts, hit);
      && Inv(r, strict, spent)
      && (r.dropPending ==> MaySpeak(r.talk, strict))
      && r.dropPending == d.dropPending
  {
    AnswerKeeps(d.talk, accepts, strict);
    var d1 := d.(talk := Answer(d.talk, accepts), moveQueued := false);
    if d.moveQueued {
      assert Inv(d1, strict, spent);
      MoveKeeps(d1, d.move, hit, false, strict, spent);
    }
  }

  lemma StatusKeeps(d: Drag, from: Window, accepts: bool, hit: Hit, dropHit: Hit, dataPending: bool, strict: bool, spent: bool)
    requires Inv(d, strict, spent)
    ensures Inv(Status(d, from, accepts, hit, dropHit, dataPending), strict, spent)
  {
    if d.enabled && d.talk.target != 0 && from == d.talk.target {
      TakenKeeps(d, accepts, hit, strict, spent);
      var taken := Taken(d, accepts, hit);
      if taken.dropPending {
        assert Inv(taken, strict, true);
        DropKeeps(taken, dropHit, dataPending, strict);
      }
    }
  }

  lemma ForgottenKeeps(d: Drag, strict: bool, spent: bool, now: bool)
    requires Inv(d, strict, spent)
    ensures Inv(Quiesce(d, Forget(d.talk).(accepted := false)), strict, now)
    ensures Inv(Quiesce(d, Forget(d.talk)).(enabled := false), strict, now)
  {
    ForgetKeeps(d.talk, strict);
    var quiet := Forget(d.talk).(positionPending := false);
    assert TalkOk(quiet, strict) && TalkOk(quiet.(accepted := false), strict);
  }

  lemma NewSessionKeeps(d: Drag, output: nat, strict: bool, spent: bool)
    requires Inv(d, strict, spent)
    ensures Inv(NewSession(d, output), strict, false)
  {
    ForgetKeeps(d.talk, strict);
    var quiet := Forget(d.talk).(accepted := false, positionPending := false);
    assert TalkOk(quiet, strict);
    assert NewSession(d, output).talk == quiet;
  }

  lemma ClientFinishedKeeps(d: Drag, strict: bool, spent: bool)
    requires Inv(d, strict, spent)
    ensures Inv(d.(talk := Forget(d.talk)), strict, spent)
  {
    ForgetKeeps(d.talk, strict);
  }

  lemma HostLeaveKeeps(d: Drag, strict: bool, spent: bool)
    requires Inv(d, strict, spent) && MaySpeak(d.talk, strict)
    ensures Inv(Step(d, HostLeave), strict, spent)
  {
    LeaveKeeps(d.talk, strict);
    var quiet := Leave(d.talk).(accepted := false, positionPending := false);
    assert TalkOk(quiet, strict);
  }

  // Whether the host has dropped since the drag entered, after this event.
  function Spends(d: Drag, spent: bool, e: Event): bool {
    match e
    case HostDrop(_, _) => spent || d.enabled
    case HostEnter(_, offered) => spent && !(d.enabled && offered)
    case HostFinish => spent && !d.enabled
    case Reset => false
    case _ => spent
  }

  // Between its drop and the end of the drag an orderly host neither moves, leaves nor drops again.
  predicate Orderly(d: Drag, spent: bool, e: Event) {
    spent && d.enabled ==> !e.HostMove? && !e.HostLeave? && !e.HostDrop?
  }

  lemma StepKeepsInv(d: Drag, e: Event, strict: bool, spent: bool)
    requires Inv(d, strict, spent) && (strict ==> Orderly(d, spent, e))
    ensures Inv(Step(d, e), strict, Spends(d, spent, e))
  {
    match e
    case Enable =>
    case HostEnter(output, _) => NewSessionKeeps(d, output, strict, spent);
    case HostMove(move, hit) =>
      if d.enabled {
        MoveKeeps(d, move, hit, false, strict, spent);
      }
    case HostLeave =>
      if d.enabled {
        HostLeaveKeeps(d, strict, spent);
      }
    case HostDrop(hit, dataPending) =>
      if d.enabled {
        assert Inv(Commanded(d), strict, true);
        DropKeeps(Commanded(d), hit, dataPending, strict);
      }
    case ClientStatus(from, accepts, hit, dropHit, dataPending) =>
      StatusKeeps(d, from, accepts, hit, dropHit, dataPending, strict, spent);
    case TransferFinished(current, success, hit, dataPending) =>
      FinishedKeeps(d, current, success, hit, dataPending, strict, spent);
    case HostFinish => ForgottenKeeps(d, strict, spent, false);
    case ClientFinished(_) => ClientFinishedKeeps(d, strict, spent);
    case Reset => ForgottenKeeps(d, strict, spent, false);
  }

  predicate AllOrderly(d: Drag, spent: bool, events: seq<Event>)
    decreases |events|
  {
    events == []
    || (Orderly(d, spent, events[0]) && AllOrderly(Step(d, events[0]), Spends(d, spent, events[0]), events[1..]))
  }

  lemma {:induction false} RunKeepsInv(d: Drag, events: seq<Event>, strict: bool, spent: bool)
    requires Inv(d, strict, spent) && (strict ==> AllOrderly(d, spent, events))
    ensures exists now :: Inv(Run(d, events), strict, now)
    decreases |events|
  {
    if events == [] {
      assert Inv(Run(d, events), strict, spent);
    } else {
      var next := Step(d, events[0]);
      StepKeepsInv(d, events[0], strict, spent);
      RunKeepsInv(next, events[1..], strict, Spends(d, spent, events[0]));
      var now :| Inv(Run(next, events[1..]), strict, now);
      assert Inv(Run(d, events), strict, now);
    }
  }

  // ---------- over every run ----------

  // Whatever the host and the clients do, a drop goes only to the window the bridge has entered and
  // not left, through the proxy it was entered by, with no position unanswered and the latest answer
  // accepting; and two positions to one target always have an answer between them.
  lemma EveryRunIsLegal(events: seq<Event>)
    ensures LegalLog(Run(Init(), events).talk.log, false)
  {
    RunKeepsInv(Init(), events, false, false);
  }

  // With an orderly host the conversation is strictly legal: the drop is the last word of a session.
  lemma OrderlyRunIsStrict(events: seq<Event>)
    requires AllOrderly(Init(), false, events)
    ensures LegalLog(Run(Init(), events).talk.log, true)
  {
    RunKeepsInv(Init(), events, true, false);
  }

  // And a session then has at most one drop.
  lemma {:induction false} OneDropASession(log: seq<Item>, i: nat, j: nat)
    requires LegalLog(log, true) && i < j < |log| && log[i].SentDrop? && log[j].SentDrop?
    ensures exists k :: i < k < j && log[k].SentEnter?
  {
    DroppedUntilEnter(log, i, j);
    LegalAt(log, j, true);
  }

  lemma {:induction false} DroppedUntilEnter(log: seq<Item>, i: nat, j: nat)
    requires LegalLog(log, true) && i < j < |log| && log[i].SentDrop?
    ensures (exists k :: i < k < j && log[k].SentEnter?) || Observed(log[..j]).NoSession? || Observed(log[..j]).dropped
    decreases j
  {
    var before := log[..j];
    assert before[|before| - 1] == log[j - 1] && before[..|before| - 1] == log[..j - 1];
    LegalAt(log, j - 1, true);
    if i < j - 1 {
      DroppedUntilEnter(log, i, j - 1);
    }
  }

  // The commands that end the strictness of an orderly conversation, once a drop has been sent.
  predicate Interrupts(d: Drag, e: Event) {
    match e
    case HostMove(_, hit) => hit.Over?
    case HostLeave => true
    case HostDrop(hit, dataPending) =>
      d.talk.accepted || (!dataPending && (d.dataRevision == d.positionRevision || hit.Over?))
    case _ => false
  }

  // The first disorderly command after a drop breaks the strict protocol exactly when it makes the
  // bridge speak: a move to a point of an output, a leave, or a drop that is not held back by data
  // pending and does not ask again about a point outside every output.
  lemma DisorderExactly(d: Drag, e: Event)
    requires Inv(d, true, true) && Dropped(d.talk) && d.enabled && (e.HostMove? || e.HostLeave? || e.HostDrop?)
    ensures LegalLog(Step(d, e).talk.log, true) <==> !Interrupts(d, e)
  {
    match e
    case HostMove(move, hit) => MoveBreaks(d, move, hit, false);
    case HostLeave => SayObserved(d.talk.log, SentLeave(d.talk.target, d.talk.proxy), true);
    case HostDrop(hit, dataPending) =>
      var c := Commanded(d);
      if Renegotiates(c, dataPending) {
        MoveBreaks(c.(dropPending := true), c.move, hit, true);
      }
      SayObserved(d.talk.log, SentDrop(d.talk.target, d.talk.proxy), true);
      SayObserved(d.talk.log, SentLeave(d.talk.target, d.talk.proxy), true);
  }

  // A move in terms of what is said, legal or not.
  lemma MovedSays(t: Talk, hit: Hit, again: bool, strict: bool)
    requires hit.Over?
    ensures var r := Moved(t, hit, again);
      && Drops(r.log) == Drops(t.log)
      && Renegotiations(r.log) == Renegotiations(t.log) + (if again && r.target != 0 then 1 else 0)
      && (strict && TalkOk(t, true) && Dropped(t) ==> !LegalLog(r.log, true))
  {
    var left := Leave(t);
    SayObserved(t.log, SentLeave(t.target, t.proxy), strict);
    SayObserved(left.log, SentEnter(hit.window, hit.proxy), strict);
    var talk := Retarget(t, hit.window, hit.proxy);
    assert SameCounts(t, talk);
    SayObserved(talk.log, SentPosition(talk.target, talk.proxy, again), strict);
  }

  lemma MoveBreaks(d: Drag, move: Move, hit: Hit, again: bool)
    requires TalkOk(d.talk, true) && Dropped(d.talk) && !d.talk.positionPending
    ensures LegalLog(MoveDrag(d, move, hit, again).talk.log, true) <==> !hit.Over?
  {
    if hit.Over? {
      MovedSays(d.talk, hit, again, true);
      assert MoveDrag(d, move, hit, again).talk == Moved(d.talk, hit, again);
    }
  }

  // Two positions of one session are separated by a status: said directly on the log.
  lemma {:induction false} PositionsAreSeparated(log: seq<Item>, i: nat, j: nat)
    requires LegalLog(log, false) && i < j < |log| && log[i].SentPosition? && log[j].SentPosition?
    requires forall k :: i < k < j ==> !log[k].SentEnter? && !log[k].SentLeave? && !log[k].Forgotten?
    ensures exists k :: i < k < j && log[k].GotStatus? && log[k].target == log[i].target
  {
    LegalAt(log, j, false);
    OutstandingUntilStatus(log, i, j);
  }

  lemma {:induction false} OutstandingUntilStatus(log: seq<Item>, i: nat, j: nat)
    requires LegalLog(log, false) && i < j < |log| && log[i].SentPosition?
    requires forall k :: i < k < j ==> !log[k].SentEnter? && !log[k].SentLeave? && !log[k].Forgotten?
    ensures (exists k :: i < k < j && log[k].GotStatus? && log[k].target == log[i].target)
      || (Observed(log[..j]).With? && Observed(log[..j]).target == log[i].target && Observed(log[..j]).outstanding)
    decreases j
  {
    var before := log[..j];
    assert before[|before| - 1] == log[j - 1] && before[..|before| - 1] == log[..j - 1];
    LegalAt(log, j - 1, false);
    if i < j - 1 {
      OutstandingUntilStatus(log, i, j - 1);
    }
  }

  // ---------- drops ----------

  // The steps that send XdndDrop.
  predicate SendsDrop(d: Drag, e: Event) {
    match e
    case HostDrop(_, _) => d.enabled && d.talk.target != 0 && d.talk.accepted && !d.talk.positionPending
    case ClientStatus(from, accepts, hit, _, _) =>
      d.enabled && d.talk.target != 0 && from == d.talk.target && accepts && d.dropPending && !(d.moveQueued && hit.Over?)
    case TransferFinished(current, success, _, _) =>
      current && success && d.talk.target != 0 && d.dropPending && d.talk.accepted && !d.talk.positionPending
    case _ => false
  }

  lemma MoveSendsNoDrop(d: Drag, move: Move, hit: Hit, again: bool)
    ensures Drops(MoveDrag(d, move, hit, again).talk.log) == Drops(d.talk.log)
  {
    if !d.talk.positionPending && hit.Over? {
      MovedSays(d.talk, hit, again, false);
      assert MoveDrag(d, move, hit, again).talk == Moved(d.talk, hit, again);
    }
  }

  lemma DropDragSends(d: Drag, hit: Hit, dataPending: bool)
    ensures Drops(DropDrag(d, hit, dataPending).talk.log) == Drops(d.talk.log)
      + if d.talk.target != 0 && d.talk.accepted && !d.talk.positionPending then 1 else 0
  {
    MoveSendsNoDrop(d.(dropPending := true), d.move, hit, true);
    SayObserved(d.talk.log, SentDrop(d.talk.target, d.talk.proxy), false);
    SayObserved(d.talk.log, SentLeave(d.talk.target, d.talk.proxy), false);
  }

  // An XdndDrop is sent by exactly those steps.  In particular a host's drop command sends one if and
  // only if the bridge is enabled and has a target that accepted, with no position unanswered.
  lemma DropsExactly(d: Drag, e: Event)
    ensures Drops(Step(d, e).talk.log) == Drops(d.talk.log) + if SendsDrop(d, e) then 1 else 0
  {
    match e
    case HostMove(move, hit) => MoveSendsNoDrop(d, move, hit, false);
    case HostDrop(hit, dataPending) => DropDragSends(Commanded(d), hit, dataPending);
    case ClientStatus(from, accepts, hit, dropHit, dataPending) =>
      if d.enabled && d.talk.target != 0 && from == d.talk.target {
        StatusSends(d, accepts, hit, dropHit, dataPending);
      }
    case TransferFinished(current, success, hit, dataPending) =>
      DropDragSends(Succeeded(d), hit, dataPending);
      SayObserved(d.talk.log, SentLeave(d.talk.target, d.talk.proxy), false);
    case _ =>
      SayObserved(d.talk.log, SentLeave(d.talk.target, d.talk.proxy), false);
      SayObserved(d.talk.log, Forgotten, false);
  }

  // Taking the status sends no drop; a queued move leaves a position unanswered or no target.
  lemma TakenSends(d: Drag, accepts: bool, hit: Hit)
    requires d.talk.target != 0
    ensures var t := Taken(d, accepts, hit).talk;
      && Drops(t.log) == Drops(d.talk.log)
      && (if d.moveQueued && hit.Over? then t.positionPending || t.target == 0
          else t.target != 0 && t.accepted == accepts && !t.positionPending)
  {
    SayObserved(d.talk.log, GotStatus(d.talk.target, accepts), false);
    var answered := d.(talk := Answer(d.talk, accepts), moveQueued := false);
    MoveSendsNoDrop(answered, d.move, hit, false);
  }

  lemma StatusSends(d: Drag, accepts: bool, hit: Hit, dropHit: Hit, dataPending: bool)
    requires d.enabled && d.talk.target != 0
    ensures Drops(Status(d, d.talk.target, accepts, hit, dropHit, dataPending).talk.log) == Drops(d.talk.log)
      + if accepts && d.dropPending && !(d.moveQueued && hit.Over?) then 1 else 0
  {
    TakenSends(d, accepts, hit);
    var taken := Taken(d, accepts, hit);
    assert taken.dropPending == d.dropPending;
    DropDragSends(taken, dropHit, dataPending);
  }

  // Drops never outnumber the host's drop commands.
  lemma DropsAreCommanded(events: seq<Event>)
    ensures var d := Run(Init(), events); Drops(d.talk.log) <= d.past.hostDrops
  {
    RunKeepsInv(Init(), events, false, false);
  }

  // A drag that comes over a window, and the window accepts.
  lemma DragIsAccepted(w: Window, move: Move, hit: Hit)
    requires w != 0 && hit == Over(w, w, 5)
    ensures var d := Run(Init(), [Enable, HostEnter(1, true), HostMove(move, hit), ClientStatus(w, true, hit, hit, false)]);
      && d.enabled && !d.dropPending
      && d.talk == Talk(w, w, true, false, [SentEnter(w, w), SentPosition(w, w, false), GotStatus(w, true)])
  {
    var status := ClientStatus(w, true, hit, hit, false);
    var d1 := Step(Init(), Enable);
    var d2 := Step(d1, HostEnter(1, true));
    var d3 := Step(d2, HostMove(move, hit));
    assert d2.talk == Talk(0, 0, false, false, []) && d2.enabled;
    assert d3.talk == Talk(w, w, false, true, [SentEnter(w, w), SentPosition(w, w, false)]) && !d3.moveQueued;
    RunCons(Init(), Enable, [HostEnter(1, true), HostMove(move, hit), status]);
    RunCons(d1, HostEnter(1, true), [HostMove(move, hit), status]);
    RunCons(d2, HostMove(move, hit), [status]);
    RunCons(d3, status, []);
  }

  // From there the host drops twice, and two drops are sent.
  lemma SecondDropRepeats(w: Window, move: Move, hit: Hit)
    requires w != 0 && hit == Over(w, w, 5)
    ensures Run(Init(), [Enable, HostEnter(1, true), HostMove(move, hit), ClientStatus(w, true, hit, hit, false)]
                        + [HostDrop(hit, false), HostDrop(hit, false)]).talk.log ==
      [SentEnter(w, w), SentPosition(w, w, false), GotStatus(w, true), SentDrop(w, w), SentDrop(w, w)]
  {
    var start := [Enable, HostEnter(1, true), HostMove(move, hit), ClientStatus(w, true, hit, hit, false)];
    var drop := HostDrop(hit, false);
    DragIsAccepted(w, move, hit);
    var d := Run(Init(), start);
    var d1 := Step(d, drop);
    assert d1.talk == Drop(d.talk) && d1.enabled;
    RunJoins(Init(), start, [drop, drop]);
    RunCons(d, drop, [drop]);
    RunCons(d1, drop, []);
  }

  lemma {:induction false} RunJoins(d: Drag, a: seq<Event>, b: seq<Event>)
    ensures Run(d, a + b) == Run(Run(d, a), b)
    decreases |a|
  {
    if a == [] {
      assert a + b == b;
    } else {
      assert (a + b)[0] == a[0] && (a + b)[1..] == a[1..] + b;
      RunJoins(Step(d, a[0]), a[1..], b);
    }
  }

  lemma RunCons(d: Drag, e: Event, rest: seq<Event>)
    ensures Run(d, [e] + rest) == Run(Step(d, e), rest)
  {
    assert ([e] + rest)[1..] == rest;
  }

  // ---------- renegotiation ----------

  predicate Completes(e: Event) { e.TransferFinished? && e.current && e.success }

  // Successful drag-data transfers among the events.
  function Transfers(events: seq<Event>): nat
    decreases |events|
  {
    if events == [] then 0
    else Transfers(events[1..]) + if Completes(events[0]) then 1 else 0
  }

  predicate SamePast(d: Drag, r: Drag) { r.past.base == d.past.base && r.past.completed == d.past.completed }

  lemma MovePast(d: Drag, move: Move, hit: Hit, again: bool)
    ensures SamePast(d, MoveDrag(d, move, hit, again))
  {}

  lemma DropPast(d: Drag, hit: Hit, dataPending: bool)
    ensures SamePast(d, DropDrag(d, hit, dataPending))
  {
    MovePast(d.(dropPending := true), d.move, hit, true);
  }

  lemma StatusPast(d: Drag, from: Window, accepts: bool, hit: Hit, dropHit: Hit, dataPending: bool)
    ensures SamePast(d, Status(d, from, accepts, hit, dropHit, dataPending))
  {
    var answered := d.(talk := Answer(d.talk, accepts), moveQueued := false);
    MovePast(answered, d.move, hit, false);
    DropPast(Taken(d, accepts, hit), dropHit, dataPending);
  }

  lemma CompletedGrows(d: Drag, e: Event)
    requires !e.HostEnter?
    ensures var r := Step(d, e);
      && r.past.base == d.past.base
      && r.past.completed <= d.past.completed + if Completes(e) then 1 else 0
  {
    match e
    case HostMove(move, hit) => MovePast(d, move, hit, false);
    case HostDrop(hit, dataPending) => DropPast(Commanded(d), hit, dataPending);
    case ClientStatus(from, accepts, hit, dropHit, dataPending) =>
      StatusPast(d, from, accepts, hit, dropHit, dataPending);
    case TransferFinished(_, _, hit, dataPending) => DropPast(Succeeded(d), hit, dataPending);
    case _ =>
  }

  lemma {:induction false} RunCompletes(d: Drag, events: seq<Event>)
    requires forall i :: 0 <= i < |events| ==> !events[i].HostEnter?
    ensures var r := Run(d, events);
      r.past.base == d.past.base && r.past.completed <= d.past.completed + Transfers(events)
    decreases |events|
  {
    if events != [] {
      CompletedGrows(d, events[0]);
      RunCompletes(Step(d, events[0]), events[1..]);
    }
  }

  // Renegotiation cannot loop: from the moment a drag enters until another does, the positions sent
  // from the drop path, counted in the log, number at most the successful drag-data transfers.
  lemma RenegotiationIsBounded(before: seq<Event>, output: nat, events: seq<Event>)
    requires Run(Init(), before).enabled && forall i :: 0 <= i < |events| ==> !events[i].HostEnter?
    ensures var entered := Step(Run(Init(), before), HostEnter(output, true));
      Renegotiations(Run(entered, events).talk.log) <= Renegotiations(entered.talk.log) + Transfers(events)
  {
    RunKeepsInv(Init(), before, false, false);
    var d := Run(Init(), before);
    var now :| Inv(d, false, now);
    ForgetKeeps(d.talk, false);
    StepKeepsInv(d, HostEnter(output, true), false, now);
    var entered := Step(d, HostEnter(output, true));
    RunKeepsInv(entered, events, false, Spends(d, now, HostEnter(output, true)));
    RunCompletes(entered, events);
  }

  // Nothing new has been transferred since the last position.
  predicate UpToDate(d: Drag) { d.past.known == d.past.completed }

  lemma QuietStep(d: Drag, e: Event, spent: bool)
    requires Inv(d, false, spent) && UpToDate(d)
    requires !e.HostEnter? && !Completes(e)
    ensures UpToDate(Step(d, e)) && Renegotiations(Step(d, e).talk.log) == Renegotiations(d.talk.log)
  {
    match e
    case HostMove(move, hit) => MoveIsNoRenegotiation(d, move, hit);
    case HostDrop(hit, dataPending) => QuietDrop(Commanded(d), hit, dataPending);
    case ClientStatus(from, accepts, hit, dropHit, dataPending) =>
      if d.enabled && d.talk.target != 0 && from == d.talk.target {
        QuietStatus(d, accepts, hit, dropHit, dataPending);
      }
    case _ =>
      SayObserved(d.talk.log, SentLeave(d.talk.target, d.talk.proxy), false);
      SayObserved(d.talk.log, Forgotten, false);
  }

  lemma MoveIsNoRenegotiation(d: Drag, move: Move, hit: Hit)
    ensures var r := MoveDrag(d, move, hit, false);
      && Renegotiations(r.talk.log) == Renegotiations(d.talk.log)
      && (UpToDate(d) ==> UpToDate(r))
      && (d.dataRevision == d.positionRevision ==> r.dataRevision == r.positionRevision)
  {
    if !d.talk.positionPending && hit.Over? {
      MovedSays(d.talk, hit, false, false);
      assert MoveDrag(d, move, hit, false).talk == Moved(d.talk, hit, false);
    }
  }

  lemma QuietDrop(d: Drag, hit: Hit, dataPending: bool)
    requires d.dataRevision == d.positionRevision && UpToDate(d)
    ensures var r := DropDrag(d, hit, dataPending);
      UpToDate(r) && Renegotiations(r.talk.log) == Renegotiations(d.talk.log)
  {
    SayObserved(d.talk.log, SentDrop(d.talk.target, d.talk.proxy), false);
    SayObserved(d.talk.log, SentLeave(d.talk.target, d.talk.proxy), false);
  }

  lemma QuietStatus(d: Drag, accepts: bool, hit: Hit, dropHit: Hit, dataPending: bool)
    requires d.enabled && d.talk.target != 0 && d.dataRevision == d.positionRevision && UpToDate(d)
    ensures var r := Status(d, d.talk.target, accepts, hit, dropHit, dataPending);
      UpToDate(r) && Renegotiations(r.talk.log) == Renegotiations(d.talk.log)
  {
    SayObserved(d.talk.log, GotStatus(d.talk.target, accepts), false);
    var answered := d.(talk := Answer(d.talk, accepts), moveQueued := false);
    MoveIsNoRenegotiation(answered, d.move, hit);
    QuietDrop(Taken(d, accepts, hit), dropHit, dataPending);
  }

  // After a renegotiated position nothing -- no answer, queued move, data pending or further drop
  // command -- makes the drop path ask again before new drag data completes or another drag enters.
  lemma {:induction false} RenegotiationIsSpent(d: Drag, events: seq<Event>, spent: bool)
    requires Inv(d, false, spent) && UpToDate(d)
    requires forall i :: 0 <= i < |events| ==>
      !events[i].HostEnter? && !Completes(events[i])
    ensures Renegotiations(Run(d, events).talk.log) == Renegotiations(d.talk.log)
    decreases |events|
  {
    if events != [] {
      QuietStep(d, events[0], spent);
      StepKeepsInv(d, events[0], false, spent);
      RenegotiationIsSpent(Step(d, events[0]), events[1..], Spends(d, spent, events[0]));
    }
  }

  // A position from the drop path leaves the bridge in such a state.
  lemma RenegotiationBringsUpToDate(d: Drag, hit: Hit, dataPending: bool)
    requires Renegotiates(d, dataPending)
    ensures var r := DropDrag(d, hit, dataPending);
      Renegotiations(r.talk.log) != Renegotiations(d.talk.log) ==> UpToDate(r) && r.talk.positionPending
  {
    if hit.Over? {
      MovedSays(d.talk, hit, true, false);
      assert DropDrag(d, hit, dataPending).talk == Moved(d.talk, hit, true);
    }
  }

  // With no data pending and no queued move, the answer to it ends the drag: in a drop or a leave.
  lemma AnswerEndsTheDrag(d: Drag, hit: Hit, accepts: bool, dropHit: Hit)
    requires d.enabled && Renegotiates(d, false) && !d.moveQueued
    requires hit.Over? && hit.window != 0 && (hit.window == d.talk.target ==> hit.proxy == d.talk.proxy)
    ensures var asked := DropDrag(d, hit, false);
      var answered := Status(asked, asked.talk.target, accepts, Nowhere, dropHit, false);
      && asked.talk.positionPending && !answered.dropPending
      && answered.talk.log == asked.talk.log + [GotStatus(hit.window, accepts),
           if accepts then SentDrop(hit.window, hit.proxy) else SentLeave(hit.window, hit.proxy)]
  {
    var asked := DropDrag(d, hit, false);
    var t := Answer(asked.talk, accepts);
    assert asked.talk.target == hit.window && asked.talk.proxy == hit.proxy;
    assert asked.dropPending && asked.dataRevision == asked.positionRevision;
    assert Status(asked, asked.talk.target, accepts, Nowhere, dropHit, false).talk.log ==
      (if accepts then Drop(t) else Leave(t)).log;
  }

  // ---------- the bridge itself ----------

  // The variables of the bridge's drag half.  Every handler is proved to be the step of the same
  // name, so the theorems above are about these methods.
  class DragBridge {
    var enabled: bool
    var talk: Talk // dragTarget, dragProxy, dragAccepted, dragPositionPending; and the log
    var output: nat
    var version: nat
    var dropPending: bool
    var moveQueued: bool
    var move: Move
    var dataRevision: nat
    var positionRevision: nat
    ghost var past: History

    ghost function View(): Drag reads this {
      Drag(enabled, talk, output, version, dropPending, moveQueued, move, dataRevision, positionRevision, past)
    }

    constructor ()
      ensures View() == Init()
    {
      enabled, talk, output, version := false, Talk(0, 0, false, false, []), 0, 0;
      dropPending, moveQueued, move, dataRevision, positionRevision := false, false, Move(0, 0, 0, 0), 0, 0;
      past := History(0, 0, 0, 0);
    }

    method Send(item: Item)
      modifies this`talk
      ensures talk == old(talk).(log := old(talk).log + [item])
    {
      talk := talk.(log := talk.log + [item]);
    }

    method SwitchTarget(next: Window, proxy: Window)
      requires next != talk.target
      modifies this`talk
      ensures talk == Retarget(old(talk), next, proxy)
    {
      if talk.target != 0 {
        Send(SentLeave(talk.target, talk.proxy));
      }
      talk := talk.(target := next, proxy := if next != 0 then proxy else 0, accepted := false, positionPending := false);
      if next != 0 {
        Send(SentEnter(next, proxy));
      }
    }

    // again only marks the message in the log.
    method MoveTo(event: Move, hit: Hit, again: bool)
      modifies this
      ensures View() == MoveDrag(old(View()), event, hit, again)
    {
      move := event;
      if talk.positionPending {
        moveQueued := true;
        return;
      }
      if hit.Nowhere? { return; }
      if hit.window != talk.target {
        SwitchTarget(hit.window, hit.proxy);
        version := if hit.window != 0 then hit.version else version;
      }
      output := event.output;
      if talk.target != 0 {
        talk := talk.(positionPending := true);
        positionRevision := dataRevision;
        past := past.(known := past.completed);
        Send(SentPosition(talk.target, talk.proxy, again));
      }
    }

    method Reject()
      modifies this`dropPending, this`talk
      ensures View() == RejectDrag(old(View()))
    {
      dropPending := false;
      if talk.target != 0 {
        Send(SentLeave(talk.target, talk.proxy));
      }
      talk := talk.(target := 0);
    }

    method DropNow(hit: Hit, dataPending: bool)
      modifies this
      ensures View() == DropDrag(old(View()), hit, dataPending)
    {
      if talk.positionPending {
        dropPending := true;
        return;
      }
      if talk.target != 0 && !talk.accepted {
        if dataPending {
          dropPending := true;
          return;
        }
        if dataRevision != positionRevision {
          dropPending := true;
          MoveTo(move, hit, true);
          return;
        }
      }
      dropPending := false;
      if talk.target != 0 && talk.accepted {
        Send(SentDrop(talk.target, talk.proxy));
      } else {
        Reject();
      }
    }

    method Finished(current: bool, success: bool, hit: Hit, dataPending: bool)
      modifies this
      ensures View() == Step(old(View()), TransferFinished(current, success, hit, dataPending))
    {
      if !current || talk.target == 0 { return; }
      if success {
        dataRevision := Wrap32(dataRevision + 1);
        past := past.(completed := past.completed + 1);
      }
      if !dropPending { return; }
      if success {
        DropNow(hit, dataPending);
      } else {
        Reject();
      }
    }

    method StatusMessage(from: Window, accepts: bool, hit: Hit, dropHit: Hit, dataPending: bool)
      modifies this
      ensures View() == Step(old(View()), ClientStatus(from, accepts, hit, dropHit, dataPending))
    {
      if enabled && talk.target != 0 && from == talk.target {
        talk := talk.(positionPending := false, accepted := accepts);
        Send(GotStatus(from, accepts));
        if moveQueued {
          moveQueued := false;
          MoveTo(move, hit, false);
        }
        if dropPending {
          DropNow(dropHit, dataPending);
        }
      }
    }

    // dragTarget = None, with no message.
    method ForgetTarget()
      modifies this`talk
      ensures talk == Forget(old(talk))
    {
      if talk.target != 0 {
        Send(Forgotten);
      }
      talk := talk.(target := 0);
    }

    method FinishedMessage(from: Window)
      modifies this`talk
      ensures View() == Step(old(View()), ClientFinished(from))
    {
      if enabled && talk.target != 0 && from == talk.target {
        ForgetTarget();
      }
    }

    // dragMoveQueued = dragDropPending = dragPositionPending = FALSE
    method Settle()
      modifies this`talk, this`moveQueued, this`dropPending
      ensures View() == Quiesce(old(View()), old(talk))
    {
      moveQueued, dropPending := false, false;
      talk := talk.(positionPending := false);
    }

    method EnterCommand(on: nat, offered: bool)
      modifies this
      ensures View() == Step(old(View()), HostEnter(on, offered))
    {
      if !enabled || !offered { return; }
      ForgetTarget();
      output := on;
      talk := talk.(accepted := false);
      dataRevision, positionRevision := 0, 0;
      past := History(past.hostDrops, 0, 0, Renegotiations(old(talk).log));
      Settle();
    }

    method LeaveCommand()
      modifies this
      ensures View() == Step(old(View()), HostLeave)
    {
      if !enabled { return; }
      if talk.target != 0 {
        Send(SentLeave(talk.target, talk.proxy));
      }
      talk := talk.(target := 0, accepted := false);
      Settle();
    }

    method MoveOrDropCommand(e: Event)
      requires e.HostMove? || e.HostDrop?
      modifies this
      ensures View() == Step(old(View()), e)
    {
      if !enabled { return; }
      match e
      case HostMove(event, hit) => MoveTo(event, hit, false);
      case HostDrop(hit, dataPending) =>
        past := past.(hostDrops := past.hostDrops + 1);
        DropNow(hit, dataPending);
    }

    method FinishCommand()
      modifies this
      ensures View() == Step(old(View()), HostFinish)
    {
      if !enabled { return; }
      ForgetTarget();
      talk := talk.(accepted := false);
      Settle();
    }

    method DataReset()
      modifies this
      ensures View() == Step(old(View()), Reset)
    {
      enabled := false;
      ForgetTarget();
      Settle();
    }
  }
}
