/**
 The per-client resource channel: a request goes out, a reply comes back with two descriptors, and
 the X client that asked picks them up.  One record is modelled; records share nothing.

 The socket decides what a packet carries and which calls fail; the X server decides when a
 callback or a request runs.  A callback runs only while it is registered, and a timer only while
 it is armed.
 */
module ResourceChannel {

  const EAGAIN: int := -11
  const ENOMEM: int := -12
  const EPIPE: int := -32
  const EPROTO: int := -71
  const ENOTSUP: int := -95
  const ETIMEDOUT: int := -110

  type Errno = e: int | e < 0 witness -1

  datatype Request = Request(id: nat, readonly: bool)

  datatype Reply = Reply(error: int, reserved: int, size: nat)

  // Descriptors ever installed by the kernel, and what became of them.
  datatype Files = Files(count: nat, closed: multiset<nat>, handed: multiset<nat>)

  datatype Notify = Off | Writable | Readable

  datatype Channel = Channel(
    open: bool, notify: Notify, armed: bool, pending: bool, ready: bool, sent: bool,
    rights: seq<nat>, request: Request, reply: Reply)

  // answered is the request that was in force when the rights arrived.
  datatype State = State(live: bool, ch: Channel, files: Files, answered: Request)

  datatype Control = Rights(n: nat) | Foreign

  // What recvmsg returned.
  datatype Packet =
    | Retry                                        // EINTR or EAGAIN
    | Failed(errno: Errno)                         // another error
    | Data(whole: bool, truncated: bool, control: seq<Control>, reply: Reply)

  datatype Sent = All | Later | Broken

  datatype Event =
    | Call(request: Request, timerWorks: bool, notifyWorks: bool)
    | Progress(send: Sent, notifyWorks: bool, packet: Packet)
    | Expire
    | ClientGone

  // ---------- descriptors ----------

  function CloseOne(f: Files, d: nat): Files { f.(closed := f.closed + multiset{d}) }

  function CloseAll(f: Files, held: seq<nat>): Files { f.(closed := f.closed + multiset(held)) }

  datatype Got = Got(files: Files, fds: seq<nat>, malformed: bool)

  // One more descriptor out of a rights message: the first two are kept.
  function Install(g: Got): Got {
    var d := g.files.count;
    var f := g.files.(count := d + 1);
    if |g.fds| < 2 then Got(f, g.fds + [d], g.malformed) else Got(CloseOne(f, d), g.fds, true)
  }

  function InstallAll(g: Got, n: nat): Got
    decreases n
  {
    if n == 0 then g else InstallAll(Install(g), n - 1)
  }

  function Collect(g: Got, control: seq<Control>): Got
    decreases |control|
  {
    if control == [] then g
    else
      match control[0]
      case Foreign => Collect(g.(malformed := true), control[1..])
      case Rights(n) => Collect(InstallAll(g, n), control[1..])
  }

  // receive(): every malformed or truncated packet closes what it brought.
  function Receive(f: Files, p: Packet): Got
    requires p.Data?
  {
    var g := Collect(Got(f, [], p.truncated), p.control);
    if g.malformed || !p.whole then Got(CloseAll(g.files, g.fds), [], true) else g
  }

  // ---------- the record ----------

  function Disconnect(c: Channel): Channel { if c.open then c.(open := false, notify := Off) else c }

  function Finish(s: State, error: int): State {
    var c := s.ch.(armed := false, notify := Off, ready := true);
    if error != 0 then
      s.(ch := Disconnect(c).(rights := [], reply := Reply(error, 0, 0)), files := CloseAll(s.files, c.rights))
    else s.(ch := c)
  }

  // A refusal carries nothing; a success carries two descriptors and a size.
  predicate WellFormed(r: Reply, fds: seq<nat>) {
    && -4095 <= r.error <= 0 && r.reserved == 0
    && if r.error != 0 then fds == [] && r.size == 0 else |fds| == 2 && r.size != 0
  }

  function Incoming(s: State, p: Packet): State {
    match p
    case Retry => s.(ch := s.ch.(rights := []))
    case Failed(errno) => Finish(s.(ch := s.ch.(rights := [])), errno)
    case Data(_, _, _, _) => IncomingData(s, p)
  }

  function IncomingData(s: State, p: Packet): State
    requires p.Data?
  {
    var g := Receive(s.files, p);
    var s := State(s.live, s.ch.(rights := g.fds, reply := p.reply), g.files, s.ch.request);
    Finish(s, if g.malformed || !WellFormed(p.reply, g.fds) then EPROTO else 0)
  }

  function ProgressStep(s: State, send: Sent, notifyWorks: bool, p: Packet): State {
    if s.ch.sent then Incoming(s, p)
    else if send.Later? then s
    else if send.Broken? then Finish(s, EPIPE)
    else if !notifyWorks then Finish(s.(ch := s.ch.(sent := true, notify := Off)), ENOMEM)
    else Incoming(s.(ch := s.ch.(sent := true, notify := Readable)), p)
  }

  datatype Outcome = Outcome(error: int, fds: seq<nat>, size: nat)

  function CallResult(s: State, q: Request, timerWorks: bool, notifyWorks: bool): Outcome {
    if !s.live then Outcome(ENOTSUP, [], 0)
    else if s.ch.ready then
      if s.ch.request != q then Outcome(EPROTO, [], 0)
      else if s.ch.reply.error != 0 then Outcome(s.ch.reply.error, [], 0)
      else Outcome(0, s.ch.rights, s.ch.reply.size)
    else if !s.ch.open then Outcome(EPIPE, [], 0)
    else if s.ch.pending || (timerWorks && notifyWorks) then Outcome(EAGAIN, [], 0)
    else Outcome(ENOMEM, [], 0)
  }

  function CallStep(s: State, q: Request, timerWorks: bool, notifyWorks: bool): State {
    if !s.live then s
    else if s.ch.ready then
      var c := s.ch.(ready := false, pending := false);
      if c.request != q then s.(ch := Disconnect(c).(rights := []), files := CloseAll(s.files, c.rights))
      else if c.reply.error != 0 then s.(ch := c)
      else s.(ch := c.(rights := []), files := s.files.(handed := s.files.handed + multiset(c.rights)))
    else if !s.ch.open || s.ch.pending then s
    else
      var c := s.ch.(request := q, sent := false, armed := timerWorks);
      if !timerWorks || !notifyWorks then s.(ch := Disconnect(c))
      else s.(ch := c.(notify := Writable, pending := true))
  }

  function GoneStep(s: State): State {
    if !s.live then s
    else
      s.(live := false, ch := Disconnect(s.ch).(armed := false, rights := []), files := CloseAll(s.files, s.ch.rights))
  }

  function Step(s: State, e: Event): State {
    match e
    case Call(q, timerWorks, notifyWorks) => CallStep(s, q, timerWorks, notifyWorks)
    case Progress(send, notifyWorks, p) =>
      if s.live && !s.ch.notify.Off? then ProgressStep(s, send, notifyWorks, p) else s
    case Expire => if s.live && s.ch.armed then Finish(s.(ch := s.ch.(armed := false)), ETIMEDOUT) else s
    case ClientGone => GoneStep(s)
  }

  function Run(s: State, events: seq<Event>): State
    decreases |events|
  {
    if events == [] then s else Run(Step(s, events[0]), events[1..])
  }

  const NOBODY := Request(0, false)

  function Init(): State {
    State(true, Channel(true, Off, false, false, false, false, [], NOBODY, Reply(0, 0, 0)),
          Files(0, multiset{}, multiset{}), NOBODY)
  }

  // ---------- where the descriptors are ----------

  function Held(fds: seq<nat>, d: nat): nat { multiset(fds)[d] }

  // Each is closed once, handed over once, or held once.
  ghost predicate Accounted(f: Files, fds: seq<nat>, d: nat) {
    f.closed[d] + f.handed[d] + Held(fds, d) == if d < f.count then 1 else 0
  }

  ghost predicate FilesOk(f: Files, fds: seq<nat>) { forall d :: Accounted(f, fds, d) }

  lemma InstallKeeps(g: Got)
    requires FilesOk(g.files, g.fds)
    ensures FilesOk(Install(g).files, Install(g).fds)
  {
    var r := Install(g);
    forall d ensures Accounted(r.files, r.fds, d) {
      assert Accounted(g.files, g.fds, d);
      HeldSnoc(g.fds, g.files.count, d);
    }
  }

  lemma HeldSnoc(fds: seq<nat>, x: nat, d: nat)
    ensures Held(fds + [x], d) == Held(fds, d) + if x == d then 1 else 0
  {}

  lemma {:induction false} InstallAllKeeps(g: Got, n: nat)
    requires FilesOk(g.files, g.fds) && |g.fds| <= 2
    ensures var r := InstallAll(g, n);
      FilesOk(r.files, r.fds) && |r.fds| <= 2 && r.files.handed == g.files.handed
    decreases n
  {
    if n > 0 {
      InstallKeeps(g);
      InstallAllKeeps(Install(g), n - 1);
    }
  }

  lemma {:induction false} CollectKeeps(g: Got, control: seq<Control>)
    requires FilesOk(g.files, g.fds) && |g.fds| <= 2
    ensures var r := Collect(g, control);
      FilesOk(r.files, r.fds) && |r.fds| <= 2 && r.files.handed == g.files.handed
    decreases |control|
  {
    if control != [] {
      match control[0]
      case Foreign => CollectKeeps(g.(malformed := true), control[1..]);
      case Rights(n) =>
        InstallAllKeeps(g, n);
        CollectKeeps(InstallAll(g, n), control[1..]);
    }
  }

  lemma CloseAllKeeps(f: Files, fds: seq<nat>)
    requires FilesOk(f, fds)
    ensures FilesOk(CloseAll(f, fds), [])
  {
    forall d ensures Accounted(CloseAll(f, fds), [], d) {
      assert Accounted(f, fds, d);
    }
  }

  lemma HandKeeps(f: Files, fds: seq<nat>)
    requires FilesOk(f, fds)
    ensures FilesOk(f.(handed := f.handed + multiset(fds)), [])
  {
    var after := f.(handed := f.handed + multiset(fds));
    forall d ensures Accounted(after, [], d) {
      assert Accounted(f, fds, d);
    }
  }

  // Every descriptor of a packet is kept, one of two, or closed.
  lemma ReceiveKeeps(f: Files, p: Packet)
    requires FilesOk(f, []) && p.Data?
    ensures var g := Receive(f, p);
      FilesOk(g.files, g.fds) && |g.fds| <= 2 && (g.malformed ==> g.fds == []) && g.files.handed == f.handed
  {
    CollectKeeps(Got(f, [], p.truncated), p.control);
    var g := Collect(Got(f, [], p.truncated), p.control);
    CloseAllKeeps(g.files, g.fds);
  }

  // ---------- the invariant ----------

  // Rights are held only between a successful reply and its pick-up, both or none, for the request
  // still recorded; while they are, nothing can overwrite them.
  ghost predicate RecordOk(s: State) {
    && (s.ch.rights != [] ==>
          && s.live && s.ch.ready && s.ch.open && s.ch.reply.error == 0 && |s.ch.rights| == 2
          && s.ch.request == s.answered)
    && (s.ch.ready ==> s.ch.notify.Off? && !s.ch.armed)
    && (s.live && s.ch.ready && s.ch.reply.error == 0 ==> |s.ch.rights| == 2)
    && (!s.ch.open ==> s.ch.notify.Off? && s.ch.rights == [])
    && (!s.live ==> s.ch.rights == [] && !s.ch.open)
    && (!s.ch.notify.Off? ==> s.ch.pending && !s.ch.ready)
    && (s.ch.pending && !s.ch.ready && s.live ==> s.ch.open)
  }

  ghost predicate Inv(s: State) { FilesOk(s.files, s.ch.rights) && RecordOk(s) }

  lemma FinishKeeps(s: State, error: int)
    requires FilesOk(s.files, s.ch.rights) && s.live
    requires error == 0 ==> s.ch.open && WellFormed(s.ch.reply, s.ch.rights) && s.ch.request == s.answered
    ensures Inv(Finish(s, error))
  {
    CloseAllKeeps(s.files, s.ch.rights);
  }

  lemma IncomingKeeps(s: State, p: Packet)
    requires FilesOk(s.files, []) && RecordOk(s) && s.ch.rights == [] && s.live && !s.ch.notify.Off?
    ensures Inv(Incoming(s, p))
  {
    match p
    case Retry => assert s.ch.(rights := []) == s.ch;
    case Failed(errno) => FinishKeeps(s.(ch := s.ch.(rights := [])), errno);
    case Data(_, _, _, reply) =>
      ReceiveKeeps(s.files, p);
      var g := Receive(s.files, p);
      var t := State(s.live, s.ch.(rights := g.fds, reply := reply), g.files, s.ch.request);
      FinishKeeps(t, if g.malformed || !WellFormed(reply, g.fds) then EPROTO else 0);
  }

  lemma ProgressKeeps(s: State, send: Sent, notifyWorks: bool, p: Packet)
    requires Inv(s) && s.live && !s.ch.notify.Off?
    ensures Inv(ProgressStep(s, send, notifyWorks, p))
  {
    if s.ch.sent {
      IncomingKeeps(s, p);
    } else {
      FinishKeeps(s, EPIPE);
      FinishKeeps(s.(ch := s.ch.(sent := true, notify := Off)), ENOMEM);
      IncomingKeeps(s.(ch := s.ch.(sent := true, notify := Readable)), p);
    }
  }

  lemma CallKeeps(s: State, q: Request, timerWorks: bool, notifyWorks: bool)
    requires Inv(s)
    ensures Inv(CallStep(s, q, timerWorks, notifyWorks))
  {
    CloseAllKeeps(s.files, s.ch.rights);
    HandKeeps(s.files, s.ch.rights);
  }

  lemma StepKeepsInv(s: State, e: Event)
    requires Inv(s)
    ensures Inv(Step(s, e))
  {
    match e
    case Call(q, timerWorks, notifyWorks) => CallKeeps(s, q, timerWorks, notifyWorks);
    case Progress(send, notifyWorks, p) =>
      if s.live && !s.ch.notify.Off? {
        ProgressKeeps(s, send, notifyWorks, p);
      }
    case Expire =>
      if s.live {
        FinishKeeps(s.(ch := s.ch.(armed := false)), ETIMEDOUT);
      }
    case ClientGone => CloseAllKeeps(s.files, s.ch.rights);
  }

  lemma {:induction false} RunKeepsInv(s: State, events: seq<Event>)
    requires Inv(s)
    ensures Inv(Run(s, events))
    decreases |events|
  {
    if events != [] {
      StepKeepsInv(s, events[0]);
      RunKeepsInv(Step(s, events[0]), events[1..]);
    }
  }

  // ---------- over every run ----------

  // Every descriptor the kernel installed is closed exactly once, handed over exactly once, or held.
  lemma DescriptorsAreAccounted(events: seq<Event>, d: nat)
    ensures var s := Run(Init(), events);
      s.files.closed[d] + s.files.handed[d] + Held(s.ch.rights, d) == if d < s.files.count then 1 else 0
  {
    RunKeepsInv(Init(), events);
    var s := Run(Init(), events);
    assert Accounted(s.files, s.ch.rights, d);
  }

  // Rights are held only between a successful reply and its pick-up, and then both of them.
  lemma RightsOnlyBetweenReplyAndPickUp(events: seq<Event>)
    ensures var s := Run(Init(), events);
      s.ch.rights != [] <==> s.live && s.ch.ready && s.ch.reply.error == 0
  {
    RunKeepsInv(Init(), events);
  }

  // A call that succeeds gets both descriptors of the reply to its own request, and nobody else's; a
  // call that does not gets none, and no call changes what others were handed.
  lemma HandedToTheCallerWhoAsked(events: seq<Event>, q: Request, timerWorks: bool, notifyWorks: bool)
    ensures var s := Run(Init(), events);
      var r := CallResult(s, q, timerWorks, notifyWorks);
      var t := CallStep(s, q, timerWorks, notifyWorks);
      && (r.error == 0 ==> |r.fds| == 2 && r.fds == s.ch.rights && q == s.answered == s.ch.request && t.ch.rights == [])
      && (r.error != 0 ==> r.fds == [])
      && t.files.handed == s.files.handed + multiset(r.fds)
  {
    RunKeepsInv(Init(), events);
  }

  // Nothing but a call hands a descriptor over.
  lemma OnlyCallsHandOver(s: State, e: Event)
    requires Inv(s) && !e.Call?
    ensures Step(s, e).files.handed == s.files.handed
  {
    if e.Progress? && e.packet.Data? && s.live && !s.ch.notify.Off? {
      ReceiveKeeps(s.files, e.packet);
    }
  }

  // A timeout, a broken socket or a malformed reply closes the channel.
  lemma FailuresClose(s: State, send: Sent, notifyWorks: bool, p: Packet)
    requires Inv(s) && s.live
    ensures s.ch.armed ==> !Step(s, Expire).ch.open
    ensures !s.ch.notify.Off? && s.ch.sent && p.Failed? ==> !Step(s, Progress(send, notifyWorks, p)).ch.open
    ensures !s.ch.notify.Off? && s.ch.sent && p.Data? ==>
      (Step(s, Progress(send, notifyWorks, p)).ch.open <==>
        var g := Receive(s.files, p); !g.malformed && WellFormed(p.reply, g.fds))
  {}

  lemma ClosedStaysClosed(s: State, e: Event)
    requires Inv(s) && !s.ch.open
    ensures !Step(s, e).ch.open && Step(s, e).files == s.files
  {
    CloseNothing(s.files);
  }

  lemma CloseNothing(f: Files)
    ensures CloseAll(f, []) == f
  {}

  // On a closed channel no later packet can satisfy a request: no call ever succeeds again.
  lemma {:induction false} ClosedForGood(s: State, events: seq<Event>, q: Request, timerWorks: bool, notifyWorks: bool)
    requires Inv(s) && !s.ch.open
    ensures var t := Run(s, events);
      && !t.ch.open && t.files == s.files
      && CallResult(t, q, timerWorks, notifyWorks).error != 0
    decreases |events|
  {
    if events != [] {
      ClosedStaysClosed(s, events[0]);
      StepKeepsInv(s, events[0]);
      ClosedForGood(Step(s, events[0]), events[1..], q, timerWorks, notifyWorks);
    }
  }

  // A request whose callback cannot be registered fails at once but leaves its timer armed; the
  // expiry then reports a reply nobody waits for, and hands out nothing.
  lemma OrphanTimerIsHarmless(s: State, q: Request)
    requires Inv(s) && s.live && s.ch.open && !s.ch.ready && !s.ch.pending
    ensures CallResult(s, q, true, false).error == ENOMEM
    ensures var t := Step(CallStep(s, q, true, false), Expire);
      && t.ch.ready && !t.ch.pending && !t.ch.open && t.ch.rights == []
      && CallResult(t, q, true, true).error == ETIMEDOUT
  {}

  // ---------- the record itself ----------

  class ResourceClient {
    var live: bool
    var ch: Channel
    var files: Files
    ghost var answered: Request

    ghost function View(): State reads this { State(live, ch, files, answered) }

    constructor ()
      ensures View() == Init()
    {
      live, answered := true, NOBODY;
      ch := Channel(true, Off, false, false, false, false, [], NOBODY, Reply(0, 0, 0));
      files := Files(0, multiset{}, multiset{});
    }

    // The loops over control messages and the descriptors in each.
    method ReceivePacket(p: Packet) returns (fds: seq<nat>, error: bool)
      requires p.Data?
      modifies this`files
      ensures Got(files, fds, error) == Receive(old(files), p)
    {
      fds, error := [], p.truncated;
      var i := 0;
      while i < |p.control|
        invariant i <= |p.control|
        invariant Collect(Got(old(files), [], p.truncated), p.control) ==
          Collect(Got(files, fds, error), p.control[i..])
      {
        match p.control[i] {
          case Foreign => error := true;
          case Rights(n) =>
            var k := n;
            ghost var before := Got(files, fds, error);
            while k > 0
              invariant InstallAll(before, n) == InstallAll(Got(files, fds, error), k)
            {
              var received := files.count;
              files := files.(count := received + 1);
              if |fds| < 2 {
                fds := fds + [received];
              } else {
                files := CloseOne(files, received);
                error := true;
              }
              k := k - 1;
            }
        }
        i := i + 1;
      }
      if !p.whole {
        error := true;
      }
      if error {
        files := CloseAll(files, fds);
        fds := [];
      }
    }

    method Hangup()
      modifies this`ch
      ensures ch == Disconnect(old(ch))
    {
      if ch.open {
        ch := ch.(open := false, notify := Off);
      }
    }

    method Done(error: int)
      modifies this`ch, this`files
      ensures View() == Finish(old(View()), error)
    {
      var c := ch.(armed := false, notify := Off);
      if error != 0 {
        files := CloseAll(files, c.rights);
        c := c.(open := false, rights := [], reply := Reply(error, 0, 0));
      }
      ch := c.(ready := true);
    }

    method OnProgress(send: Sent, notifyWorks: bool, p: Packet)
      requires live && !ch.notify.Off?
      modifies this
      ensures View() == Step(old(View()), Progress(send, notifyWorks, p))
    {
      if !ch.sent {
        if send.Later? { return; }
        if send.Broken? {
          Done(EPIPE);
          return;
        }
        ch := ch.(sent := true);
        if !notifyWorks {
          ch := ch.(notify := Off);
          Done(ENOMEM);
          return;
        }
        ch := ch.(notify := Readable);
      }
      OnReadable(p);
    }

    method OnReadable(p: Packet)
      modifies this`ch, this`files, this`answered
      ensures View() == Incoming(old(View()), p)
    {
      ch := ch.(rights := []);
      match p
      case Retry =>
      case Failed(errno) => Done(errno);
      case Data(_, _, _, _) => OnData(p);
    }

    method OnData(p: Packet)
      requires p.Data?
      modifies this`ch, this`files, this`answered
      ensures View() == IncomingData(old(View()), p)
    {
      var fds, error := ReceivePacket(p);
      ch := ch.(rights := fds, reply := p.reply);
      answered := ch.request;
      var verdict := if error || !WellFormed(p.reply, fds) then EPROTO else 0;
      Done(verdict);
    }

    method Shm(q: Request, timerWorks: bool, notifyWorks: bool) returns (r: Outcome)
      modifies this
      ensures r == CallResult(old(View()), q, timerWorks, notifyWorks)
      ensures View() == Step(old(View()), Call(q, timerWorks, notifyWorks))
    {
      if !live { return Outcome(ENOTSUP, [], 0); }
      if ch.ready {
        ch := ch.(ready := false, pending := false);
        if ch.request != q {
          Hangup();
          files := CloseAll(files, ch.rights);
          ch := ch.(rights := []);
          return Outcome(EPROTO, [], 0);
        }
        if ch.reply.error != 0 { return Outcome(ch.reply.error, [], 0); }
        r := Outcome(0, ch.rights, ch.reply.size);
        files := files.(handed := files.handed + multiset(ch.rights));
        ch := ch.(rights := []);
        return;
      }
      if !ch.open { return Outcome(EPIPE, [], 0); }
      if ch.pending { return Outcome(EAGAIN, [], 0); }
      ch := ch.(request := q, sent := false, armed := timerWorks);
      if !timerWorks || !notifyWorks {
        Hangup();
        return Outcome(ENOMEM, [], 0);
      }
      ch := ch.(notify := Writable, pending := true);
      return Outcome(EAGAIN, [], 0);
    }

    method OnExpired()
      requires live && ch.armed
      modifies this
      ensures View() == Step(old(View()), Expire)
    {
      ch := ch.(armed := false);
      Done(ETIMEDOUT);
    }

    method OnClientGone()
      modifies this
      ensures View() == Step(old(View()), ClientGone)
    {
      if !live { return; }
      live := false;
      Hangup();
      files := CloseAll(files, ch.rights);
      ch := ch.(armed := false, rights := []);
    }
  }
}
