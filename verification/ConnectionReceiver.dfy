/**
 The host's receiving half of the connection: a fixed-size header, then for some events a payload,
 read from a stream socket in whatever pieces it yields.

 Where fields sit inside a header or a payload is the layout's business and a parameter; so is what
 recv returns.  A descriptor travels with a byte of its own, which the receiver takes with a blocking
 call.
 */
module ConnectionReceiver {

  type Byte = b: int | 0 <= b < 256

  const LORIE_SHELL_INPUT_LIMIT: nat := 128
  const LORIE_CURSOR_SIZE_LIMIT: nat := 512
  const MIME_SIZE: nat := 128
  const DESCRIPTOR_BYTE: Byte := 33 // '!'

  datatype CursorInfo = CursorInfo(kind: nat, width: nat, height: nat, hotspotX: nat, hotspotY: nat)

  // The fields the receiver looks at; body is everything else the callback is given.
  datatype Header =
    | Window(hasIcon: bool, body: seq<Byte>)
    | Cursor(output: nat, info: CursorInfo, body: seq<Byte>)
    | Shell(removed: bool, body: seq<Byte>)
    | Family(body: seq<Byte>)
    | Data(hasFd: bool, mime: seq<Byte>, body: seq<Byte>)
    | SharedState(body: seq<Byte>)
    | Note(tag: nat, body: seq<Byte>)    // answered by a callback on the header alone
    | Ignored
    | Unknown

  // Headers and payload structures as bytes: how the host reads them, how the server writes them.
  datatype Layout = Layout(
    headerSize: nat, iconSize: nat, shellSize: nat, familySize: nat,
    read: seq<Byte> -> Header, write: Header -> seq<Byte>,
    shellInputs: seq<Byte> -> nat, familyInputs: seq<Byte> -> nat,
    writeShell: (nat, seq<Byte>) -> seq<Byte>, writeFamily: (nat, seq<Byte>) -> seq<Byte>)

  // Which optional callbacks the embedding supplied.
  datatype Handlers = Handlers(cursor: bool, shell: bool, family: bool, notes: nat -> bool)

  datatype Callback =
    | OnWindow(h: Header, icon: seq<Byte>)
    | OnCursor(h: Header, pixels: seq<Byte>)
    | OnShell(h: Header, info: seq<Byte>)
    | OnFamily(h: Header, info: seq<Byte>)
    | OnData(h: Header)
    | OnSharedState
    | OnNote(h: Header)
    | Disconnected

  // ---------- what one message means ----------

  // kind 0 is the default cursor, 1 hidden, 2 an image
  predicate CursorValid(i: CursorInfo) {
    if i.kind == 0 || i.kind == 1 then i.width == 0 && i.height == 0 && i.hotspotX == 0 && i.hotspotY == 0
    else
      && i.kind == 2 && 0 < i.width <= LORIE_CURSOR_SIZE_LIMIT && 0 < i.height <= LORIE_CURSOR_SIZE_LIMIT
      && i.hotspotX < i.width && i.hotspotY < i.height
  }

  function CursorBytes(i: CursorInfo): nat { if CursorValid(i) then i.width * i.height * 4 else 0 }

  predicate Rejected(h: Header) { h.Unknown? || (h.Cursor? && (h.output == 0 || !CursorValid(h.info))) }

  function PayloadSize(l: Layout, h: Header): nat {
    match h
    case Window(hasIcon, _) => if hasIcon then l.iconSize else 0
    case Cursor(_, info, _) => CursorBytes(info)
    case Shell(removed, _) => if removed then 0 else l.shellSize
    case Family(_) => l.familySize
    case Data(hasFd, _, _) => if hasFd then 1 else 0
    case SharedState(_) => 1
    case _ => 0
  }

  predicate PayloadBad(l: Layout, h: Header, payload: seq<Byte>) {
    || (h.Shell? && !h.removed && l.shellInputs(payload) > LORIE_SHELL_INPUT_LIMIT)
    || (h.Family? && l.familyInputs(payload) > LORIE_SHELL_INPUT_LIMIT)
    || (h.Data? && (0 !in h.mime || (h.hasFd && payload != [DESCRIPTOR_BYTE])))
    || (h.SharedState? && payload != [DESCRIPTOR_BYTE])
  }

  function Calls(w: Handlers, h: Header, payload: seq<Byte>): seq<Callback> {
    match h
    case Window(_, _) => [OnWindow(h, payload)]
    case Cursor(_, _, _) => if w.cursor then [OnCursor(h, payload)] else []
    case Shell(_, _) => if w.shell then [OnShell(h, payload)] else []
    case Family(_) => if w.family then [OnFamily(h, payload)] else []
    case Data(_, _, _) => [OnData(h)]
    case SharedState(_) => [OnSharedState]
    case Note(tag, _) => if w.notes(tag) then [OnNote(h)] else []
    case _ => []
  }

  // ---------- whole-message decoding ----------

  datatype First = More | Bad | Whole(size: nat, calls: seq<Callback>)

  function FirstOf(l: Layout, w: Handlers, bytes: seq<Byte>): (f: First)
    ensures f.Whole? ==> l.headerSize <= f.size <= |bytes|
  {
    if |bytes| < l.headerSize then More
    else
      var h := l.read(bytes[..l.headerSize]);
      var size := l.headerSize + PayloadSize(l, h);
      if Rejected(h) then Bad
      else if |bytes| < size then More
      else if PayloadBad(l, h, bytes[l.headerSize..size]) then Bad
      else Whole(size, Calls(w, h, bytes[l.headerSize..size]))
  }

  datatype Outcome = Outcome(calls: seq<Callback>, rest: seq<Byte>, alive: bool)

  // Message after message, until the bytes run out in the middle of one or one is refused.
  function Decode(l: Layout, w: Handlers, bytes: seq<Byte>): Outcome
    requires l.headerSize > 0
    decreases |bytes|
  {
    match FirstOf(l, w, bytes)
    case More => Outcome([], bytes, true)
    case Bad => Outcome([Disconnected], [], false)
    case Whole(size, calls) =>
      var o := Decode(l, w, bytes[size..]);
      o.(calls := calls + o.calls)
  }

  // ---------- the receiver ----------

  // One of the four kinds of payload that may come in pieces: whether it is awaited, and what has come.
  datatype Part = Part(pending: bool, got: seq<Byte>)

  const IDLE := Part(false, [])

  datatype Parts = Parts(window: Part, cursor: Part, shell: Part, family: Part)

  const ALL_IDLE := Parts(IDLE, IDLE, IDLE, IDLE)

  datatype Receiver = Receiver(
    open: bool, partial: seq<Byte>, header: Header, raw: seq<Byte>, parts: Parts, capacity: nat,
    calls: seq<Callback>)

  // What recv did: took at most so many bytes, nothing yet, or the connection is gone; or there was
  // no memory for what the receiver had to allocate or map.  A blocking call that brings anything
  // but one byte with one descriptor is Gone.
  datatype Recv = Took(bytes: seq<Byte>) | Again | Gone | NoMemory

  const CLOSED := Receiver(false, [], Ignored, [], ALL_IDLE, 0, [])

  function Drop(s: Receiver): Receiver {
    s.(open := false, partial := [], parts := ALL_IDLE, calls := s.calls + [Disconnected])
  }

  predicate Waits(p: Parts) { p.window.pending || p.cursor.pending || p.shell.pending || p.family.pending }

  predicate Awaiting(s: Receiver) { Waits(s.parts) }

  function PartOf(s: Receiver): Part {
    if s.parts.window.pending then s.parts.window
    else if s.parts.cursor.pending then s.parts.cursor
    else if s.parts.shell.pending then s.parts.shell
    else s.parts.family
  }

  function WithPart(parts: Parts, h: Header, p: Part): Parts {
    match h
    case Window(_, _) => parts.(window := p)
    case Cursor(_, _, _) => parts.(cursor := p)
    case Shell(_, _) => parts.(shell := p)
    case Family(_) => parts.(family := p)
    case _ => parts
  }

  // The payload of the current header is awaited with these bytes so far.
  function SetPart(s: Receiver, p: Part): Receiver { s.(parts := WithPart(s.parts, s.header, p)) }

  function Complete(l: Layout, w: Handlers, s: Receiver, payload: seq<Byte>): Receiver {
    if PayloadBad(l, s.header, payload) then Drop(s)
    else SetPart(s, IDLE).(calls := s.calls + Calls(w, s.header, payload))
  }

  // receiveWindow, receiveCursor, receiveShell, receiveFamily: one recv, unless nothing is needed.
  function Payload(l: Layout, w: Handlers, s: Receiver, got: seq<Byte>, r: Recv): Receiver {
    var need := PayloadSize(l, s.header);
    if |got| >= need then Complete(l, w, s, got)
    else
      match r
      case Again => s
      case Took(bytes) =>
        if bytes == [] then Drop(s)
        else if |got + bytes| != need then SetPart(s, Part(true, got + bytes))
        else Complete(l, w, s, got + bytes)
      case _ => Drop(s)
  }

  // A payload that may come in pieces, one whose descriptor is waited for, or none.
  predicate Piecewise(h: Header) { h.Window? || h.Cursor? || h.Shell? || h.Family? }
  predicate Blocks(h: Header) { (h.Data? && h.hasFd) || h.SharedState? }

  // ancil_recv_fd waits for its byte, then the event is complete.
  function Descriptor(l: Layout, w: Handlers, s: Receiver, r: Recv): Receiver {
    if !r.Took? || r.bytes == [] then Drop(s) else Complete(l, w, s, r.bytes)
  }

  // Whether the buffer for a cursor's pixels has to grow.
  predicate Grows(l: Layout, s: Receiver) { s.header.Cursor? && PayloadSize(l, s.header) > s.capacity }

  // A payload is awaited from now on; a cursor gets a buffer that holds it.
  function Await(l: Layout, s: Receiver): Receiver {
    SetPart(if Grows(l, s) then s.(capacity := PayloadSize(l, s.header)) else s, Part(true, []))
  }

  function Begin(l: Layout, w: Handlers, s: Receiver, r: Recv): Receiver {
    if Rejected(s.header) then Drop(s)
    else if Piecewise(s.header) then
      if Grows(l, s) && r.NoMemory? then Drop(s) else Payload(l, w, Await(l, s), [], r)
    else if Blocks(s.header) then Descriptor(l, w, s, r)
    else Complete(l, w, s, [])
  }

  function HeaderRead(l: Layout, s: Receiver): Receiver {
    s.(header := l.read(s.partial), raw := s.partial, partial := [])
  }

  // How much the next recv may take.
  function Want(l: Layout, s: Receiver): int {
    if Awaiting(s) then PayloadSize(l, s.header) - |PartOf(s).got| else l.headerSize - |s.partial|
  }

  // receive() with input ready: a payload if one is awaited, else the header, and then its payload.
  function Ready(l: Layout, w: Handlers, s: Receiver, first: Recv, second: Recv): Receiver {
    if !s.open then s
    else if Awaiting(s) then Payload(l, w, s, PartOf(s).got, first)
    else
      match first
      case Again => s
      case Took(bytes) =>
        if bytes == [] then Drop(s)
        else
          var s := s.(partial := s.partial + bytes);
          if |s.partial| != l.headerSize then s else Begin(l, w, HeaderRead(l, s), second)
      case _ => Drop(s)
  }

  // ---------- what a delivery takes off the stream ----------

  function Bytes(r: Recv): seq<Byte> { if r.Took? then r.bytes else [] }

  // The header is complete after this and asks for more.
  predicate NeedsSecond(l: Layout, partial: seq<Byte>) {
    |partial| == l.headerSize && !Rejected(l.read(partial)) && PayloadSize(l, l.read(partial)) > 0
  }

  function Taken(l: Layout, s: Receiver, first: Recv, second: Recv): seq<Byte> {
    if !s.open then []
    else if Awaiting(s) || Bytes(first) == [] || !NeedsSecond(l, s.partial + Bytes(first)) then Bytes(first)
    else Bytes(first) + Bytes(second)
  }

  // recv never returns more than was asked for, and a blocking one never puts it off.
  predicate SecondFits(l: Layout, h: Header, r: Recv) {
    |Bytes(r)| <= PayloadSize(l, h) && (Blocks(h) ==> !r.Again?)
  }

  predicate Fits(l: Layout, s: Receiver, first: Recv, second: Recv) {
    && |Bytes(first)| <= Want(l, s)
    && (!Awaiting(s) && NeedsSecond(l, s.partial + Bytes(first)) ==>
          SecondFits(l, l.read(s.partial + Bytes(first)), second))
  }

  datatype Delivery = Delivery(first: Recv, second: Recv)

  function Run(l: Layout, w: Handlers, s: Receiver, script: seq<Delivery>): Receiver
    decreases |script|
  {
    if script == [] then s else Run(l, w, Ready(l, w, s, script[0].first, script[0].second), script[1..])
  }

  function Consumed(l: Layout, w: Handlers, s: Receiver, script: seq<Delivery>): seq<Byte>
    decreases |script|
  {
    if script == [] then []
    else
      Taken(l, s, script[0].first, script[0].second)
      + Consumed(l, w, Ready(l, w, s, script[0].first, script[0].second), script[1..])
  }

  predicate AllFit(l: Layout, w: Handlers, s: Receiver, script: seq<Delivery>)
    decreases |script|
  {
    script == []
    || (Fits(l, s, script[0].first, script[0].second)
        && AllFit(l, w, Ready(l, w, s, script[0].first, script[0].second), script[1..]))
  }

  function Connected(capacity: nat): Receiver { CLOSED.(open := true, capacity := capacity) }

  // ---------- the invariant ----------

  predicate Sized(l: Layout) { l.headerSize > 0 && l.iconSize > 0 && l.shellSize > 0 && l.familySize > 0 }

  function Pending(s: Receiver): seq<Byte> { if Awaiting(s) then s.raw + PartOf(s).got else s.partial }

  // Only the current header's kind is awaited.
  predicate OneAtMost(p: Parts, h: Header) {
    && (Waits(p) ==> p == WithPart(ALL_IDLE, h, WithHeader(p, h)))
    && (!Waits(p) ==> p == ALL_IDLE)
  }

  // The part of this header's kind.
  function WithHeader(p: Parts, h: Header): Part {
    match h
    case Window(_, _) => p.window
    case Cursor(_, _, _) => p.cursor
    case Shell(_, _) => p.shell
    case Family(_) => p.family
    case _ => IDLE
  }

  // A header that is waiting for its payload.
  predicate Underway(l: Layout, s: Receiver) {
    && s.open && s.partial == [] && |s.raw| == l.headerSize && s.header == l.read(s.raw)
    && !Rejected(s.header) && Piecewise(s.header)
    && (s.header.Cursor? ==> PayloadSize(l, s.header) <= s.capacity)
  }

  predicate Shape(l: Layout, s: Receiver) {
    && OneAtMost(s.parts, s.header)
    && (Awaiting(s) ==> Underway(l, s) && |PartOf(s).got| < PayloadSize(l, s.header))
    && (!Awaiting(s) ==> |s.partial| < l.headerSize)
    && (!s.open ==> s.partial == [])
  }

  // From here on the receiver has answered these bytes as decoding them whole does.
  // It gave up on bytes that decode only if the socket was lost.
  ghost predicate Agrees(l: Layout, w: Handlers, t: Receiver, before: seq<Callback>, bytes: seq<Byte>, lossy: bool)
    requires l.headerSize > 0
  {
    var d := Decode(l, w, bytes);
    if t.open then d.alive && d.rest == Pending(t) && t.calls == before + d.calls
    else (d.alive ==> lossy) && t.calls == before + d.calls + if d.alive then [Disconnected] else []
  }

  // End of file, an error, or no memory.
  predicate Lossy(r: Recv) { r.Gone? || r.NoMemory? || r == Took([]) }

  predicate AnyLossy(script: seq<Delivery>) {
    script != [] && (Lossy(script[0].first) || Lossy(script[0].second) || AnyLossy(script[1..]))
  }

  // ---------- decoding in two goes ----------

  lemma FirstOfPrefix(l: Layout, w: Handlers, a: seq<Byte>, b: seq<Byte>)
    requires FirstOf(l, w, a) != More
    ensures FirstOf(l, w, a + b) == FirstOf(l, w, a)
  {
    var h := l.read(a[..l.headerSize]);
    var size := l.headerSize + PayloadSize(l, h);
    assert (a + b)[..l.headerSize] == a[..l.headerSize];
    if |a| >= size {
      assert (a + b)[l.headerSize..size] == a[l.headerSize..size];
    }
  }

  function Prepend(calls: seq<Callback>, o: Outcome): Outcome { o.(calls := calls + o.calls) }

  lemma PrependTwice(a: seq<Callback>, b: seq<Callback>, o: Outcome)
    ensures Prepend(a, Prepend(b, o)) == Prepend(a + b, o)
  {
    assert a + (b + o.calls) == (a + b) + o.calls;
  }

  lemma DecodeWhole(l: Layout, w: Handlers, bytes: seq<Byte>)
    requires l.headerSize > 0 && FirstOf(l, w, bytes).Whole?
    ensures var f := FirstOf(l, w, bytes); Decode(l, w, bytes) == Prepend(f.calls, Decode(l, w, bytes[f.size..]))
  {}

  // What is left over decodes with what comes next.
  lemma {:induction false} DecodeExtends(l: Layout, w: Handlers, a: seq<Byte>, b: seq<Byte>)
    requires l.headerSize > 0 && Decode(l, w, a).alive
    ensures Decode(l, w, a + b) == Prepend(Decode(l, w, a).calls, Decode(l, w, Decode(l, w, a).rest + b))
    decreases |a|
  {
    var f := FirstOf(l, w, a);
    if f.Whole? {
      FirstOfPrefix(l, w, a, b);
      DecodeWhole(l, w, a);
      DecodeWhole(l, w, a + b);
      assert (a + b)[f.size..] == a[f.size..] + b;
      DecodeExtends(l, w, a[f.size..], b);
      PrependTwice(f.calls, Decode(l, w, a[f.size..]).calls, Decode(l, w, Decode(l, w, a[f.size..]).rest + b));
    } else {
      NothingBefore(Decode(l, w, a + b));
    }
  }

  lemma NothingBefore(o: Outcome)
    ensures Prepend([], o) == o
  {}

  lemma DecodeExactly(l: Layout, w: Handlers, bytes: seq<Byte>)
    requires l.headerSize > 0
    ensures var f := FirstOf(l, w, bytes);
      f.Whole? && f.size == |bytes| ==> Decode(l, w, bytes) == Outcome(f.calls, [], true)
  {
    var f := FirstOf(l, w, bytes);
    if f.Whole? && f.size == |bytes| {
      assert bytes[f.size..] == [];
      assert Decode(l, w, []) == Outcome([], [], true);
    }
  }

  // ---------- each recv ----------

  // The message of one header and so much payload.
  lemma FirstOfParts(l: Layout, w: Handlers, raw: seq<Byte>, payload: seq<Byte>)
    requires |raw| == l.headerSize && !Rejected(l.read(raw))
    ensures var h, f := l.read(raw), FirstOf(l, w, raw + payload);
      && (|payload| < PayloadSize(l, h) ==> f == More)
      && (|payload| == PayloadSize(l, h) ==>
            f == if PayloadBad(l, h, payload) then Bad else Whole(|raw + payload|, Calls(w, h, payload)))
  {
    assert (raw + payload)[..l.headerSize] == raw;
    if |payload| == PayloadSize(l, l.read(raw)) {
      assert (raw + payload)[l.headerSize..l.headerSize + |payload|] == payload;
    }
  }

  // Bytes that end in the middle of a message, and bytes that are exactly one.
  lemma DecodeParts(l: Layout, w: Handlers, raw: seq<Byte>, payload: seq<Byte>)
    requires l.headerSize > 0 && |raw| == l.headerSize && !Rejected(l.read(raw))
    ensures |payload| < PayloadSize(l, l.read(raw)) ==>
      Decode(l, w, raw + payload) == Outcome([], raw + payload, true)
    ensures |payload| == PayloadSize(l, l.read(raw)) ==>
      Decode(l, w, raw + payload) ==
      if PayloadBad(l, l.read(raw), payload) then Outcome([Disconnected], [], false)
      else Outcome(Calls(w, l.read(raw), payload), [], true)
  {
    FirstOfParts(l, w, raw, payload);
    DecodeExactly(l, w, raw + payload);
  }

  lemma CompleteAgrees(l: Layout, w: Handlers, s: Receiver, payload: seq<Byte>)
    requires l.headerSize > 0 && s.open && OneAtMost(s.parts, s.header) && s.partial == []
    requires |s.raw| == l.headerSize && s.header == l.read(s.raw) && !Rejected(s.header)
    requires |payload| == PayloadSize(l, s.header)
    ensures Agrees(l, w, Complete(l, w, s, payload), s.calls, s.raw + payload, false)
    ensures Shape(l, Complete(l, w, s, payload))
  {
    DecodeParts(l, w, s.raw, payload);
    assert WithPart(s.parts, s.header, IDLE) == ALL_IDLE;
  }

  // Bytes for a message that is not whole yet, when the socket is lost.
  lemma DropAgrees(l: Layout, w: Handlers, s: Receiver, bytes: seq<Byte>)
    requires l.headerSize > 0 && Decode(l, w, bytes).alive && Decode(l, w, bytes).calls == []
    ensures Agrees(l, w, Drop(s), s.calls, bytes, true) && Shape(l, Drop(s))
  {
    assert s.calls + [] == s.calls;
  }

  lemma PartialAgrees(l: Layout, w: Handlers, s: Receiver, got: seq<Byte>)
    requires l.headerSize > 0 && Underway(l, s) && OneAtMost(s.parts, s.header) && |got| < PayloadSize(l, s.header)
    ensures var t := SetPart(s, Part(true, got)); Agrees(l, w, t, s.calls, s.raw + got, false) && Shape(l, t)
  {
    DecodeParts(l, w, s.raw, got);
    var t := SetPart(s, Part(true, got));
    assert PartOf(t) == Part(true, got);
    assert s.calls + [] == s.calls;
  }

  lemma PayloadAgrees(l: Layout, w: Handlers, s: Receiver, r: Recv)
    requires l.headerSize > 0 && Awaiting(s) && OneAtMost(s.parts, s.header) && Underway(l, s)
    requires |PartOf(s).got + Bytes(r)| <= PayloadSize(l, s.header)
    ensures var t := Payload(l, w, s, PartOf(s).got, r);
      Agrees(l, w, t, s.calls, s.raw + (PartOf(s).got + Bytes(r)), Lossy(r)) && Shape(l, t)
  {
    var got, need := PartOf(s).got, PayloadSize(l, s.header);
    var all := got + Bytes(r);
    if |got| >= need {
      assert all == got;
      CompleteAgrees(l, w, s, got);
    } else if |all| == need {
      CompleteAgrees(l, w, s, all);
    } else if Lossy(r) {
      DecodeParts(l, w, s.raw, all);
      DropAgrees(l, w, s, s.raw + all);
    } else {
      PartialAgrees(l, w, s, all);
      SamePart(s);
      assert r.Again? ==> all == got;
    }
  }

  lemma SamePart(s: Receiver)
    requires Awaiting(s) && OneAtMost(s.parts, s.header)
    ensures SetPart(s, Part(true, PartOf(s).got)) == s
  {}

  lemma AwaitAgrees(l: Layout, w: Handlers, s: Receiver, r: Recv)
    requires Sized(l) && s.open && s.parts == ALL_IDLE && s.partial == []
    requires |s.raw| == l.headerSize && s.header == l.read(s.raw) && !Rejected(s.header) && Piecewise(s.header)
    requires PayloadSize(l, s.header) > 0 ==> |Bytes(r)| <= PayloadSize(l, s.header)
    ensures var t, taken := Payload(l, w, Await(l, s), [], r), if PayloadSize(l, s.header) > 0 then Bytes(r) else [];
      Agrees(l, w, t, s.calls, s.raw + taken, Lossy(r)) && Shape(l, t)
  {
    var waits := Await(l, s);
    assert PartOf(waits) == Part(true, []) && Underway(l, waits) && OneAtMost(waits.parts, waits.header);
    var taken := if PayloadSize(l, s.header) > 0 then r else Again;
    PayloadAgrees(l, w, waits, taken);
    assert [] + Bytes(taken) == Bytes(taken);
    assert Payload(l, w, waits, [], r) == Payload(l, w, waits, [], taken);
  }

  lemma DescriptorAgrees(l: Layout, w: Handlers, s: Receiver, r: Recv)
    requires l.headerSize > 0 && s.open && s.parts == ALL_IDLE && s.partial == []
    requires |s.raw| == l.headerSize && s.header == l.read(s.raw) && Blocks(s.header)
    requires SecondFits(l, s.header, r)
    ensures var t := Descriptor(l, w, s, r); Agrees(l, w, t, s.calls, s.raw + Bytes(r), Lossy(r)) && Shape(l, t)
  {
    if Bytes(r) == [] {
      DecodeParts(l, w, s.raw, []);
      DropAgrees(l, w, s, s.raw + []);
    } else {
      CompleteAgrees(l, w, s, r.bytes);
    }
  }

  lemma BeginAgrees(l: Layout, w: Handlers, s: Receiver, r: Recv)
    requires Sized(l) && s.open && s.parts == ALL_IDLE && s.partial == []
    requires |s.raw| == l.headerSize && s.header == l.read(s.raw)
    requires NeedsSecond(l, s.raw) ==> SecondFits(l, s.header, r)
    ensures var t, taken := Begin(l, w, s, r), if NeedsSecond(l, s.raw) then Bytes(r) else [];
      Agrees(l, w, t, s.calls, s.raw + taken, Lossy(r)) && Shape(l, t)
  {
    if Rejected(s.header) {
      RefusedAgrees(l, w, s);
    } else if Piecewise(s.header) {
      if Grows(l, s) && r.NoMemory? {
        DecodeParts(l, w, s.raw, []);
        DropAgrees(l, w, s, s.raw + []);
      } else {
        AwaitAgrees(l, w, s, r);
      }
    } else if Blocks(s.header) {
      DescriptorAgrees(l, w, s, r);
    } else {
      CompleteAgrees(l, w, s, []);
    }
  }

  lemma RefusedAgrees(l: Layout, w: Handlers, s: Receiver)
    requires l.headerSize > 0 && |s.raw| == l.headerSize && s.header == l.read(s.raw) && Rejected(s.header)
    ensures Agrees(l, w, Drop(s), s.calls, s.raw + [], false) && Shape(l, Drop(s))
  {
    assert (s.raw + [])[..l.headerSize] == s.raw;
    assert FirstOf(l, w, s.raw + []) == Bad;
  }

  // More of a header, or the end of it and what follows.
  lemma HeaderAgrees(l: Layout, w: Handlers, s: Receiver, first: Recv, second: Recv)
    requires Sized(l) && s.open && Shape(l, s) && !Awaiting(s) && Bytes(first) != [] && Fits(l, s, first, second)
    ensures var t := Ready(l, w, s, first, second);
      && Agrees(l, w, t, s.calls, s.partial + Taken(l, s, first, second), Lossy(second))
      && Shape(l, t)
  {
    var partial := s.partial + first.bytes;
    var filled := s.(partial := partial);
    if |partial| == l.headerSize {
      BeginAgrees(l, w, HeaderRead(l, filled), second);
      Assoc(s.partial, first.bytes, Bytes(second));
      assert partial + [] == partial;
    } else {
      assert FirstOf(l, w, partial) == More;
      assert s.calls + [] == s.calls;
    }
  }

  lemma NoHeaderAgrees(l: Layout, w: Handlers, s: Receiver, first: Recv, second: Recv)
    requires Sized(l) && s.open && Shape(l, s) && !Awaiting(s) && Bytes(first) == []
    ensures var t := Ready(l, w, s, first, second); Agrees(l, w, t, s.calls, s.partial, Lossy(first)) && Shape(l, t)
  {
    assert FirstOf(l, w, s.partial) == More;
    assert s.calls + [] == s.calls;
    DropAgrees(l, w, s, s.partial);
  }

  lemma ReadyAgrees(l: Layout, w: Handlers, s: Receiver, first: Recv, second: Recv)
    requires Sized(l) && s.open && Shape(l, s) && Fits(l, s, first, second)
    ensures var t := Ready(l, w, s, first, second);
      && Agrees(l, w, t, s.calls, Pending(s) + Taken(l, s, first, second), Lossy(first) || Lossy(second))
      && Shape(l, t)
  {
    if Awaiting(s) {
      PayloadAgrees(l, w, s, first);
      Assoc(s.raw, PartOf(s).got, Bytes(first));
    } else if Bytes(first) == [] {
      NoHeaderAgrees(l, w, s, first, second);
      assert s.partial + [] == s.partial;
    } else {
      HeaderAgrees(l, w, s, first, second);
    }
  }

  // The receiver after consuming these bytes since it connected.
  ghost predicate Inv(l: Layout, w: Handlers, s: Receiver, consumed: seq<Byte>, lossy: bool)
    requires l.headerSize > 0
  {
    Shape(l, s) && Agrees(l, w, s, [], consumed, lossy)
  }

  lemma ReadyKeeps(l: Layout, w: Handlers, s: Receiver, consumed: seq<Byte>, lossy: bool, first: Recv, second: Recv)
    requires Sized(l) && Inv(l, w, s, consumed, lossy) && Fits(l, s, first, second)
    ensures Inv(l, w, Ready(l, w, s, first, second), consumed + Taken(l, s, first, second),
                lossy || Lossy(first) || Lossy(second))
  {
    var taken := Taken(l, s, first, second);
    if s.open {
      ReadyAgrees(l, w, s, first, second);
      AgreesNext(l, w, s, consumed, lossy, Ready(l, w, s, first, second), taken, Lossy(first) || Lossy(second));
    } else {
      assert consumed + taken == consumed;
    }
  }

  lemma AgreesNext(l: Layout, w: Handlers, s: Receiver, consumed: seq<Byte>, lossy: bool,
                   t: Receiver, taken: seq<Byte>, now: bool)
    requires l.headerSize > 0 && s.open && Agrees(l, w, s, [], consumed, lossy)
    requires Agrees(l, w, t, s.calls, Pending(s) + taken, now)
    ensures Agrees(l, w, t, [], consumed + taken, now)
  {
    DecodeExtends(l, w, consumed, taken);
    assert [] + Decode(l, w, consumed).calls == Decode(l, w, consumed).calls;
    AgreesShift(l, w, t, s.calls, consumed + taken, Pending(s) + taken, now);
  }

  lemma AgreesShift(l: Layout, w: Handlers, t: Receiver, before: seq<Callback>, all: seq<Byte>, last: seq<Byte>,
                    lossy: bool)
    requires l.headerSize > 0 && Agrees(l, w, t, before, last, lossy)
    requires Decode(l, w, all) == Prepend(before, Decode(l, w, last))
    ensures Agrees(l, w, t, [], all, lossy)
  {
    var d := Decode(l, w, last);
    assert [] + (before + d.calls) == before + d.calls;
  }

  lemma {:induction false} RunKeeps(l: Layout, w: Handlers, s: Receiver, consumed: seq<Byte>, lossy: bool,
                                    script: seq<Delivery>)
    requires Sized(l) && Inv(l, w, s, consumed, lossy) && AllFit(l, w, s, script)
    ensures Inv(l, w, Run(l, w, s, script), consumed + Consumed(l, w, s, script), lossy || AnyLossy(script))
    decreases |script|
  {
    if script == [] {
      assert consumed + [] == consumed;
    } else {
      var first, second := script[0].first, script[0].second;
      ReadyKeeps(l, w, s, consumed, lossy, first, second);
      var t, taken := Ready(l, w, s, first, second), Taken(l, s, first, second);
      RunKeeps(l, w, t, consumed + taken, lossy || Lossy(first) || Lossy(second), script[1..]);
      Assoc(consumed, taken, Consumed(l, w, t, script[1..]));
    }
  }

  lemma Assoc(a: seq<Byte>, b: seq<Byte>, c: seq<Byte>)
    ensures a + b + c == a + (b + c)
  {}

  lemma ConnectedInv(l: Layout, w: Handlers, capacity: nat)
    requires Sized(l)
    ensures Inv(l, w, Connected(capacity), [], false)
  {
    assert FirstOf(l, w, []) == More;
  }

  // What the invariant says after a whole script.
  lemma RunAgrees(l: Layout, w: Handlers, capacity: nat, script: seq<Delivery>)
    requires Sized(l) && AllFit(l, w, Connected(capacity), script)
    ensures var s, consumed := Run(l, w, Connected(capacity), script), Consumed(l, w, Connected(capacity), script);
      var d := Decode(l, w, consumed);
      && Shape(l, s)
      && if s.open then d.alive && d.rest == Pending(s) && s.calls == d.calls
         else (d.alive ==> AnyLossy(script)) && s.calls == d.calls + if d.alive then [Disconnected] else []
  {
    ConnectedInv(l, w, capacity);
    RunKeeps(l, w, Connected(capacity), [], false, script);
    var consumed := Consumed(l, w, Connected(capacity), script);
    assert [] + consumed == consumed;
    var d := Decode(l, w, consumed);
    assert [] + d.calls == d.calls;
  }

  // ---------- every way the stream can be cut ----------

  // However recv cuts the stream, the callbacks are those of decoding what was consumed as whole
  // messages, and a disconnect of its own comes only from a message that decoding refuses.
  lemma CutsDoNotMatter(l: Layout, w: Handlers, capacity: nat, script: seq<Delivery>)
    requires Sized(l) && AllFit(l, w, Connected(capacity), script)
    ensures var s, consumed := Run(l, w, Connected(capacity), script), Consumed(l, w, Connected(capacity), script);
      var d := Decode(l, w, consumed);
      if s.open then s.calls == d.calls && d.alive
      else (d.alive ==> AnyLossy(script)) && s.calls == d.calls + if d.alive then [Disconnected] else []
  {
    RunAgrees(l, w, capacity, script);
  }

  // Two ways of cutting the same bytes leave receivers that cannot be told apart.
  lemma SameBytesSameReceiver(l: Layout, w: Handlers, capacity: nat, a: seq<Delivery>, b: seq<Delivery>)
    requires Sized(l) && AllFit(l, w, Connected(capacity), a) && AllFit(l, w, Connected(capacity), b)
    requires Consumed(l, w, Connected(capacity), a) == Consumed(l, w, Connected(capacity), b)
    requires Run(l, w, Connected(capacity), a).open && Run(l, w, Connected(capacity), b).open
    ensures var x, y := Run(l, w, Connected(capacity), a), Run(l, w, Connected(capacity), b);
      x.calls == y.calls && Pending(x) == Pending(y)
  {
    RunAgrees(l, w, capacity, a);
    RunAgrees(l, w, capacity, b);
  }

  // At every moment at most one kind of payload is awaited, with an empty header buffer, less than
  // its whole in hand and room for all of a cursor.
  lemma OnePayloadAtATime(l: Layout, w: Handlers, capacity: nat, script: seq<Delivery>)
    requires Sized(l) && AllFit(l, w, Connected(capacity), script)
    ensures var s := Run(l, w, Connected(capacity), script);
      && (s.parts.window.pending ==> !s.parts.cursor.pending && !s.parts.shell.pending && !s.parts.family.pending)
      && (s.parts.cursor.pending ==> !s.parts.shell.pending && !s.parts.family.pending)
      && (s.parts.shell.pending ==> !s.parts.family.pending)
      && (s.parts.cursor.pending ==> PayloadSize(l, s.header) <= s.capacity)
      && (Awaiting(s) ==> s.partial == [] && |PartOf(s).got| < PayloadSize(l, s.header))
      && (!Awaiting(s) ==> |s.partial| < l.headerSize)
  {
    RunAgrees(l, w, capacity, script);
  }

  // ---------- what the server builds ----------

  datatype Message = Message(header: Header, payload: seq<Byte>)

  // The layout holds this header: it takes headerSize bytes and reads back.
  predicate Holds(l: Layout, h: Header) { |l.write(h)| == l.headerSize && l.read(l.write(h)) == h }

  // A header that reads back and is accepted, with the payload its fields announce.
  predicate ServerBuilt(l: Layout, m: Message) {
    && Holds(l, m.header)
    && !Rejected(m.header)
    && |m.payload| == PayloadSize(l, m.header)
    && !PayloadBad(l, m.header, m.payload)
  }

  // The X cursor as the server finds it.
  datatype XCursor = NoCursor | RootCursor | Bits(width: nat, height: nat, xhot: nat, yhot: nat, emptyMask: bool)

  // lorieCursorSet: what cannot be sent as an image is the host's default.
  function CursorSet(c: XCursor): (i: CursorInfo)
    ensures CursorValid(i)
  {
    match c
    case NoCursor => CursorInfo(1, 0, 0, 0, 0)
    case RootCursor => CursorInfo(0, 0, 0, 0, 0)
    case Bits(width, height, xhot, yhot, emptyMask) =>
      if width == 0 || height == 0 || emptyMask then CursorInfo(1, 0, 0, 0, 0)
      else
        var image := CursorInfo(2, width, height, xhot, yhot);
        if CursorValid(image) then image else CursorInfo(0, 0, 0, 0, 0)
  }

  // lorieWindowFamilyGeometry: too many rectangles are sent as an incomplete list of none.
  function InputCount(rects: nat): nat { if rects > LORIE_SHELL_INPUT_LIMIT then 0 else rects }

  function Zeros(n: nat): seq<Byte> { seq(n, i => 0) }

  // snprintf into a zeroed field: at most MIME_SIZE - 1 bytes of a text, and a zero.
  function MimeField(text: seq<Byte>): (field: seq<Byte>)
    ensures |field| == MIME_SIZE && 0 in field
  {
    var kept := text[..if |text| < MIME_SIZE then |text| else MIME_SIZE - 1];
    var field := kept + Zeros(MIME_SIZE - |kept|);
    assert field[MIME_SIZE - 1] == 0;
    field
  }

  // What the server's senders are called with.
  datatype Sent =
    | SentWindow(hasIcon: bool, icon: seq<Byte>, body: seq<Byte>)
    | SentCursor(output: nat, cursor: XCursor, pixels: seq<Byte>, body: seq<Byte>)
    | SentShell(rects: nat, info: seq<Byte>, body: seq<Byte>)
    | SentShellGone(body: seq<Byte>)
    | SentFamily(rects: nat, info: seq<Byte>, body: seq<Byte>)
    | SentData(hasFd: bool, text: seq<Byte>, body: seq<Byte>)
    | SentState(body: seq<Byte>)
    | SentNote(tag: nat, body: seq<Byte>)

  // A cursor is published for a selected output, its pixels in a buffer that holds any image.
  predicate Possible(x: Sent) { x.SentCursor? ==> x.output != 0 && |x.pixels| >= CursorBytes(CursorSet(x.cursor)) }

  function HeaderOf(x: Sent): Header {
    match x
    case SentWindow(hasIcon, _, body) => Window(hasIcon, body)
    case SentCursor(output, cursor, _, body) => Cursor(output, CursorSet(cursor), body)
    case SentShell(_, _, body) => Shell(false, body)
    case SentShellGone(body) => Shell(true, body)
    case SentFamily(_, _, body) => Family(body)
    case SentData(hasFd, text, body) => Data(hasFd, MimeField(text), body)
    case SentState(body) => SharedState(body)
    case SentNote(tag, body) => Note(tag, body)
  }

  function PayloadOf(l: Layout, x: Sent): seq<Byte>
    requires Possible(x)
  {
    match x
    case SentWindow(hasIcon, icon, _) => if hasIcon then icon else []
    case SentCursor(_, cursor, pixels, _) => pixels[..CursorBytes(CursorSet(cursor))]
    case SentShell(rects, info, _) => l.writeShell(InputCount(rects), info)
    case SentFamily(rects, info, _) => l.writeFamily(InputCount(rects), info)
    case SentData(hasFd, _, _) => if hasFd then [DESCRIPTOR_BYTE] else []
    case SentState(_) => [DESCRIPTOR_BYTE]
    case _ => []
  }

  // The layout holds what this sender writes: its header, and the structure that follows.
  predicate Carried(l: Layout, x: Sent) {
    && Holds(l, HeaderOf(x))
    && (x.SentWindow? && x.hasIcon ==> |x.icon| == l.iconSize)
    && (x.SentShell? ==>
          var info := l.writeShell(InputCount(x.rects), x.info);
          |info| == l.shellSize && l.shellInputs(info) == InputCount(x.rects))
    && (x.SentFamily? ==>
          var info := l.writeFamily(InputCount(x.rects), x.info);
          |info| == l.familySize && l.familyInputs(info) == InputCount(x.rects))
  }

  // Whatever the windows, cursors, regions and types are, what the senders write is well built: no
  // header is refused, every payload has the size its header announces, and none is refused.
  lemma ServerBuildsWell(l: Layout, x: Sent)
    requires Possible(x) && Carried(l, x)
    ensures ServerBuilt(l, Message(HeaderOf(x), PayloadOf(l, x)))
  {
    if x.SentCursor? {
      assert CursorValid(CursorSet(x.cursor));
    }
    assert x.SentShell? || x.SentFamily? ==> InputCount(x.rects) <= LORIE_SHELL_INPUT_LIMIT;
  }

  function Encode(l: Layout, messages: seq<Message>): seq<Byte> {
    if messages == [] then [] else l.write(messages[0].header) + messages[0].payload + Encode(l, messages[1..])
  }

  function Meaning(w: Handlers, messages: seq<Message>): seq<Callback> {
    if messages == [] then [] else Calls(w, messages[0].header, messages[0].payload) + Meaning(w, messages[1..])
  }

  // Everything the server builds decodes to exactly its callbacks, with nothing left and no
  // disconnect.
  lemma {:induction false} ServerMessagesRoundTrip(l: Layout, w: Handlers, messages: seq<Message>)
    requires l.headerSize > 0 && forall i :: 0 <= i < |messages| ==> ServerBuilt(l, messages[i])
    ensures Decode(l, w, Encode(l, messages)) == Outcome(Meaning(w, messages), [], true)
    decreases |messages|
  {
    if messages != [] {
      var m, rest := messages[0], messages[1..];
      ServerMessagesRoundTrip(l, w, rest);
      var raw := l.write(m.header);
      FirstOfParts(l, w, raw, m.payload);
      FirstOfPrefix(l, w, raw + m.payload, Encode(l, rest));
      var all := raw + m.payload + Encode(l, rest);
      DecodeWhole(l, w, all);
      assert all[|raw + m.payload|..] == Encode(l, rest);
    }
  }

  // Bytes that decode to the end were fine at every earlier point.
  lemma {:induction false} AliveBefore(l: Layout, w: Handlers, a: seq<Byte>, b: seq<Byte>)
    requires l.headerSize > 0 && Decode(l, w, a + b).alive
    ensures Decode(l, w, a).alive
    decreases |a|
  {
    var f := FirstOf(l, w, a);
    if f != More {
      FirstOfPrefix(l, w, a, b);
    }
    if f.Whole? {
      assert (a + b)[f.size..] == a[f.size..] + b;
      AliveBefore(l, w, a[f.size..], b);
    }
  }

  lemma WholeStreamArrives(l: Layout, w: Handlers, capacity: nat, script: seq<Delivery>, all: seq<Byte>,
                           calls: seq<Callback>)
    requires Sized(l) && AllFit(l, w, Connected(capacity), script) && !AnyLossy(script)
    requires Decode(l, w, all) == Outcome(calls, [], true) && Consumed(l, w, Connected(capacity), script) <= all
    ensures var s := Run(l, w, Connected(capacity), script);
      s.open && (Consumed(l, w, Connected(capacity), script) == all ==> s.calls == calls && Pending(s) == [])
  {
    var consumed := Consumed(l, w, Connected(capacity), script);
    assert consumed + all[|consumed|..] == all;
    AliveBefore(l, w, consumed, all[|consumed|..]);
    RunAgrees(l, w, capacity, script);
  }

  // A receiver fed any part of what the server builds, in whatever pieces, stays connected as long
  // as the socket does; fed all of it, it is idle and has made exactly the messages' callbacks.
  lemma ServerStreamArrives(l: Layout, w: Handlers, capacity: nat, script: seq<Delivery>, messages: seq<Message>)
    requires Sized(l) && AllFit(l, w, Connected(capacity), script) && !AnyLossy(script)
    requires forall i :: 0 <= i < |messages| ==> ServerBuilt(l, messages[i])
    requires Consumed(l, w, Connected(capacity), script) <= Encode(l, messages)
    ensures var s := Run(l, w, Connected(capacity), script);
      && s.open
      && (Consumed(l, w, Connected(capacity), script) == Encode(l, messages) ==>
            s.calls == Meaning(w, messages) && Pending(s) == [])
  {
    ServerMessagesRoundTrip(l, w, messages);
    WholeStreamArrives(l, w, capacity, script, Encode(l, messages), Meaning(w, messages));
  }

  function MessagesOf(l: Layout, sends: seq<Sent>): (messages: seq<Message>)
    requires forall i :: 0 <= i < |sends| ==> Possible(sends[i])
  {
    seq(|sends|, i requires 0 <= i < |sends| => Message(HeaderOf(sends[i]), PayloadOf(l, sends[i])))
  }

  // Whatever the server sends over a layout that carries it, in whatever pieces the host takes it:
  // while the socket lasts the host stays connected, and once it has taken all it has made exactly
  // the callbacks of those sends.
  lemma EverySendArrives(l: Layout, w: Handlers, capacity: nat, script: seq<Delivery>, sends: seq<Sent>)
    requires Sized(l) && AllFit(l, w, Connected(capacity), script) && !AnyLossy(script)
    requires forall i :: 0 <= i < |sends| ==> Possible(sends[i]) && Carried(l, sends[i])
    requires Consumed(l, w, Connected(capacity), script) <= Encode(l, MessagesOf(l, sends))
    ensures var s, messages := Run(l, w, Connected(capacity), script), MessagesOf(l, sends);
      && s.open
      && (Consumed(l, w, Connected(capacity), script) == Encode(l, messages) ==>
            s.calls == Meaning(w, messages) && Pending(s) == [])
  {
    var messages := MessagesOf(l, sends);
    forall i | 0 <= i < |messages| ensures ServerBuilt(l, messages[i]) {
      ServerBuildsWell(l, sends[i]);
    }
    ServerStreamArrives(l, w, capacity, script, messages);
  }

  // ---------- one layout ----------

  // The fields of any header as a tag, six 32-bit words in little-endian order, a type and a body.
  const WORD: nat := 0x1_0000_0000

  function U32(v: nat): (bytes: seq<Byte>)
    ensures |bytes| == 4
  {
    [v % 256, v / 256 % 256, v / 0x1_0000 % 256, v / 0x100_0000 % 256]
  }

  function ReadU32(b: seq<Byte>): nat
    requires |b| >= 4
  {
    var b0: int, b1: int, b2: int, b3: int := b[0], b[1], b[2], b[3];
    b0 + 256 * b1 + 0x1_0000 * b2 + 0x100_0000 * b3
  }

  lemma U32RoundTrip(v: nat, rest: seq<Byte>)
    requires v < WORD
    ensures ReadU32(U32(v) + rest) == v && (U32(v) + rest)[4..] == rest
  {
    var b := U32(v) + rest;
    assert b[0] == v % 256 && b[1] == v / 256 % 256 && b[2] == v / 0x1_0000 % 256 && b[3] == v / 0x100_0000 % 256;
    Digits(v);
  }

  lemma Digits(v: nat)
    requires v < WORD
    ensures v % 256 + 256 * (v / 256 % 256) + 0x1_0000 * (v / 0x1_0000 % 256) + 0x100_0000 * (v / 0x100_0000 % 256) == v
  {}

  function Words(words: seq<nat>): (bytes: seq<Byte>)
    ensures |bytes| == 4 * |words|
  {
    if words == [] then [] else U32(words[0]) + Words(words[1..])
  }

  function ReadWords(b: seq<Byte>, n: nat): (words: seq<nat>)
    requires |b| >= 4 * n
    ensures |words| == n
  {
    if n == 0 then [] else [ReadU32(b)] + ReadWords(b[4..], n - 1)
  }

  lemma {:induction false} WordsRoundTrip(words: seq<nat>, rest: seq<Byte>)
    requires forall i :: 0 <= i < |words| ==> words[i] < WORD
    ensures ReadWords(Words(words) + rest, |words|) == words
  {
    if words != [] {
      var tail := Words(words[1..]);
      assert Words(words) + rest == U32(words[0]) + (tail + rest);
      U32RoundTrip(words[0], tail + rest);
      WordsRoundTrip(words[1..], rest);
    }
  }

  datatype Flat = Flat(tag: Byte, words: seq<nat>, mime: seq<Byte>, body: seq<Byte>)

  function B(b: bool): nat { if b then 1 else 0 }

  function Flatten(h: Header): (f: Flat)
    ensures |f.words| == 6
  {
    var none := Zeros(MIME_SIZE);
    match h
    case Window(hasIcon, body) => Flat(0, [B(hasIcon), 0, 0, 0, 0, 0], none, body)
    case Cursor(output, i, body) => Flat(1, [output, i.kind, i.width, i.height, i.hotspotX, i.hotspotY], none, body)
    case Shell(removed, body) => Flat(2, [B(removed), 0, 0, 0, 0, 0], none, body)
    case Family(body) => Flat(3, [0, 0, 0, 0, 0, 0], none, body)
    case Data(hasFd, mime, body) => Flat(4, [B(hasFd), 0, 0, 0, 0, 0], mime, body)
    case SharedState(body) => Flat(5, [0, 0, 0, 0, 0, 0], none, body)
    case Note(tag, body) => Flat(6, [tag, 0, 0, 0, 0, 0], none, body)
    case Ignored => Flat(7, [0, 0, 0, 0, 0, 0], none, [])
    case Unknown => Flat(8, [0, 0, 0, 0, 0, 0], none, [])
  }

  function Parse(f: Flat): Header
    requires |f.words| == 6
  {
    var w := f.words;
    match f.tag
    case 0 => Window(w[0] != 0, f.body)
    case 1 => Cursor(w[0], CursorInfo(w[1], w[2], w[3], w[4], w[5]), f.body)
    case 2 => Shell(w[0] != 0, f.body)
    case 3 => Family(f.body)
    case 4 => Data(w[0] != 0, f.mime, f.body)
    case 5 => SharedState(f.body)
    case 6 => Note(w[0], f.body)
    case 7 => Ignored
    case _ => Unknown
  }

  predicate FlatFits(f: Flat) {
    |f.words| == 6 && |f.mime| == MIME_SIZE && forall i :: 0 <= i < 6 ==> f.words[i] < WORD
  }

  const PREFIX: nat := 1 + 24 + MIME_SIZE

  function WriteFlat(f: Flat): seq<Byte> { [f.tag] + Words(f.words) + f.mime + f.body }

  function ReadFlat(b: seq<Byte>): (f: Flat)
    ensures |f.words| == 6
  {
    if |b| < PREFIX then Flat(8, [0, 0, 0, 0, 0, 0], [], [])
    else Flat(b[0], ReadWords(b[1..25], 6), b[25..PREFIX], b[PREFIX..])
  }

  function Counted(count: nat, info: seq<Byte>): seq<Byte> { U32(count) + info }
  function Count(info: seq<Byte>): nat { if |info| < 4 then 0 else ReadU32(info) }

  function WireWrite(h: Header): seq<Byte> { WriteFlat(Flatten(h)) }
  function WireRead(b: seq<Byte>): Header { Parse(ReadFlat(b)) }

  // A layout with bodies of this size.
  function WireLayout(body: nat, icon: nat, shell: nat, family: nat): Layout {
    Layout(PREFIX + body, icon, shell, family, WireRead, WireWrite, Count, Count, Counted, Counted)
  }

  lemma FlatRoundTrip(f: Flat)
    requires FlatFits(f)
    ensures ReadFlat(WriteFlat(f)) == f && |WriteFlat(f)| == PREFIX + |f.body|
  {
    var b := WriteFlat(f);
    assert b[1..25] == Words(f.words) + [];
    WordsRoundTrip(f.words, []);
    assert b[25..PREFIX] == f.mime;
    assert b[PREFIX..] == f.body;
  }

  // The senders' arguments have the sizes of this layout, and their numbers fit 32 bits.
  predicate WireSend(body: nat, icon: nat, shell: nat, family: nat, x: Sent) {
    && |x.body| == body
    && (x.SentWindow? && x.hasIcon ==> |x.icon| == icon)
    && (x.SentCursor? ==> x.output < WORD)
    && (x.SentShell? ==> |x.info| + 4 == shell)
    && (x.SentFamily? ==> |x.info| + 4 == family)
    && (x.SentNote? ==> x.tag < WORD)
  }

  lemma FlattenFits(body: nat, icon: nat, shell: nat, family: nat, x: Sent)
    requires WireSend(body, icon, shell, family, x)
    ensures FlatFits(Flatten(HeaderOf(x))) && |Flatten(HeaderOf(x)).body| == body
  {
    if x.SentCursor? {
      assert CursorValid(CursorSet(x.cursor));
    }
  }

  lemma ParseFlatten(h: Header)
    ensures Parse(Flatten(h)) == h
  {}

  lemma WireRoundTrip(h: Header)
    requires FlatFits(Flatten(h))
    ensures WireRead(WireWrite(h)) == h && |WireWrite(h)| == PREFIX + |Flatten(h).body|
  {
    FlatRoundTrip(Flatten(h));
    ParseFlatten(h);
  }

  lemma WireHolds(body: nat, icon: nat, shell: nat, family: nat, h: Header)
    requires FlatFits(Flatten(h)) && |Flatten(h).body| == body
    ensures Holds(WireLayout(body, icon, shell, family), h)
  {
    WireRoundTrip(h);
  }

  // Such a layout carries every send whose arguments have its sizes.
  lemma WireCarries(body: nat, icon: nat, shell: nat, family: nat, x: Sent)
    requires WireSend(body, icon, shell, family, x)
    ensures Carried(WireLayout(body, icon, shell, family), x)
  {
    FlattenFits(body, icon, shell, family, x);
    WireHolds(body, icon, shell, family, HeaderOf(x));
    if x.SentShell? || x.SentFamily? {
      U32RoundTrip(InputCount(x.rects), x.info);
    }
  }

  // ---------- the connection itself ----------

  class Connection {
    const layout: Layout
    const callbacks: Handlers
    var open: bool
    var header: Header
    var partial: seq<Byte> // the header buffer and headerBytes
    ghost var raw: seq<Byte>
    var parts: Parts // the four pending flags and byte counts
    var capacity: nat
    var calls: seq<Callback>

    ghost function View(): Receiver reads this {
      Receiver(open, partial, header, raw, parts, capacity, calls)
    }

    constructor (l: Layout, w: Handlers)
      ensures View() == Connected(0) && layout == l && callbacks == w
    {
      layout, callbacks, open, header, partial, raw := l, w, true, Ignored, [], [];
      parts, capacity, calls := ALL_IDLE, 0, [];
    }

    method Disconnect()
      modifies this
      ensures View() == Drop(old(View()))
    {
      open, partial := false, [];
      parts := ALL_IDLE;
      calls := calls + [Disconnected];
    }

    // What the four payload readers share: one recv into the rest of the buffer.
    method Fill(got: seq<Byte>, need: nat, r: Recv) returns (all: seq<Byte>, more: bool)
      modifies this
      ensures |got| >= need ==> all == got && !more && View() == old(View())
      ensures |got| < need && r.Again? ==> more && all == got && View() == old(View())
      ensures |got| < need && !r.Again? && Lossy(r) ==> more && View() == Drop(old(View()))
      ensures |got| < need && r.Took? && r.bytes != [] ==>
        all == got + r.bytes && more == (|all| != need) && View() == old(View())
    {
      all, more := got, |got| < need;
      if !more || r.Again? { return; }
      if Lossy(r) {
        Disconnect();
        return;
      }
      all := got + r.bytes;
      more := |all| != need;
    }

    method ReceiveWindow(r: Recv)
      requires open && header.Window? && parts.window.pending
      modifies this
      ensures View() == Payload(layout, callbacks, old(View()), old(parts.window.got), r)
    {
      var icon, more := Fill(parts.window.got, if header.hasIcon then layout.iconSize else 0, r);
      if more {
        if open { parts := parts.(window := Part(true, icon)); }
        return;
      }
      calls := calls + [OnWindow(header, icon)];
      parts := parts.(window := IDLE);
    }

    method ReceiveCursor(r: Recv)
      requires open && header.Cursor? && parts.cursor.pending
      modifies this
      ensures View() == Payload(layout, callbacks, old(View()), old(parts.cursor.got), r)
    {
      var pixels, more := Fill(parts.cursor.got, CursorBytes(header.info), r);
      if more {
        if open { parts := parts.(cursor := Part(true, pixels)); }
        return;
      }
      if callbacks.cursor {
        calls := calls + [OnCursor(header, pixels)];
      }
      parts := parts.(cursor := IDLE);
    }

    method ReceiveShell(r: Recv)
      requires open && header.Shell? && parts.shell.pending
      modifies this
      ensures View() == Payload(layout, callbacks, old(View()), old(parts.shell.got), r)
    {
      var info, more := Fill(parts.shell.got, if header.removed then 0 else layout.shellSize, r);
      if more {
        if open { parts := parts.(shell := Part(true, info)); }
        return;
      }
      if !header.removed && layout.shellInputs(info) > LORIE_SHELL_INPUT_LIMIT {
        Disconnect();
        return;
      }
      if callbacks.shell {
        calls := calls + [OnShell(header, info)];
      }
      parts := parts.(shell := IDLE);
    }

    method ReceiveFamily(r: Recv)
      requires open && header.Family? && parts.family.pending
      modifies this
      ensures View() == Payload(layout, callbacks, old(View()), old(parts.family.got), r)
    {
      var info, more := Fill(parts.family.got, layout.familySize, r);
      if more {
        if open { parts := parts.(family := Part(true, info)); }
        return;
      }
      if layout.familyInputs(info) > LORIE_SHELL_INPUT_LIMIT {
        Disconnect();
        return;
      }
      if callbacks.family {
        calls := calls + [OnFamily(header, info)];
      }
      parts := parts.(family := IDLE);
    }

    // The buffer for the pixels grows first.
    method StartCursor(second: Recv)
      requires open && header.Cursor? && !Rejected(header) && parts == ALL_IDLE
      modifies this
      ensures View() == Begin(layout, callbacks, old(View()), second)
    {
      if CursorBytes(header.info) > capacity {
        if second.NoMemory? {
          Disconnect();
          return;
        }
        capacity := CursorBytes(header.info);
      }
      parts := parts.(cursor := Part(true, []));
      ReceiveCursor(second);
    }

    // ancil_recv_fd, and what comes with the descriptor.
    method ReceiveDescriptor(second: Recv)
      requires open && (header.Data? || header.SharedState?)
      modifies this
      ensures View() == Begin(layout, callbacks, old(View()), second)
    {
      if Blocks(header) && (!second.Took? || second.bytes != [DESCRIPTOR_BYTE]) {
        Disconnect();
        return;
      }
      if header.SharedState? {
        calls := calls + [OnSharedState];
        return;
      }
      if 0 !in header.mime {
        Disconnect();
        return;
      }
      calls := calls + [OnData(header)];
    }

    method StartPayload(second: Recv)
      requires open && (header.Family? || header.Shell? || header.Window?) && parts == ALL_IDLE
      modifies this
      ensures View() == Begin(layout, callbacks, old(View()), second)
    {
      match header
      case Family(_) =>
        parts := parts.(family := Part(true, []));
        ReceiveFamily(second);
      case Shell(_, _) =>
        parts := parts.(shell := Part(true, []));
        ReceiveShell(second);
      case Window(_, _) =>
        parts := parts.(window := Part(true, []));
        ReceiveWindow(second);
    }

    method Dispatch(second: Recv)
      requires open && parts == ALL_IDLE
      modifies this
      ensures View() == Begin(layout, callbacks, HeaderRead(layout, old(View())), second)
    {
      header := layout.read(partial);
      raw, partial := partial, [];
      match header
      case Cursor(output, info, _) =>
        if output == 0 || !CursorValid(info) {
          Disconnect();
          return;
        }
        StartCursor(second);
      case Data(_, _, _) => ReceiveDescriptor(second);
      case SharedState(_) => ReceiveDescriptor(second);
      case Note(tag, _) =>
        if callbacks.notes(tag) {
          calls := calls + [OnNote(header)];
        }
      case Ignored =>
      case Unknown => Disconnect();
      case _ => StartPayload(second);
    }

    // receive() with ALOOPER_EVENT_INPUT.
    method Receive(first: Recv, second: Recv)
      requires open && Shape(layout, View())
      modifies this
      ensures View() == Ready(layout, callbacks, old(View()), first, second)
    {
      if parts.window.pending {
        ReceiveWindow(first);
        return;
      }
      if parts.cursor.pending {
        ReceiveCursor(first);
        return;
      }
      if parts.shell.pending {
        ReceiveShell(first);
        return;
      }
      if parts.family.pending {
        ReceiveFamily(first);
        return;
      }
      if first.Again? { return; }
      if Lossy(first) {
        Disconnect();
        return;
      }
      partial := partial + first.bytes;
      if |partial| != layout.headerSize { return; }
      Dispatch(second);
    }
  }
}
