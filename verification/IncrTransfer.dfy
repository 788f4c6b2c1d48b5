/**
 Incremental transfers (section 2.7.2 of the ICCCM, version 2.0), both ways, against a peer on the
 other side of one window property.

 Outgoing: the bridge owns the selection and hands a file to a requestor, one chunk each time the
 requestor deletes the property.  Incoming: the bridge is the requestor, appends each chunk the
 owner writes to a file, and deletes the property to ask for the next.  Allocation, file and
 property calls may fail at any step; the failures are inputs, and so is the deadline timer.
 */
module IncrTransfer {

  type Byte = bv8

  const CHUNK: nat := 65536
  const MAX_BYTES: nat := 0x800_0000

  function Flatten(chunks: seq<seq<Byte>>): seq<Byte> {
    if chunks == [] then [] else Flatten(chunks[..|chunks| - 1]) + chunks[|chunks| - 1]
  }

  // The file cut into pieces of m, and the empty piece that ends the transfer: what the peer is owed.
  function Chunked(file: seq<Byte>, m: nat): seq<seq<Byte>>
    requires m > 0
  {
    if file == [] then [[]] else [file[..Min(m, |file|)]] + Chunked(file[Min(m, |file|)..], m)
  }

  function Min(a: nat, b: nat): nat { if a < b then a else b }

  lemma FlattenSnoc(chunks: seq<seq<Byte>>, v: seq<Byte>)
    ensures Flatten(chunks + [v]) == Flatten(chunks) + v
  {
    assert (chunks + [v])[..|chunks|] == chunks;
  }

  lemma {:induction false} FlattenCons(v: seq<Byte>, chunks: seq<seq<Byte>>)
    ensures Flatten([v] + chunks) == v + Flatten(chunks)
  {
    if chunks == [] {
      FlattenSnoc([], v);
      assert [] + [v] == [v] + chunks == [v];
    } else {
      var init, last := chunks[..|chunks| - 1], chunks[|chunks| - 1];
      FlattenCons(v, init);
      assert [v] + chunks == ([v] + init) + [last];
      FlattenSnoc([v] + init, last);
      assert chunks == init + [last];
      FlattenSnoc(init, last);
    }
  }

  lemma {:induction false} ChunkedFlattens(file: seq<Byte>, m: nat)
    requires m > 0
    ensures Flatten(Chunked(file, m)) == file
    decreases |file|
  {
    if file == [] {
      FlattenSnoc([], []);
      assert [] + [[]] == Chunked(file, m);
    } else {
      var n := Min(m, |file|);
      ChunkedFlattens(file[n..], m);
      FlattenCons(file[..n], Chunked(file[n..], m));
    }
  }

  predicate OnlyLastEmpty(pieces: seq<seq<Byte>>, m: nat) {
    && |pieces| > 0 && pieces[|pieces| - 1] == []
    && forall i :: 0 <= i < |pieces| - 1 ==> 0 < |pieces[i]| <= m
  }

  lemma {:induction false} ChunkedShape(file: seq<Byte>, m: nat)
    requires m > 0
    ensures OnlyLastEmpty(Chunked(file, m), m)
    decreases |file|
  {
    if file != [] {
      ChunkedShape(file[Min(m, |file|)..], m);
    }
  }

  // What the pieces are: the whole file, none too long, and only the last one empty.
  lemma ChunkedMeaning(file: seq<Byte>, m: nat)
    requires m > 0
    ensures Flatten(Chunked(file, m)) == file && OnlyLastEmpty(Chunked(file, m), m)
  {
    ChunkedFlattens(file, m);
    ChunkedShape(file, m);
  }

  // ==================== outgoing ====================

  datatype Value = Absent | Header(size: nat) | Data(bytes: seq<Byte>)

  // The slot, the property, and the requestor: the chunks it has read and whether it follows the rule.
  datatype Out = Out(
    used: bool, incremental: bool, queued: bool, file: seq<Byte>, offset: nat,
    property: Value, received: seq<seq<Byte>>, failed: bool)

  datatype OutEvent =
    | Take(queueWorks: bool)                       // the requestor reads the property and deletes it
    | Work(window: bool, readWorks: bool, writeWorks: bool)
    | Expire                                       // the deadline, or the selection changed hands

  // The file as the slot sees it: what is left to read.
  function Rest(t: Out): seq<Byte>
    requires t.offset <= |t.file|
  {
    t.file[t.offset..]
  }

  // fail() on an incremental transfer writes an empty value over whatever is there.
  function OutFail(t: Out): Out {
    t.(used := false, failed := true, property := if t.incremental then Data([]) else t.property)
  }

  function SendChunk(t: Out, m: nat, window: bool, readWorks: bool, writeWorks: bool): Out
    requires m > 0 && t.offset <= |t.file|
  {
    if !window then t.(used := false, failed := true)
    else
      var n := Min(m, |t.file| - t.offset);
      if n != 0 && !readWorks then OutFail(t)
      else
        var bytes := t.file[t.offset..t.offset + n];
        var t := t.(offset := t.offset + n);
        if !writeWorks then (if t.incremental then t.(used := false, failed := true) else t.(failed := true))
        else
          var t := t.(property := Data(bytes));
          if t.incremental && n == 0 then t.(used := false) else t
  }

  // LORIE_DATA_REPLY with a usable file: small ones go at once and the slot is released.
  function OutReply(file: seq<Byte>, m: nat, window: bool, readWorks: bool, writeWorks: bool): Out
    requires m > 0
  {
    var t := Out(true, false, false, file, 0, Absent, [], false);
    if !window then t.(used := false, failed := true)
    else if |file| > m then
      if writeWorks then t.(incremental := true, property := Header(|file|))
      else t.(used := false, incremental := true, failed := true)
    else SendChunk(t, m, window, readWorks, writeWorks).(used := false)
  }

  function OutStep(t: Out, m: nat, e: OutEvent): Out
    requires m > 0 && t.offset <= |t.file|
  {
    match e
    case Take(queueWorks) =>
      if t.property.Absent? then t
      else t.(property := Absent,
              received := if t.property.Data? then t.received + [t.property.bytes] else t.received,
              queued := t.queued || (t.used && t.incremental && queueWorks))
    case Work(window, readWorks, writeWorks) =>
      if !t.queued then t
      else if !t.used then t.(queued := false)
      else SendChunk(t.(queued := false), m, window, readWorks, writeWorks)
    case Expire => if t.used then OutFail(t) else t
  }

  lemma OutStepInBounds(t: Out, m: nat, e: OutEvent)
    requires m > 0 && t.offset <= |t.file|
    ensures OutStep(t, m, e).offset <= |t.file| == |OutStep(t, m, e).file|
  {}

  function OutRun(t: Out, m: nat, events: seq<OutEvent>): Out
    requires m > 0 && t.offset <= |t.file|
    decreases |events|
  {
    if events == [] then t else
      OutStepInBounds(t, m, events[0]);
      OutRun(OutStep(t, m, events[0]), m, events[1..])
  }

  function Unread(t: Out): seq<seq<Byte>> { if t.property.Data? then [t.property.bytes] else [] }

  function Owed(t: Out, m: nat): seq<seq<Byte>>
    requires m > 0 && t.offset <= |t.file|
  {
    if t.used then Chunked(Rest(t), m) else []
  }

  // An initial part of the pieces, or one followed by an empty piece out of turn.
  ghost predicate CutShort(got: seq<seq<Byte>>, pieces: seq<seq<Byte>>) {
    got != [] ==> got[..|got| - 1] < pieces && (got <= pieces || got[|got| - 1] == [])
  }

  // Until something fails, what was read, what is on the property and what is still owed are
  // together the pieces of the file; and a piece is only queued once the last one was taken.
  ghost predicate OutInv(t: Out, m: nat)
    requires m > 0
  {
    && t.offset <= |t.file|
    && t.incremental
    && (!t.failed ==> t.received + Unread(t) + Owed(t, m) == Chunked(t.file, m))
    && (t.failed ==> CutShort(t.received + Unread(t), Chunked(t.file, m)))
    && (t.queued ==> t.property.Absent? || t.failed)
    && (t.property.Header? ==> t.received == [])
    && (t.used ==> !t.failed && t.property != Data([]))
  }

  lemma OutStartKeeps(file: seq<Byte>, m: nat, readWorks: bool, writeWorks: bool)
    requires 0 < m < |file|
    ensures OutInv(OutReply(file, m, true, readWorks, writeWorks), m)
  {
    assert file[0..] == file;
  }

  lemma InitialIsCutShort(got: seq<seq<Byte>>, rest: seq<seq<Byte>>, pieces: seq<seq<Byte>>)
    requires got + rest == pieces
    ensures CutShort(got, pieces)
    ensures rest != [] ==> CutShort(got + [[]], pieces)
  {
    assert got <= pieces;
    assert (got + [[]])[..|got|] == got;
  }

  lemma CutShortHere(t: Out, m: nat)
    requires m > 0 && OutInv(t, m) && t.used
    ensures CutShort(t.received + [[]], Chunked(t.file, m)) && CutShort(t.received + Unread(t), Chunked(t.file, m))
  {
    var pieces := Chunked(t.file, m);
    InitialIsCutShort(t.received + Unread(t), Owed(t, m), pieces);
    assert t.received + (Unread(t) + Owed(t, m)) == pieces;
    InitialIsCutShort(t.received, Unread(t) + Owed(t, m), pieces);
  }

  lemma OutFailKeeps(t: Out, m: nat)
    requires m > 0 && OutInv(t, m) && t.used
    ensures OutInv(OutFail(t), m)
  {
    CutShortHere(t, m);
  }

  lemma OutTakeKeeps(t: Out, m: nat, queueWorks: bool)
    requires m > 0 && OutInv(t, m)
    ensures OutInv(OutStep(t, m, Take(queueWorks)), m)
  {
    var after := OutStep(t, m, Take(queueWorks));
    assert after.received + Unread(after) == t.received + Unread(t);
  }

  // A chunk that was written is the next piece.
  lemma SentIsNext(t: Out, m: nat)
    requires m > 0 && t.offset <= |t.file| && t.received + Chunked(Rest(t), m) == Chunked(t.file, m)
    ensures var n := Min(m, |t.file| - t.offset);
      var bytes := t.file[t.offset..t.offset + n];
      t.received + [bytes] + (if n == 0 then [] else Chunked(t.file[t.offset + n..], m)) == Chunked(t.file, m)
  {
    NextPiece(t.file, t.offset, m, t.received);
  }

  lemma OwedWhenTaken(t: Out, m: nat)
    requires m > 0 && OutInv(t, m) && t.used && t.property.Absent?
    ensures t.received + Chunked(Rest(t), m) == Chunked(t.file, m)
  {
    NothingUnread(t.received, Owed(t, m));
  }

  lemma NothingUnread(read: seq<seq<Byte>>, rest: seq<seq<Byte>>)
    ensures read + [] + rest == read + rest
  {}

  lemma NextPiece(file: seq<Byte>, offset: nat, m: nat, read: seq<seq<Byte>>)
    requires m > 0 && offset <= |file|
    ensures var n := Min(m, |file| - offset);
      read + [file[offset..offset + n]] + (if n == 0 then [] else Chunked(file[offset + n..], m)) ==
      read + Chunked(file[offset..], m)
  {
    var n := Min(m, |file| - offset);
    var after: seq<seq<Byte>> := if n == 0 then [] else Chunked(file[offset + n..], m);
    FirstPiece(file, offset, m);
    ThreeParts(read, [file[offset..offset + n]], after);
  }

  lemma FirstPiece(file: seq<Byte>, offset: nat, m: nat)
    requires m > 0 && offset <= |file|
    ensures var n := Min(m, |file| - offset);
      Chunked(file[offset..], m) == [file[offset..offset + n]] + if n == 0 then [] else Chunked(file[offset + n..], m)
  {
    var n := Min(m, |file| - offset);
    var rest := file[offset..];
    assert rest[..n] == file[offset..offset + n] && rest[n..] == file[offset + n..];
  }

  lemma ThreeParts(a: seq<seq<Byte>>, b: seq<seq<Byte>>, c: seq<seq<Byte>>)
    ensures a + b + c == a + (b + c)
  {}

  lemma OutSentKeeps(t: Out, m: nat)
    requires m > 0 && OutInv(t, m) && t.used && !t.queued && t.property.Absent?
    ensures OutInv(SendChunk(t, m, true, true, true), m)
  {
    OwedWhenTaken(t, m);
    SentIsNext(t, m);
  }

  lemma OutSendKeeps(t: Out, m: nat, window: bool, readWorks: bool, writeWorks: bool)
    requires m > 0 && OutInv(t, m) && t.used && !t.queued && t.property.Absent?
    ensures OutInv(SendChunk(t, m, window, readWorks, writeWorks), m)
  {
    var n := Min(m, |t.file| - t.offset);
    if window && (n == 0 || readWorks) && writeWorks {
      OutSentKeeps(t, m);
    } else {
      CutShortHere(t, m);
    }
  }

  lemma OutStepKeeps(t: Out, m: nat, e: OutEvent)
    requires m > 0 && OutInv(t, m)
    ensures OutInv(OutStep(t, m, e), m) && OutStep(t, m, e).file == t.file
  {
    match e
    case Take(queueWorks) => OutTakeKeeps(t, m, queueWorks);
    case Work(window, readWorks, writeWorks) =>
      if t.queued && t.used {
        OutSendKeeps(t.(queued := false), m, window, readWorks, writeWorks);
      }
    case Expire =>
      if t.used {
        OutFailKeeps(t, m);
      }
  }

  lemma {:induction false} OutRunKeeps(t: Out, m: nat, events: seq<OutEvent>)
    requires m > 0 && OutInv(t, m)
    ensures OutInv(OutRun(t, m, events), m) && OutRun(t, m, events).file == t.file
    decreases |events|
  {
    if events != [] {
      OutStepKeeps(t, m, events[0]);
      OutRunKeeps(OutStep(t, m, events[0]), m, events[1..]);
    }
  }

  // ---------- what the requestor gets ----------

  lemma {:induction false} FlattenPrefix(got: seq<seq<Byte>>, pieces: seq<seq<Byte>>)
    requires got <= pieces
    ensures Flatten(got) <= Flatten(pieces)
    decreases |pieces|
  {
    if got != pieces {
      var init := pieces[..|pieces| - 1];
      FlattenPrefix(got, init);
      assert pieces == init + [pieces[|pieces| - 1]];
      FlattenSnoc(init, pieces[|pieces| - 1]);
    }
  }

  // What an initial part of the pieces looks like, cut short or not.
  lemma CutShortFacts(got: seq<seq<Byte>>, pieces: seq<seq<Byte>>, m: nat)
    requires CutShort(got, pieces) && OnlyLastEmpty(pieces, m)
    ensures |got| <= |pieces|
    ensures forall i :: 0 <= i < |got| ==> |got[i]| <= m
    ensures forall i :: 0 <= i < |got| - 1 ==> got[i] != []
    ensures Flatten(got) <= Flatten(pieces)
  {
    if got != [] {
      var init, last := got[..|got| - 1], got[|got| - 1];
      FlattenPrefix(init, pieces);
      assert forall i :: 0 <= i < |got| - 1 ==> got[i] == init[i] == pieces[i];
      if got <= pieces {
        FlattenPrefix(got, pieces);
      } else {
        assert got == init + [last];
        FlattenSnoc(init, last);
      }
    }
  }

  lemma DeliveredIsCutShort(t: Out, m: nat)
    requires m > 0 && OutInv(t, m)
    ensures CutShort(t.received + Unread(t), Chunked(t.file, m))
  {
    if !t.failed {
      InitialIsCutShort(t.received + Unread(t), Owed(t, m), Chunked(t.file, m));
    }
  }

  // An empty chunk that was read is the end of everything sent.
  lemma EmptyEnds(t: Out, m: nat, i: nat)
    requires m > 0 && OutInv(t, m) && i < |t.received| && t.received[i] == []
    ensures i == |t.received| - 1 && !t.used && t.property.Absent?
    ensures !t.failed ==> t.received == Chunked(t.file, m)
  {
    var got, pieces := t.received + Unread(t), Chunked(t.file, m);
    ChunkedMeaning(t.file, m);
    DeliveredIsCutShort(t, m);
    CutShortFacts(got, pieces, m);
    assert got[i] == [];
    if !t.failed {
      assert got + Owed(t, m) == pieces && pieces[i] == [];
    }
  }

  // Whatever happens, and however the deadline falls: chunks fit, what was read is a prefix of the
  // file, only the last chunk read can be empty, and once it was read the slot is free and nothing
  // more will come.  If nothing failed by then, it was the whole file.
  lemma OutgoingDelivers(file: seq<Byte>, m: nat, events: seq<OutEvent>)
    requires 0 < m < |file|
    ensures var t := OutRun(OutReply(file, m, true, true, true), m, events);
      && (forall i :: 0 <= i < |t.received| ==> |t.received[i]| <= m)
      && (forall i :: 0 <= i < |t.received| - 1 ==> t.received[i] != [])
      && Flatten(t.received) <= file
      && ([] in t.received ==> !t.used && t.property.Absent?)
      && ([] in t.received && !t.failed ==> t.received == Chunked(file, m) && Flatten(t.received) == file)
  {
    var start := OutReply(file, m, true, true, true);
    OutStartKeeps(file, m, true, true);
    OutRunKeeps(start, m, events);
    OutInvDelivers(OutRun(start, m, events), m);
  }

  lemma OutInvDelivers(t: Out, m: nat)
    requires m > 0 && OutInv(t, m)
    ensures forall i :: 0 <= i < |t.received| ==> |t.received[i]| <= m
    ensures forall i :: 0 <= i < |t.received| - 1 ==> t.received[i] != []
    ensures Flatten(t.received) <= t.file
    ensures [] in t.received ==> !t.used && t.property.Absent?
    ensures [] in t.received && !t.failed ==> t.received == Chunked(t.file, m) && Flatten(t.received) == t.file
  {
    var got, pieces := t.received + Unread(t), Chunked(t.file, m);
    ChunkedMeaning(t.file, m);
    DeliveredIsCutShort(t, m);
    CutShortFacts(got, pieces, m);
    assert forall i :: 0 <= i < |t.received| ==> got[i] == t.received[i];
    FlattenPrefix(t.received, got);
    if [] in t.received {
      var i :| 0 <= i < |t.received| && t.received[i] == [];
      EmptyEnds(t, m, i);
    }
  }

  // The bridge's own constants: chunks of at most 65536 bytes.
  lemma OutgoingDeliversFile(file: seq<Byte>, events: seq<OutEvent>)
    requires |file| > CHUNK
    ensures var t := OutRun(OutReply(file, CHUNK, true, true, true), CHUNK, events);
      && (forall i :: 0 <= i < |t.received| ==> |t.received[i]| <= 65536)
      && Flatten(t.received) <= file
      && ([] in t.received && !t.failed ==> Flatten(t.received) == file && !t.used)
  {
    OutgoingDelivers(file, CHUNK, events);
  }

  // A failure looks like the end to the requestor: it reads an empty chunk, and what it has is the
  // whole file exactly when everything had been read and taken when the failure came.
  lemma FailureLooksComplete(t: Out, m: nat)
    requires m > 0 && OutInv(t, m) && t.used
    ensures var after := OutStep(OutStep(t, m, Expire), m, Take(true));
      && after.received == t.received + [[]] && !after.used && after.property.Absent?
      && (Flatten(after.received) == t.file <==> t.offset == |t.file| && !t.property.Data?)
  {
    FlattenSnoc(t.received, []);
    ChunkedMeaning(t.file, m);
    ChunkedMeaning(Rest(t), m);
    FlattenAppend(t.received + Unread(t), Chunked(Rest(t), m));
    FlattenAppend(t.received, Unread(t));
    if t.property.Data? {
      FlattenSnoc([], t.property.bytes);
      assert [] + [t.property.bytes] == Unread(t);
    }
    assert |t.file| == |Flatten(t.received)| + |Flatten(Unread(t))| + |Rest(t)|;
  }

  lemma OutRunCons(t: Out, m: nat, e: OutEvent, rest: seq<OutEvent>)
    requires m > 0 && t.offset <= |t.file| && OutStep(t, m, e).offset <= |OutStep(t, m, e).file|
    ensures OutRun(t, m, [e] + rest) == OutRun(OutStep(t, m, e), m, rest)
  {
    assert ([e] + rest)[1..] == rest;
  }

  // From the reply on: one chunk is taken, the transfer expires, and the requestor reads the end.
  lemma CutOffRun(file: seq<Byte>, m: nat)
    requires 0 < m < |file|
    ensures OutRun(OutReply(file, m, true, true, true), m,
                   [Take(true)] + ([Work(true, true, true)] + ([Take(true)] + ([Expire] + ([Take(true)] + []))))).received
      == [file[..m], []]
  {
    var t0 := OutReply(file, m, true, true, true);
    var t1 := OutStep(t0, m, Take(true));
    var t2 := OutStep(t1, m, Work(true, true, true));
    var t3 := OutStep(t2, m, Take(true));
    var t4 := OutStep(t3, m, Expire);
    OutRunCons(t0, m, Take(true), [Work(true, true, true)] + ([Take(true)] + ([Expire] + ([Take(true)] + []))));
    OutRunCons(t1, m, Work(true, true, true), [Take(true)] + ([Expire] + ([Take(true)] + [])));
    OutRunCons(t2, m, Take(true), [Expire] + ([Take(true)] + []));
    OutRunCons(t3, m, Expire, [Take(true)] + []);
    OutRunCons(t4, m, Take(true), []);
    assert t2.property == Data(file[..m]) && t4.property == Data([]);
  }

  lemma {:induction false} FlattenAppend(a: seq<seq<Byte>>, b: seq<seq<Byte>>)
    ensures Flatten(a + b) == Flatten(a) + Flatten(b)
    decreases |b|
  {
    if b == [] {
      assert a + b == a;
    } else {
      var init, last := b[..|b| - 1], b[|b| - 1];
      FlattenAppend(a, init);
      assert b == init + [last];
      JoinSnoc(a, init, last);
      FlattenSnoc(a + init, last);
      FlattenSnoc(init, last);
    }
  }

  lemma JoinSnoc(a: seq<seq<Byte>>, init: seq<seq<Byte>>, last: seq<Byte>)
    ensures a + (init + [last]) == (a + init) + [last]
  {}

  // ---------- and it gets everything ----------

  // The requestor keeps taking and nothing fails.
  function Cooperate(t: Out, m: nat, rounds: nat): (done: Out)
    requires m > 0 && t.offset <= |t.file|
    ensures done.offset <= |done.file|
    decreases rounds
  {
    if rounds == 0 then t
    else
      OutStepInBounds(t, m, Take(true));
      var taken := OutStep(t, m, Take(true));
      OutStepInBounds(taken, m, Work(true, true, true));
      Cooperate(OutStep(taken, m, Work(true, true, true)), m, rounds - 1)
  }

  lemma CooperateRound(t: Out, m: nat)
    requires m > 0 && OutInv(t, m) && t.used && !t.property.Absent?
    ensures var next := OutStep(OutStep(t, m, Take(true)), m, Work(true, true, true));
      && OutInv(next, m) && next.file == t.file && !next.failed && !next.property.Absent?
      && |Owed(next, m)| == |Owed(t, m)| - 1
      && (next.used <==> |Owed(t, m)| > 1)
  {
    var taken := OutStep(t, m, Take(true));
    OutStepKeeps(t, m, Take(true));
    OutStepKeeps(taken, m, Work(true, true, true));
    var n := Min(m, |t.file| - t.offset);
    assert Rest(taken)[n..] == t.file[t.offset + n..];
  }

  lemma {:induction false} CooperateCompletes(t: Out, m: nat)
    requires m > 0 && OutInv(t, m) && t.used && !t.property.Absent?
    ensures var last := Cooperate(t, m, |Owed(t, m)|);
      !last.used && !last.failed && last.file == t.file && OutInv(last, m)
    decreases |Owed(t, m)|
  {
    CooperateRound(t, m);
    var next := OutStep(OutStep(t, m, Take(true)), m, Work(true, true, true));
    if next.used {
      CooperateCompletes(next, m);
    }
  }

  // With a requestor that keeps taking, one round per piece and one last read hand over the whole
  // file, in pieces, ended by the one empty chunk, and the slot is free.
  lemma OutgoingCompletes(file: seq<Byte>, m: nat)
    requires 0 < m < |file|
    ensures var start := OutReply(file, m, true, true, true);
      var done := OutStep(Cooperate(start, m, |Chunked(file, m)|), m, Take(true));
      done.received == Chunked(file, m) && Flatten(done.received) == file && !done.used && !done.failed
  {
    var start := OutReply(file, m, true, true, true);
    OutStartKeeps(file, m, true, true);
    assert start.file[0..] == file;
    CooperateCompletes(start, m);
    ChunkedMeaning(file, m);
  }

  // A file that fits one chunk is written whole and the slot is free at once.
  lemma SmallFileIsWhole(file: seq<Byte>, m: nat)
    requires m > 0 && |file| <= m
    ensures var t := OutReply(file, m, true, true, true);
      t.property == Data(file) && !t.used && !t.failed && t.offset == |file|
  {
    assert file[0..|file|] == file;
  }

  // ==================== incoming ====================

  datatype Option<T> = None | Some(value: T)

  // What the owner left on the property: nothing, the INCR announcement, bytes, or something else.
  datatype Prop = NoProp | Incr(lower: nat) | Bytes(v: seq<Byte>) | Foreign

  // What goes back to the host.
  datatype Reply = Refused | Complete(file: seq<Byte>)

  datatype In = In(
    used: bool, incremental: bool, queued: bool, size: nat, file: Option<seq<Byte>>, prop: Prop, replies: seq<Reply>)

  // The requestor window exists, the offer is still the current one, the file calls succeed.
  datatype Io = Io(window: bool, current: bool, createWorks: bool, writeWorks: bool)

  const IO_OK := Io(true, true, true, true)

  function Zeros(n: nat): seq<Byte> { seq(n, i => 0) }

  // pwrite: a write past the end leaves a hole of zeros, one inside overwrites.
  function Pwrite(file: seq<Byte>, v: seq<Byte>, at: nat): seq<Byte> {
    (if |file| < at then file + Zeros(at - |file|) else file[..at]) + v
    + if |file| > at + |v| then file[at + |v|..] else []
  }

  function InFail(t: In): In { t.(used := false, file := None, replies := t.replies + [Refused]) }

  function Received(t: In, v: seq<Byte>, file: seq<Byte>): In {
    var written := if v == [] then file else Pwrite(file, v, t.size);
    var t := t.(size := t.size + |v|);
    if !t.incremental || v == [] then t.(used := false, file := None, replies := t.replies + [Complete(written)])
    else t.(file := Some(written), prop := NoProp)
  }

  function Receive(t: In, max: nat, initial: bool, io: Io): In {
    if !io.window || t.prop.NoProp? || !io.current then InFail(t)
    else if initial && t.prop.Incr? then
      if t.prop.lower > max || !io.createWorks then InFail(t)
      else t.(file := Some([]), incremental := true, prop := NoProp)
    else ReceiveBytes(t, max, io)
  }

  function ReceiveBytes(t: In, max: nat, io: Io): In {
    if !t.prop.Bytes? || |t.prop.v| > max - t.size then InFail(t)
    else if t.file.None? && !io.createWorks then InFail(t)
    else if t.prop.v != [] && !io.writeWorks then InFail(t)
    else Received(t, t.prop.v, if t.file.None? then [] else t.file.value)
  }

  // ---------- any owner at all ----------

  datatype InEvent =
    | OwnerSets(prop: Prop, queueWorks: bool)
    | Notified(named: bool, io: Io)                // SelectionNotify, naming the property or refusing
    | InWork(io: Io)
    | InExpire

  function InStep(t: In, max: nat, e: InEvent): In {
    match e
    case OwnerSets(prop, queueWorks) =>
      t.(prop := prop, queued := t.queued || (t.used && t.incremental && !prop.NoProp? && queueWorks))
    case Notified(named, io) =>
      if !t.used then t else if named then Receive(t, max, true, io) else InFail(t)
    case InWork(io) =>
      if !t.queued then t
      else if !t.used then t.(queued := false)
      else Receive(t.(queued := false), max, false, io)
    case InExpire => if t.used then InFail(t) else t
  }

  function InRun(t: In, max: nat, events: seq<InEvent>): In
    decreases |events|
  {
    if events == [] then t else InRun(InStep(t, max, events[0]), max, events[1..])
  }

  function Requested(): In { In(true, false, false, 0, None, NoProp, []) }

  ghost predicate Bounded(t: In, max: nat) {
    && t.size <= max
    && (t.file.Some? ==> |t.file.value| <= t.size)
    && (forall i :: 0 <= i < |t.replies| && t.replies[i].Complete? ==> |t.replies[i].file| <= max)
    && |t.replies| == if t.used then 0 else 1
  }

  lemma ReceiveKeepsBounded(t: In, max: nat, initial: bool, io: Io)
    requires Bounded(t, max) && t.used
    ensures Bounded(Receive(t, max, initial, io), max)
  {}

  lemma {:induction false} InRunKeepsBounded(t: In, max: nat, events: seq<InEvent>)
    requires Bounded(t, max)
    ensures Bounded(InRun(t, max, events), max)
    decreases |events|
  {
    if events != [] {
      match events[0] {
        case Notified(named, io) =>
          if t.used {
            ReceiveKeepsBounded(t, max, true, io);
          }
        case InWork(io) =>
          if t.used {
            ReceiveKeepsBounded(t.(queued := false), max, false, io);
          }
        case OwnerSets(_, _) =>
        case InExpire =>
      }
      InRunKeepsBounded(InStep(t, max, events[0]), max, events[1..]);
    }
  }

  // Whatever the owner does, the accumulated size never passes the limit, so the space left never
  // underflows; and the host hears at most once, exactly when the slot is freed.
  lemma IncomingStaysBounded(events: seq<InEvent>)
    ensures var t := InRun(Requested(), MAX_BYTES, events);
      && t.size <= MAX_BYTES && MAX_BYTES - t.size >= 0
      && (t.file.Some? ==> |t.file.value| <= MAX_BYTES)
      && |t.replies| <= 1 && (t.replies == [] <==> t.used)
      && (t.replies != [] && t.replies[0].Complete? ==> |t.replies[0].file| <= MAX_BYTES)
  {
    InRunKeepsBounded(Requested(), MAX_BYTES, events);
  }

  // ---------- an owner that follows the rule ----------

  // It writes a chunk only when the property is gone, and nothing after the empty one.
  datatype Exchange = Exchange(t: In, chunks: seq<seq<Byte>>, ended: bool)

  datatype OwnerEvent = Writes(v: seq<Byte>, queueWorks: bool) | Serve(io: Io) | Deadline

  function ExchangeStep(x: Exchange, max: nat, e: OwnerEvent): Exchange {
    match e
    case Writes(v, queueWorks) =>
      if x.ended || !x.t.prop.NoProp? then x
      else Exchange(InStep(x.t, max, OwnerSets(Bytes(v), queueWorks)), x.chunks + [v], v == [])
    case Serve(io) => x.(t := InStep(x.t, max, InWork(io)))
    case Deadline => x.(t := InStep(x.t, max, InExpire))
  }

  function ExchangeRun(x: Exchange, max: nat, events: seq<OwnerEvent>): Exchange
    decreases |events|
  {
    if events == [] then x else ExchangeRun(ExchangeStep(x, max, events[0]), max, events[1..])
  }

  // The owner announced an incremental transfer of at least lower bytes.
  function Announced(lower: nat, max: nat): Exchange {
    Exchange(InStep(Requested().(prop := Incr(lower)), max, Notified(true, IO_OK)), [], false)
  }

  function OnProperty(t: In): seq<Byte> { if t.prop.Bytes? then t.prop.v else [] }

  ghost predicate ExchangeInv(x: Exchange, max: nat) {
    && (x.t.prop.NoProp? || x.t.prop.Bytes?)
    && (x.ended ==> x.t.prop == Bytes([]))
    && (x.t.used ==>
          && x.t.incremental && x.t.file.Some? && |x.t.file.value| == x.t.size && x.t.replies == []
          && Flatten(x.chunks) == x.t.file.value + OnProperty(x.t)
          && (x.t.prop == Bytes([]) ==> x.ended)
          && (x.t.queued ==> x.t.prop.Bytes?))
    && (!x.t.used ==> |x.t.replies| == 1 && (x.t.replies[0].Complete? ==>
          x.ended && x.t.replies[0].file == Flatten(x.chunks)))
  }

  lemma WriteKeeps(x: Exchange, max: nat, v: seq<Byte>, queueWorks: bool)
    requires ExchangeInv(x, max)
    ensures ExchangeInv(ExchangeStep(x, max, Writes(v, queueWorks)), max)
  {
    FlattenSnoc(x.chunks, v);
  }

  lemma ServeKeeps(x: Exchange, max: nat, io: Io)
    requires ExchangeInv(x, max)
    ensures ExchangeInv(ExchangeStep(x, max, Serve(io)), max)
  {
    if x.t.queued && x.t.used {
      assert Pwrite(x.t.file.value, x.t.prop.v, x.t.size) == x.t.file.value + x.t.prop.v;
    }
  }

  lemma {:induction false} ExchangeRunKeeps(x: Exchange, max: nat, events: seq<OwnerEvent>)
    requires ExchangeInv(x, max)
    ensures ExchangeInv(ExchangeRun(x, max, events), max)
    decreases |events|
  {
    if events != [] {
      match events[0] {
        case Writes(v, queueWorks) => WriteKeeps(x, max, v, queueWorks);
        case Serve(io) => ServeKeeps(x, max, io);
        case Deadline =>
      }
      ExchangeRunKeeps(ExchangeStep(x, max, events[0]), max, events[1..]);
    }
  }

  // A file that reaches the host is exactly the owner's chunks, concatenated, up to the empty one.
  lemma IncomingIsWhatWasSent(lower: nat, max: nat, events: seq<OwnerEvent>)
    requires lower <= max
    ensures var x := ExchangeRun(Announced(lower, max), max, events);
      x.t.replies != [] && x.t.replies[0].Complete? ==>
        x.ended && x.t.replies[0].file == Flatten(x.chunks)
  {
    ExchangeRunKeeps(Announced(lower, max), max, events);
  }

  // While calls succeed, a chunk is refused exactly when it takes the total past the limit.
  lemma RefusedOnlyWhenTooLong(x: Exchange, max: nat)
    requires ExchangeInv(x, max) && x.t.used && x.t.queued
    ensures Refused in ExchangeStep(x, max, Serve(IO_OK)).t.replies <==> |Flatten(x.chunks)| > max
    ensures x.ended && |Flatten(x.chunks)| <= max ==>
      ExchangeStep(x, max, Serve(IO_OK)).t.replies == [Complete(Flatten(x.chunks))]
  {
    assert |Flatten(x.chunks)| == x.t.size + |x.t.prop.v|;
    if x.ended {
      assert x.t.file.value + [] == x.t.file.value;
    }
  }

  // The owner writes one chunk and the bridge serves it.
  function Round(x: Exchange, max: nat, v: seq<Byte>): Exchange {
    ExchangeStep(ExchangeStep(x, max, Writes(v, true)), max, Serve(IO_OK))
  }

  function SendAll(x: Exchange, max: nat, chunks: seq<seq<Byte>>): Exchange
    decreases |chunks|
  {
    if chunks == [] then x else SendAll(Round(x, max, chunks[0]), max, chunks[1..])
  }

  ghost predicate Ready(x: Exchange, max: nat) {
    ExchangeInv(x, max) && x.t.used && !x.ended && x.t.prop.NoProp?
  }

  lemma SendOne(x: Exchange, max: nat, v: seq<Byte>)
    requires Ready(x, max) && |Flatten(x.chunks)| + |v| <= max
    ensures Round(x, max, v).chunks == x.chunks + [v]
    ensures if v == [] then Round(x, max, v).t.replies == [Complete(Flatten(x.chunks))] else Ready(Round(x, max, v), max)
  {
    WriteKeeps(x, max, v, true);
    var written := ExchangeStep(x, max, Writes(v, true));
    ServeKeeps(written, max, IO_OK);
    FlattenSnoc(x.chunks, v);
    RefusedOnlyWhenTooLong(written, max);
  }

  lemma SendAllCons(x: Exchange, max: nat, v: seq<Byte>, rest: seq<seq<Byte>>)
    ensures SendAll(x, max, [v] + rest) == SendAll(Round(x, max, v), max, rest)
  {
    assert ([v] + rest)[1..] == rest;
  }

  lemma SplitFirst(before: seq<seq<Byte>>, chunks: seq<seq<Byte>>)
    requires chunks != []
    ensures chunks + [[]] == [chunks[0]] + (chunks[1..] + [[]])
    ensures Flatten(before + [chunks[0]]) + Flatten(chunks[1..]) == Flatten(before) + Flatten(chunks)
    ensures |chunks[0]| <= |Flatten(chunks)|
  {
    var v, rest := chunks[0], chunks[1..];
    assert chunks == [v] + rest;
    FlattenCons(v, rest);
    FlattenSnoc(before, v);
  }

  // Every sequence of chunks within the limit arrives whole.
  lemma {:induction false} IncomingCompletes(x: Exchange, max: nat, chunks: seq<seq<Byte>>)
    requires Ready(x, max) && |Flatten(x.chunks)| + |Flatten(chunks)| <= max && [] !in chunks
    ensures SendAll(x, max, chunks + [[]]).t.replies == [Complete(Flatten(x.chunks) + Flatten(chunks))]
    decreases |chunks|
  {
    if chunks == [] {
      SendOne(x, max, []);
      SendAllCons(x, max, [], []);
      assert chunks + [[]] == [[]] + [];
      assert Flatten(x.chunks) + Flatten(chunks) == Flatten(x.chunks);
    } else {
      var v, rest := chunks[0], chunks[1..];
      SplitFirst(x.chunks, chunks);
      SendOne(x, max, v);
      SendAllCons(x, max, v, rest + [[]]);
      IncomingCompletes(Round(x, max, v), max, rest);
    }
  }

  lemma AnnouncedIsReady(lower: nat, max: nat)
    requires lower <= max
    ensures Ready(Announced(lower, max), max) && Announced(lower, max).chunks == []
  {}

  // Both directions compose: what one bridge sends incrementally another receives as the same file.
  lemma SentAndReceived(file: seq<Byte>, m: nat, max: nat)
    requires 0 < m < |file| <= max
    ensures var done := OutStep(Cooperate(OutReply(file, m, true, true, true), m, |Chunked(file, m)|), m, Take(true));
      SendAll(Announced(|file|, max), max, done.received).t.replies == [Complete(file)]
  {
    OutgoingCompletes(file, m);
    PiecesArrive(file, m, max);
  }

  lemma PiecesArrive(file: seq<Byte>, m: nat, max: nat)
    requires 0 < m < |file| <= max
    ensures SendAll(Announced(|file|, max), max, Chunked(file, m)).t.replies == [Complete(file)]
  {
    ChunkedMeaning(file, m);
    var pieces := Chunked(file, m);
    var init := pieces[..|pieces| - 1];
    assert pieces == init + [[]];
    FlattenSnoc(init, []);
    AnnouncedIsReady(|file|, max);
    assert [] + Flatten(init) == file;
    IncomingCompletes(Announced(|file|, max), max, init);
  }

  // ==================== the slot's own code ====================

  // An outgoing slot: the descriptor is the file behind it, property what the window carries.
  class OutgoingTransfer {
    var used: bool
    var incremental: bool
    var queued: bool
    var fd: seq<Byte>
    var size: nat
    var offset: nat
    var property: Value
    ghost var received: seq<seq<Byte>>
    ghost var failed: bool

    ghost predicate Valid() reads this { offset <= size == |fd| }

    ghost function View(): Out reads this { Out(used, incremental, queued, fd, offset, property, received, failed) }

    // The descriptor arrives with LORIE_DATA_REPLY; m is LORIE_DATA_CHUNK.
    constructor (file: seq<Byte>, m: nat, window: bool, readWorks: bool, writeWorks: bool)
      requires m > 0
      ensures Valid() && View() == OutReply(file, m, window, readWorks, writeWorks)
    {
      used, incremental, queued, fd, size, offset := true, false, false, file, |file|, 0;
      property, received, failed := Absent, [], false;
      new;
      if !window {
        used, failed := false, true;
      } else if size > m {
        incremental := true;
        if writeWorks {
          property := Header(size);
        } else {
          used, failed := false, true;
        }
      } else {
        var success := WriteChunk(m, window, readWorks, writeWorks);
        used := false;
      }
    }

    method Fail()
      modifies this`used, this`failed, this`property
      ensures View() == OutFail(old(View()))
    {
      if incremental {
        property := Data([]);
      }
      used, failed := false, true;
    }

    method WriteChunk(m: nat, window: bool, readWorks: bool, writeWorks: bool) returns (success: bool)
      requires m > 0 && Valid()
      modifies this`used, this`failed, this`property, this`offset
      ensures Valid() && View() == SendChunk(old(View()), m, window, readWorks, writeWorks)
      ensures !success ==> failed
    {
      if !window {
        used, failed := false, true;
        return false;
      }
      var length := Min(m, size - offset);
      if length != 0 && !readWorks {
        Fail();
        return false;
      }
      var bytes := fd[offset..offset + length];
      offset := offset + length;
      if writeWorks {
        property := Data(bytes);
      } else {
        failed := true;
      }
      if incremental && (!writeWorks || length == 0) {
        used := false;
      }
      return writeWorks;
    }

    method PropertyWork(m: nat, window: bool, readWorks: bool, writeWorks: bool)
      requires m > 0 && Valid()
      modifies this
      ensures Valid() && View() == OutStep(old(View()), m, Work(window, readWorks, writeWorks))
    {
      if queued {
        queued := false;
        if used {
          var success := WriteChunk(m, window, readWorks, writeWorks);
        }
      }
    }

    method Expired()
      modifies this`used, this`failed, this`property
      ensures View() == if old(used) then OutFail(old(View())) else old(View())
    {
      if used {
        Fail();
      }
    }
  }

  class IncomingTransfer {
    var used: bool
    var incremental: bool
    var queued: bool
    var fd: Option<seq<Byte>>
    var size: nat
    var prop: Prop
    ghost var replies: seq<Reply>

    ghost function View(): In reads this { In(used, incremental, queued, size, fd, prop, replies) }

    constructor ()
      ensures View() == Requested()
    {
      used, incremental, queued, fd, size, prop, replies := true, false, false, None, 0, NoProp, [];
    }

    method Fail()
      modifies this`used, this`fd, this`replies
      ensures View() == InFail(old(View()))
    {
      replies := replies + [Refused];
      used, fd := false, None;
    }

    method ReadProperty(max: nat, initial: bool, io: Io)
      modifies this
      ensures View() == Receive(old(View()), max, initial, io)
    {
      if !io.window || prop.NoProp? {
        Fail();
        return;
      }
      if !io.current {
        Fail();
        return;
      }
      if initial && prop.Incr? {
        if prop.lower > max {
          Fail();
          return;
        }
        fd := if io.createWorks then Some([]) else None;
        if fd.None? {
          Fail();
          return;
        }
        incremental, prop := true, NoProp;
        return;
      }
      ReadBytes(max, io);
    }

    method ReadBytes(max: nat, io: Io)
      modifies this
      ensures View() == ReceiveBytes(old(View()), max, io)
    {
      if !prop.Bytes? || |prop.v| > max - size {
        Fail();
        return;
      }
      if fd.None? {
        fd := if io.createWorks then Some([]) else None;
      }
      if fd.None? || (prop.v != [] && !io.writeWorks) {
        Fail();
        return;
      }
      if prop.v != [] {
        fd := Some(Pwrite(fd.value, prop.v, size));
      }
      size := size + |prop.v|;
      if !incremental || prop.v == [] {
        replies := replies + [Complete(fd.value)];
        used, fd := false, None;
      } else {
        prop := NoProp;
      }
    }

    method PropertyWork(max: nat, io: Io)
      modifies this
      ensures View() == InStep(old(View()), max, InWork(io))
    {
      if queued {
        queued := false;
        if used {
          ReadProperty(max, false, io);
        }
      }
    }
  }
}
