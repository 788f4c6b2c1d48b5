/**
 The window catalogue: records of application windows, refreshed from the X tree, and the events
 that keep the host's idea of them up to date.

 A window has what every refresh compares (title, icon, role) and what only a hook reports (size,
 class, hints); a record has a state of its own (fullscreen, maximized, interaction).  The X tree,
 property contents and client messages are the environment's; the hooks are its promise that what
 refresh does not compare is marked.  Records are assumed to be allocated.
 */
module WindowCatalogue {

  datatype Win = Win(app: bool, realized: bool, compared: nat, reported: nat)

  datatype Tree = Node(id: nat, children: seq<Tree>)

  // What an event tells the host about a window.
  datatype Info = Info(mapped: bool, compared: nat, reported: nat, state: nat)

  datatype Note = Published(id: nat, info: Info) | Removed(id: nat) | Done

  datatype Record = Record(
    id: nat, seen: bool, changed: bool, published: bool, destroyed: bool, state: nat, shown: Info)

  datatype Catalogue = Catalogue(
    observing: bool, dirty: bool, records: seq<Record>, serial: nat,
    wins: map<nat, Win>, tree: Tree, sent: seq<Note>)

  const NOTHING := Info(false, 0, 0, 0)

  // ---------- the host ----------

  function Replay(sent: seq<Note>): map<nat, Info> {
    if sent == [] then map[] else Heard(Replay(sent[..|sent| - 1]), sent[|sent| - 1])
  }

  function Heard(host: map<nat, Info>, n: Note): map<nat, Info> {
    match n
    case Published(id, info) => host[id := info]
    case Removed(id) => host - {id}
    case Done => host
  }

  lemma ReplaySnoc(sent: seq<Note>, n: Note)
    ensures Replay(sent + [n]) == Heard(Replay(sent), n)
  {
    assert (sent + [n])[..|sent|] == sent;
  }

  // ---------- walking the tree ----------

  // Each child and then its own children, last child first.
  function Walk(children: seq<Tree>): seq<nat>
    decreases children
  {
    if children == [] then []
    else
      var last := children[|children| - 1];
      [last.id] + Walk(last.children) + Walk(children[..|children| - 1])
  }

  // How often the tree below has the window.
  function Occurs(children: seq<Tree>, id: nat): nat
    decreases children
  {
    if children == [] then 0
    else
      var init, last := children[..|children| - 1], children[|children| - 1];
      Occurs(init, id) + Occurs(last.children, id) + if last.id == id then 1 else 0
  }

  function Count(order: seq<nat>, id: nat): nat { multiset(order)[id] }

  lemma CountJoins(x: nat, a: seq<nat>, b: seq<nat>, id: nat)
    ensures Count([x] + a + b, id) == (if x == id then 1 else 0) + Count(a, id) + Count(b, id)
  {}

  // The walk meets every window of the tree as often as the tree has it.
  lemma {:induction false} WalkVisitsAll(children: seq<Tree>, id: nat)
    ensures Count(Walk(children), id) == Occurs(children, id)
    decreases children
  {
    if children != [] {
      var init, last := children[..|children| - 1], children[|children| - 1];
      WalkVisitsAll(last.children, id);
      WalkVisitsAll(init, id);
      CountJoins(last.id, Walk(last.children), Walk(init), id);
    }
  }

  ghost predicate TreeOk(tree: Tree, wins: map<nat, Win>) {
    forall id :: Occurs(tree.children, id) == if id in wins then 1 else 0
  }

  // ---------- records ----------

  function FindLive(records: seq<Record>, id: nat, i: nat): (found: nat)
    requires i <= |records|
    ensures i <= found <= |records|
    ensures found < |records| ==> records[found].id == id && !records[found].destroyed
    ensures forall j :: i <= j < found ==> records[j].id != id || records[j].destroyed
    decreases |records| - i
  {
    if i == |records| || (records[i].id == id && !records[i].destroyed) then i else FindLive(records, id, i + 1)
  }

  // recordFor: a new one goes to the front of the list.
  function RecordFor(s: Catalogue, id: nat): Catalogue
    requires id in s.wins
  {
    if !s.wins[id].app || FindLive(s.records, id, 0) < |s.records| || !s.wins[id].realized then s
    else
      var r := Record(id, false, false, false, false, s.serial + 1, NOTHING);
      s.(records := [r] + s.records, serial := s.serial + 1)
  }

  function Current(w: Win, state: nat): Info { Info(w.realized, w.compared, w.reported, state) }

  predicate Stale(r: Record, w: Win) {
    !r.published || r.changed || r.shown.mapped != w.realized || r.shown.compared != w.compared
  }

  function Refreshed(r: Record, w: Win): Record {
    if Stale(r, w) then r.(seen := true, published := true, changed := false, shown := Current(w, r.state))
    else r.(seen := true)
  }

  function PublishWindow(s: Catalogue, id: nat): Catalogue
    requires id in s.wins
  {
    var s := RecordFor(s, id);
    var i := FindLive(s.records, id, 0);
    if !s.wins[id].app || i == |s.records| then s
    else
      var r := Refreshed(s.records[i], s.wins[id]);
      s.(records := s.records[i := r],
         sent := if Stale(s.records[i], s.wins[id]) then s.sent + [Published(id, r.shown)] else s.sent)
  }

  function PublishAll(s: Catalogue, order: seq<nat>): Catalogue
    decreases |order|
  {
    if order == [] then s
    else PublishAll(if order[0] in s.wins then PublishWindow(s, order[0]) else s, order[1..])
  }

  // Take destroyed records out of the list, telling the host of those it knew.
  function Purge(records: seq<Record>, sent: seq<Note>): (seq<Record>, seq<Note>)
    decreases |records|
  {
    if records == [] then ([], sent)
    else
      var r := records[0];
      if r.destroyed then Purge(records[1..], if r.published then sent + [Removed(r.id)] else sent)
      else
        var (rest, notes) := Purge(records[1..], sent);
        ([r] + rest, notes)
  }

  function Unseen(records: seq<Record>): seq<Record> {
    seq(|records|, i requires 0 <= i < |records| => records[i].(seen := false))
  }

  function Sweep(records: seq<Record>, sent: seq<Note>): (seq<Record>, seq<Note>)
    decreases |records|
  {
    if records == [] then ([], sent)
    else if !records[0].seen then Sweep(records[1..], sent + [Removed(records[0].id)])
    else
      var (rest, notes) := Sweep(records[1..], sent);
      ([records[0]] + rest, notes)
  }

  function Purged(s: Catalogue): Catalogue {
    var (records, sent) := Purge(s.records, s.sent);
    s.(dirty := false, records := Unseen(records), sent := sent)
  }

  function Swept(s: Catalogue): Catalogue {
    var (records, sent) := Sweep(s.records, s.sent);
    s.(records := records, sent := sent + [Done])
  }

  predicate Runs(s: Catalogue) { s.observing && s.dirty }

  function Refresh(s: Catalogue): Catalogue {
    if !Runs(s) then s
    else
      var purged := Purged(s);
      Swept(PublishAll(purged, Walk(s.tree.children)))
  }

  // ---------- everything else ----------

  datatype Event =
    | Observe
    | Reset
    | DoRefresh
    | Create(id: nat, win: Win, tree: Tree)
    | Destroy(id: nat, tree: Tree)
    | Change(id: nat, win: Win)                     // properties, mapping, geometry: one window
    | Restack(tree: Tree)
    | Yield(reported: nat)                          // another window manager took over
    | Request(id: nat, updates: bool)               // a client message or the host's confirmation

  function Forgotten(records: seq<Record>): seq<Record> {
    seq(|records|, i requires 0 <= i < |records| => records[i].(published := false))
  }

  function Destroyed(r: Record, id: nat): Record { if r.id == id then r.(destroyed := true) else r }

  function Marked(r: Record, id: nat): Record { if r.id == id then r.(changed := true) else r }

  function DestroyAll(records: seq<Record>, id: nat): seq<Record> {
    seq(|records|, i requires 0 <= i < |records| => Destroyed(records[i], id))
  }

  function MarkAll(records: seq<Record>, id: nat): seq<Record> {
    seq(|records|, i requires 0 <= i < |records| => Marked(records[i], id))
  }

  function ChangedAll(records: seq<Record>): seq<Record> {
    seq(|records|, i requires 0 <= i < |records| => records[i].(changed := true))
  }

  function Rereported(wins: map<nat, Win>, reported: nat): map<nat, Win> {
    map id | id in wins :: wins[id].(reported := reported)
  }

  function Updated(s: Catalogue, i: nat): Catalogue
    requires i < |s.records|
  {
    s.(records := s.records[i := s.records[i].(state := s.serial + 1, changed := true)], serial := s.serial + 1,
       dirty := true)
  }

  // The environment keeps the tree and the windows in step.
  ghost predicate Possible(s: Catalogue, e: Event) {
    match e
    case Create(id, win, tree) => id !in s.wins && TreeOk(tree, s.wins[id := win])
    case Destroy(id, tree) => id in s.wins && TreeOk(tree, s.wins - {id})
    case Change(id, win) => id in s.wins
    case Restack(tree) => TreeOk(tree, s.wins)
    case Request(id, _) => id in s.wins
    case _ => true
  }

  function Step(s: Catalogue, e: Event): Catalogue {
    match e
    case Observe => s.(records := Forgotten(s.records), observing := true, dirty := true, sent := [])
    case Reset => s.(records := Forgotten(s.records), observing := false, dirty := true, sent := [])
    case DoRefresh => Refresh(s)
    case Create(id, win, tree) => s.(wins := s.wins[id := win], tree := tree)
    case Destroy(id, tree) =>
      s.(records := DestroyAll(s.records, id), wins := s.wins - {id}, tree := tree, dirty := true)
    case Change(id, win) =>
      if id !in s.wins then s
      else
        s.(wins := s.wins[id := win], dirty := true,
           records := if s.wins[id].reported != win.reported then MarkAll(s.records, id) else s.records)
    case Restack(tree) => s.(tree := tree, dirty := true)
    case Yield(reported) =>
      s.(wins := Rereported(s.wins, reported), records := ChangedAll(s.records), dirty := true)
    case Request(id, updates) =>
      if id !in s.wins then s
      else
        var s := RecordFor(s, id);
        var i := FindLive(s.records, id, 0);
        if updates && s.wins[id].app && i < |s.records| then Updated(s, i) else s
  }

  // ---------- the invariant ----------

  // One live record a window, and the host was told of at most one of a name.
  ghost predicate Distinct(records: seq<Record>) {
    && (forall i, j :: 0 <= i < j < |records| && !records[i].destroyed && !records[j].destroyed ==> records[i].id != records[j].id)
    && (forall i, j :: 0 <= i < j < |records| && records[i].published && records[j].published ==> records[i].id != records[j].id)
  }

  predicate Told(records: seq<Record>, id: nat, info: Info) {
    exists i :: 0 <= i < |records| && records[i].published && records[i].id == id && records[i].shown == info
  }

  // The host's map is exactly what the published records remember telling it.
  ghost predicate HostOk(records: seq<Record>, host: map<nat, Info>) {
    && (forall r :: r in records && r.published ==> r.id in host && host[r.id] == r.shown)
    && (forall id :: id in host ==> Told(records, id, host[id]))
  }

  // What refresh does not compare is as told, unless the record is marked.
  predicate RecordFresh(r: Record, wins: map<nat, Win>) {
    !r.destroyed ==>
      && r.id in wins
      && (r.published && !r.changed ==> r.shown.reported == wins[r.id].reported && r.shown.state == r.state)
  }

  ghost predicate FreshOk(records: seq<Record>, wins: map<nat, Win>) {
    forall r :: r in records ==> RecordFresh(r, wins)
  }

  ghost predicate Inv(s: Catalogue) {
    && Distinct(s.records)
    && HostOk(s.records, Replay(s.sent))
    && FreshOk(s.records, s.wins)
    && TreeOk(s.tree, s.wins)
  }

  // ---------- the environment keeps it ----------

  // Lists alike in everything the host was told.
  predicate ToldAlike(a: seq<Record>, b: seq<Record>) {
    |a| == |b| && forall i :: 0 <= i < |a| ==> SameTold(a[i], b[i])
  }

  predicate SameTold(a: Record, b: Record) { a.id == b.id && a.published == b.published && a.shown == b.shown }

  lemma ToldAlikeHost(a: seq<Record>, b: seq<Record>, host: map<nat, Info>)
    requires ToldAlike(a, b) && HostOk(a, host)
    ensures HostOk(b, host)
  {
    forall r | r in b && r.published ensures r.id in host && host[r.id] == r.shown {
      var i :| 0 <= i < |b| && b[i] == r;
      assert SameTold(a[i], r) && a[i] in a;
    }
    forall id | id in host ensures Told(b, id, host[id]) {
      assert Told(a, id, host[id]);
      var i :| 0 <= i < |a| && a[i].published && a[i].id == id && a[i].shown == host[id];
      assert SameTold(a[i], b[i]);
    }
  }

  lemma ForgetKeeps(s: Catalogue, observing: bool)
    requires Inv(s)
    ensures Inv(s.(records := Forgotten(s.records), observing := observing, dirty := true, sent := []))
  {
    forall r | r in Forgotten(s.records) ensures RecordFresh(r, s.wins) {
      var i :| 0 <= i < |s.records| && Forgotten(s.records)[i] == r;
      assert RecordFresh(s.records[i], s.wins);
    }
  }

  lemma DestroyKeeps(s: Catalogue, id: nat, tree: Tree)
    requires Inv(s) && Possible(s, Destroy(id, tree))
    ensures Inv(Step(s, Destroy(id, tree)))
  {
    var records := DestroyAll(s.records, id);
    ToldAlikeHost(s.records, records, Replay(s.sent));
    forall r | r in records ensures RecordFresh(r, s.wins - {id}) {
      var i :| 0 <= i < |s.records| && records[i] == r;
      assert RecordFresh(s.records[i], s.wins);
    }
  }

  lemma CreateKeeps(s: Catalogue, id: nat, win: Win, tree: Tree)
    requires Inv(s) && Possible(s, Create(id, win, tree))
    ensures Inv(Step(s, Create(id, win, tree)))
  {
    forall r | r in s.records ensures RecordFresh(r, s.wins[id := win]) {
      assert RecordFresh(r, s.wins);
    }
  }

  lemma ChangeKeeps(s: Catalogue, id: nat, win: Win)
    requires Inv(s) && id in s.wins
    ensures Inv(Step(s, Change(id, win)))
  {
    var wins := s.wins[id := win];
    TreeOkKeys(s.tree, s.wins, wins);
    if s.wins[id].reported != win.reported {
      ToldAlikeHost(s.records, MarkAll(s.records, id), Replay(s.sent));
      MarkFresh(s.records, s.wins, id, win);
    } else {
      forall r | r in s.records ensures RecordFresh(r, wins) {
        assert RecordFresh(r, s.wins);
      }
    }
  }

  lemma MarkFresh(records: seq<Record>, wins: map<nat, Win>, id: nat, win: Win)
    requires FreshOk(records, wins) && Distinct(records)
    ensures FreshOk(MarkAll(records, id), wins[id := win]) && Distinct(MarkAll(records, id))
  {
    var marked := MarkAll(records, id);
    forall r | r in marked ensures RecordFresh(r, wins[id := win]) {
      var i :| 0 <= i < |marked| && marked[i] == r;
      assert RecordFresh(records[i], wins);
    }
  }

  lemma TreeOkKeys(tree: Tree, a: map<nat, Win>, b: map<nat, Win>)
    requires TreeOk(tree, a) && a.Keys == b.Keys
    ensures TreeOk(tree, b)
  {
    forall id ensures Occurs(tree.children, id) == if id in b then 1 else 0 {
      assert id in a.Keys <==> id in b.Keys;
    }
  }

  lemma YieldKeeps(s: Catalogue, reported: nat)
    requires Inv(s)
    ensures Inv(Step(s, Yield(reported)))
  {
    var t := Step(s, Yield(reported));
    ToldAlikeHost(s.records, t.records, Replay(s.sent));
    forall r | r in t.records ensures RecordFresh(r, t.wins) {
      var i :| 0 <= i < |t.records| && t.records[i] == r;
      assert RecordFresh(s.records[i], s.wins);
    }
    TreeOkKeys(s.tree, s.wins, t.wins);
  }

  lemma PrependHost(records: seq<Record>, r: Record, host: map<nat, Info>)
    requires HostOk(records, host) && !r.published
    ensures HostOk([r] + records, host)
  {
    var all := [r] + records;
    forall id | id in host ensures Told(all, id, host[id]) {
      assert Told(records, id, host[id]);
      var i :| 0 <= i < |records| && records[i].published && records[i].id == id && records[i].shown == host[id];
      assert all[i + 1] == records[i];
    }
  }

  lemma RecordForKeeps(s: Catalogue, id: nat)
    requires Inv(s) && id in s.wins
    ensures Inv(RecordFor(s, id))
  {
    var t := RecordFor(s, id);
    if t != s {
      PrependHost(s.records, t.records[0], Replay(s.sent));
      assert forall i :: 1 <= i < |t.records| ==> t.records[i] == s.records[i - 1];
    }
  }

  lemma UpdatedKeeps(s: Catalogue, i: nat)
    requires Inv(s) && i < |s.records|
    ensures Inv(Updated(s, i))
  {
    var t := Updated(s, i);
    ToldAlikeHost(s.records, t.records, Replay(s.sent));
    forall r | r in t.records ensures RecordFresh(r, t.wins) {
      var j :| 0 <= j < |t.records| && t.records[j] == r;
      assert RecordFresh(s.records[j], s.wins);
    }
  }

  lemma RequestKeeps(s: Catalogue, id: nat, updates: bool)
    requires Inv(s) && id in s.wins
    ensures Inv(Step(s, Request(id, updates)))
  {
    RecordForKeeps(s, id);
    var t := RecordFor(s, id);
    var i := FindLive(t.records, id, 0);
    if i < |t.records| {
      UpdatedKeeps(t, i);
    }
  }

  // ---------- refresh: destroyed records go ----------

  ghost predicate IdsOk(records: seq<Record>) {
    forall i, j :: 0 <= i < j < |records| ==> records[i].id != records[j].id
  }

  // Nothing destroyed, and each window once.
  ghost predicate Clean(records: seq<Record>) { IdsOk(records) && forall r :: r in records ==> !r.destroyed }

  predicate Gone(records: seq<Record>, id: nat) {
    exists i :: 0 <= i < |records| && records[i].destroyed && records[i].published && records[i].id == id
  }

  lemma {:induction false} PurgeKeepsLive(records: seq<Record>, sent: seq<Note>)
    ensures forall r :: r in Purge(records, sent).0 <==> r in records && !r.destroyed
    decreases |records|
  {
    if records != [] {
      var r, rest := records[0], records[1..];
      assert records == [r] + rest;
      PurgeKeepsLive(rest, if r.destroyed && r.published then sent + [Removed(r.id)] else sent);
    }
  }

  lemma {:induction false} PurgeIds(records: seq<Record>, sent: seq<Note>)
    requires Distinct(records)
    ensures IdsOk(Purge(records, sent).0)
    decreases |records|
  {
    if records != [] {
      var r, rest := records[0], records[1..];
      var notes := if r.destroyed && r.published then sent + [Removed(r.id)] else sent;
      PurgeIds(rest, notes);
      PurgeKeepsLive(rest, notes);
      if !r.destroyed {
        forall x | x in rest && !x.destroyed ensures x.id != r.id {
          var i :| 0 <= i < |rest| && rest[i] == x;
          assert records[i + 1] == x;
        }
        var kept := Purge(rest, sent).0;
        assert forall i :: 0 <= i < |kept| ==> kept[i] in kept;
      }
    }
  }

  lemma GoneSplit(records: seq<Record>, id: nat)
    requires records != []
    ensures Gone(records, id) <==>
      (records[0].destroyed && records[0].published && records[0].id == id) || Gone(records[1..], id)
  {
    var rest := records[1..];
    if Gone(records, id) {
      var i :| 0 <= i < |records| && records[i].destroyed && records[i].published && records[i].id == id;
      if i > 0 {
        assert rest[i - 1] == records[i];
      }
    }
    if Gone(rest, id) {
      var i :| 0 <= i < |rest| && rest[i].destroyed && rest[i].published && rest[i].id == id;
      assert records[i + 1] == rest[i];
    }
  }

  lemma {:induction false} PurgeTells(records: seq<Record>, sent: seq<Note>, id: nat)
    ensures id in Replay(Purge(records, sent).1) <==> id in Replay(sent) && !Gone(records, id)
    ensures id in Replay(Purge(records, sent).1) ==> Replay(Purge(records, sent).1)[id] == Replay(sent)[id]
    decreases |records|
  {
    if records != [] {
      var r := records[0];
      GoneSplit(records, id);
      ReplaySnoc(sent, Removed(r.id));
      PurgeTells(records[1..], if r.destroyed && r.published then sent + [Removed(r.id)] else sent, id);
    }
  }

  lemma PurgeHost(records: seq<Record>, sent: seq<Note>)
    requires Distinct(records) && HostOk(records, Replay(sent))
    ensures HostOk(Purge(records, sent).0, Replay(Purge(records, sent).1))
  {
    var (kept, notes) := Purge(records, sent);
    var host := Replay(notes);
    PurgeKeepsLive(records, sent);
    forall r | r in kept && r.published ensures r.id in host && host[r.id] == r.shown {
      PurgeTells(records, sent, r.id);
      var i :| 0 <= i < |records| && records[i] == r;
      assert !Gone(records, r.id);
    }
    forall id | id in host ensures Told(kept, id, host[id]) {
      PurgeTells(records, sent, id);
      assert Told(records, id, host[id]);
      var i :| 0 <= i < |records| && records[i].published && records[i].id == id && records[i].shown == host[id];
      assert records[i] in kept;
    }
  }

  // ---------- refresh: every window is looked at ----------

  // In the catalogue: an application that is mapped or was known.
  predicate Listed(w: Win, known: bool) { w.app && (w.realized || known) }

  // The host has this record's window as it is now.
  predicate UpToDate(r: Record, wins: map<nat, Win>) {
    r.id in wins && r.published && !r.changed && r.shown == Current(wins[r.id], r.state)
  }

  predicate Has(records: seq<Record>, id: nat) { exists i :: 0 <= i < |records| && records[i].id == id }

  predicate HasSeen(records: seq<Record>, id: nat) {
    exists i :: 0 <= i < |records| && records[i].id == id && records[i].seen
  }

  // A record when the windows in done have been looked at.
  ghost predicate RecordMid(r: Record, wins: map<nat, Win>, known: set<nat>, done: set<nat>) {
    if r.seen then r.id in done && UpToDate(r, wins) && Listed(wins[r.id], r.id in known)
    else r.id in known && r.id in wins && (r.id in done ==> !wins[r.id].app)
  }

  ghost predicate AllMid(records: seq<Record>, wins: map<nat, Win>, known: set<nat>, done: set<nat>) {
    forall r :: r in records ==> RecordMid(r, wins, known, done)
  }

  // Every known window keeps its record, and every window looked at that belongs has a seen one.
  ghost predicate Covered(records: seq<Record>, wins: map<nat, Win>, known: set<nat>, done: set<nat>) {
    && (forall id :: id in known ==> Has(records, id))
    && (forall id :: id in done && id in wins && Listed(wins[id], id in known) ==> HasSeen(records, id))
  }

  ghost predicate Mid(s: Catalogue, known: set<nat>, done: set<nat>) {
    && Clean(s.records) && FreshOk(s.records, s.wins)
    && HostOk(s.records, Replay(s.sent))
    && AllMid(s.records, s.wins, known, done)
    && Covered(s.records, s.wins, known, done)
  }

  lemma UpdatedIn(records: seq<Record>, i: nat, r: Record, x: Record)
    requires IdsOk(records) && i < |records| && r.id == records[i].id
    ensures x in records[i := r] <==> x == r || (x in records && x.id != r.id)
    ensures IdsOk(records[i := r])
  {
    var u := records[i := r];
    if x in u && x != r {
      var j :| 0 <= j < |u| && u[j] == x;
      assert records[j] == x;
    }
    if x in records && x.id != r.id {
      var j :| 0 <= j < |records| && records[j] == x;
      assert u[j] == x;
    }
    assert u[i] == r;
  }

  // Telling the host about the record at i.
  lemma TellHost(records: seq<Record>, i: nat, r: Record, host: map<nat, Info>)
    requires IdsOk(records) && HostOk(records, host) && i < |records| && r.id == records[i].id && r.published
    ensures HostOk(records[i := r], host[r.id := r.shown])
  {
    var u, after := records[i := r], host[r.id := r.shown];
    forall x ensures x in u <==> x == r || (x in records && x.id != r.id) {
      UpdatedIn(records, i, r, x);
    }
    forall id | id in after ensures Told(u, id, after[id]) {
      if id == r.id {
        assert u[i] == r;
      } else {
        assert Told(records, id, host[id]);
        var j :| 0 <= j < |records| && records[j].published && records[j].id == id && records[j].shown == host[id];
        assert u[j] == records[j];
      }
    }
  }

  lemma SeeHost(records: seq<Record>, i: nat, host: map<nat, Info>)
    requires HostOk(records, host) && i < |records|
    ensures HostOk(records[i := records[i].(seen := true)], host)
  {
    ToldAlikeHost(records, records[i := records[i].(seen := true)], host);
  }

  // The record at i, not yet looked at, is brought up to date.
  lemma RefreshRecord(s: Catalogue, i: nat, known: set<nat>, done: set<nat>, id: nat)
    requires Clean(s.records) && FreshOk(s.records, s.wins) && HostOk(s.records, Replay(s.sent))
    requires i < |s.records| && s.records[i].id == id && id in s.wins && id !in done
    requires Listed(s.wins[id], id in known)
    requires forall r :: r in s.records && r.id != id ==> RecordMid(r, s.wins, known, done)
    requires Covered(s.records, s.wins, known, done)
    ensures var r := Refreshed(s.records[i], s.wins[id]);
      var sent := if Stale(s.records[i], s.wins[id]) then s.sent + [Published(id, r.shown)] else s.sent;
      Mid(s.(records := s.records[i := r], sent := sent), known, done + {id})
  {
    var was := s.records[i];
    var r := Refreshed(was, s.wins[id]);
    var u := s.records[i := r];
    ReplaySnoc(s.sent, Published(id, r.shown));
    if Stale(was, s.wins[id]) {
      TellHost(s.records, i, r, Replay(s.sent));
    } else {
      SeeHost(s.records, i, Replay(s.sent));
    }
    assert RecordFresh(was, s.wins);
    forall x ensures x in u <==> x == r || (x in s.records && x.id != r.id) {
      UpdatedIn(s.records, i, r, x);
    }
    UpdatedIn(s.records, i, r, r);
    RefreshCovers(s.records, i, r, s.wins, known, done);
  }

  lemma RefreshCovers(records: seq<Record>, i: nat, r: Record, wins: map<nat, Win>, known: set<nat>, done: set<nat>)
    requires Covered(records, wins, known, done) && i < |records| && r.id == records[i].id && r.seen
    ensures Covered(records[i := r], wins, known, done + {r.id})
  {
    var u := records[i := r];
    forall id | id in known ensures Has(u, id) {
      var j :| 0 <= j < |records| && records[j].id == id;
      assert u[j].id == id;
    }
    forall id | id in done + {r.id} && id in wins && Listed(wins[id], id in known) ensures HasSeen(u, id) {
      if id == r.id {
        assert u[i] == r;
      } else {
        assert HasSeen(records, id);
        var j :| 0 <= j < |records| && records[j].id == id && records[j].seen;
        assert u[j] == records[j];
      }
    }
  }

  lemma PrependCovers(records: seq<Record>, r: Record, wins: map<nat, Win>, known: set<nat>, done: set<nat>)
    requires Covered(records, wins, known, done)
    ensures Covered([r] + records, wins, known, done)
  {
    var all := [r] + records;
    forall id | id in known ensures Has(all, id) {
      var j :| 0 <= j < |records| && records[j].id == id;
      assert all[j + 1] == records[j];
    }
    forall id | id in done && id in wins && Listed(wins[id], id in known) ensures HasSeen(all, id) {
      assert HasSeen(records, id);
      var j :| 0 <= j < |records| && records[j].id == id && records[j].seen;
      assert all[j + 1] == records[j];
    }
  }

  // A window without a record gets one.
  lemma NewRecord(s: Catalogue, known: set<nat>, done: set<nat>, id: nat)
    requires Mid(s, known, done) && id in s.wins && s.wins[id].app && s.wins[id].realized && id !in done
    requires FindLive(s.records, id, 0) == |s.records|
    ensures var t := RecordFor(s, id);
      && Clean(t.records) && FreshOk(t.records, t.wins) && HostOk(t.records, Replay(t.sent))
      && t.wins == s.wins && t.records[0].id == id
      && (forall r :: r in t.records && r.id != id ==> RecordMid(r, s.wins, known, done))
      && Covered(t.records, t.wins, known, done)
      && FindLive(t.records, id, 0) == 0
  {
    var t := RecordFor(s, id);
    PrependHost(s.records, t.records[0], Replay(s.sent));
    PrependCovers(s.records, t.records[0], s.wins, known, done);
    assert forall i :: 1 <= i < |t.records| ==> t.records[i] == s.records[i - 1];
    assert forall i :: 0 <= i < |s.records| ==> s.records[i] in s.records;
  }

  lemma PublishKeepsMid(s: Catalogue, known: set<nat>, done: set<nat>, id: nat)
    requires Mid(s, known, done) && id in s.wins && id !in done
    ensures Mid(PublishWindow(s, id), known, done + {id})
    ensures PublishWindow(s, id).wins == s.wins
  {
    var i := FindLive(s.records, id, 0);
    if !s.wins[id].app {
      LeaveAlone(s, known, done, id);
    } else if i < |s.records| {
      assert s.records[i] in s.records && RecordMid(s.records[i], s.wins, known, done);
      RefreshRecord(s, i, known, done, id);
    } else if s.wins[id].realized {
      NewRecord(s, known, done, id);
      RefreshRecord(RecordFor(s, id), 0, known, done, id);
    } else {
      NotKnown(s, known, done, id);
      LeaveAlone(s, known, done, id);
    }
  }

  lemma NotKnown(s: Catalogue, known: set<nat>, done: set<nat>, id: nat)
    requires Mid(s, known, done) && FindLive(s.records, id, 0) == |s.records|
    ensures id !in known && !Has(s.records, id)
  {
    assert forall j :: 0 <= j < |s.records| ==> s.records[j] in s.records;
  }

  lemma LeaveAlone(s: Catalogue, known: set<nat>, done: set<nat>, id: nat)
    requires Mid(s, known, done) && id in s.wins && id !in done && !Listed(s.wins[id], id in known)
    requires s.wins[id].app ==> !Has(s.records, id)
    ensures Mid(s, known, done + {id})
  {
    forall r | r in s.records ensures RecordMid(r, s.wins, known, done + {id}) {
      assert RecordMid(r, s.wins, known, done);
      var i :| 0 <= i < |s.records| && s.records[i] == r;
    }
  }

  lemma {:induction false} PublishAllKeepsMid(s: Catalogue, known: set<nat>, done: set<nat>, order: seq<nat>)
    requires Mid(s, known, done)
    requires forall id :: id in order ==> id in s.wins && id !in done
    requires forall id :: Count(order, id) <= 1
    ensures Mid(PublishAll(s, order), known, done + set id | id in order)
    ensures PublishAll(s, order).wins == s.wins
    decreases |order|
  {
    if order == [] {
      assert done + (set id | id in order) == done;
    } else {
      var id, rest := order[0], order[1..];
      PublishKeepsMid(s, known, done, id);
      OrderSplits(order);
      PublishAllKeepsMid(PublishWindow(s, id), known, done + {id}, rest);
      assert done + {id} + (set x | x in rest) == done + set x | x in order;
    }
  }

  lemma OrderSplits(order: seq<nat>)
    requires order != [] && forall id :: Count(order, id) <= 1
    ensures order[0] !in order[1..] && forall id :: Count(order[1..], id) <= 1
    ensures forall id :: id in order <==> id == order[0] || id in order[1..]
  {
    var id, rest := order[0], order[1..];
    assert order == [id] + rest;
    forall x ensures Count(order, x) == Count(rest, x) + if x == id then 1 else 0 {
      CountJoins(id, [], rest, x);
      assert [id] + [] + rest == order;
    }
    assert Count(order, id) <= 1;
    assert id in rest ==> Count(rest, id) >= 1;
  }

  // ---------- refresh: what was not seen goes ----------

  predicate HasUnseen(records: seq<Record>, id: nat) {
    exists i :: 0 <= i < |records| && records[i].id == id && !records[i].seen
  }

  lemma {:induction false} SweepKeepsSeen(records: seq<Record>, sent: seq<Note>)
    ensures forall r :: r in Sweep(records, sent).0 <==> r in records && r.seen
    decreases |records|
  {
    if records != [] {
      var r, rest := records[0], records[1..];
      assert records == [r] + rest;
      SweepKeepsSeen(rest, if r.seen then sent else sent + [Removed(r.id)]);
    }
  }

  lemma {:induction false} SweepIds(records: seq<Record>, sent: seq<Note>)
    requires IdsOk(records)
    ensures IdsOk(Sweep(records, sent).0)
    decreases |records|
  {
    if records != [] {
      var r, rest := records[0], records[1..];
      var notes := if r.seen then sent else sent + [Removed(r.id)];
      SweepIds(rest, notes);
      SweepKeepsSeen(rest, notes);
      if r.seen {
        forall x | x in rest ensures x.id != r.id {
          var i :| 0 <= i < |rest| && rest[i] == x;
          assert records[i + 1] == x;
        }
        var kept := Sweep(rest, sent).0;
        assert forall i :: 0 <= i < |kept| ==> kept[i] in kept;
      }
    }
  }

  lemma UnseenSplit(records: seq<Record>, id: nat)
    requires records != []
    ensures HasUnseen(records, id) <==> (!records[0].seen && records[0].id == id) || HasUnseen(records[1..], id)
  {
    var rest := records[1..];
    if HasUnseen(records, id) {
      var i :| 0 <= i < |records| && records[i].id == id && !records[i].seen;
      if i > 0 {
        assert rest[i - 1] == records[i];
      }
    }
    if HasUnseen(rest, id) {
      var i :| 0 <= i < |rest| && rest[i].id == id && !rest[i].seen;
      assert records[i + 1] == rest[i];
    }
  }

  lemma {:induction false} SweepTells(records: seq<Record>, sent: seq<Note>, id: nat)
    ensures id in Replay(Sweep(records, sent).1) <==> id in Replay(sent) && !HasUnseen(records, id)
    ensures id in Replay(Sweep(records, sent).1) ==> Replay(Sweep(records, sent).1)[id] == Replay(sent)[id]
    decreases |records|
  {
    if records != [] {
      var r := records[0];
      UnseenSplit(records, id);
      ReplaySnoc(sent, Removed(r.id));
      SweepTells(records[1..], if r.seen then sent else sent + [Removed(r.id)], id);
    }
  }

  lemma SweepHost(records: seq<Record>, sent: seq<Note>)
    requires IdsOk(records) && HostOk(records, Replay(sent))
    ensures HostOk(Sweep(records, sent).0, Replay(Sweep(records, sent).1))
  {
    var (kept, notes) := Sweep(records, sent);
    var host := Replay(notes);
    SweepKeepsSeen(records, sent);
    forall r | r in kept && r.published ensures r.id in host && host[r.id] == r.shown {
      SweepTells(records, sent, r.id);
      var i :| 0 <= i < |records| && records[i] == r;
      assert !HasUnseen(records, r.id);
    }
    forall id | id in host ensures Told(kept, id, host[id]) {
      SweepTells(records, sent, id);
      assert Told(records, id, host[id]);
      var i :| 0 <= i < |records| && records[i].published && records[i].id == id && records[i].shown == host[id];
      assert records[i] in kept;
    }
  }

  // ---------- what a refresh achieves ----------

  function LiveIds(records: seq<Record>): set<nat> { set r | r in records && !r.destroyed :: r.id }

  lemma PurgedIsMid(s: Catalogue)
    requires Inv(s)
    ensures Mid(Purged(s), LiveIds(s.records), {}) && Purged(s).wins == s.wins
  {
    var (kept, notes) := Purge(s.records, s.sent);
    PurgeKeepsLive(s.records, s.sent);
    PurgeIds(s.records, s.sent);
    PurgeHost(s.records, s.sent);
    var records := Unseen(kept);
    ToldAlikeHost(kept, records, Replay(notes));
    forall r | r in records ensures !r.destroyed && RecordFresh(r, s.wins) && RecordMid(r, s.wins, LiveIds(s.records), {}) {
      var i :| 0 <= i < |records| && records[i] == r;
      assert kept[i] in kept && RecordFresh(kept[i], s.wins);
    }
    forall id | id in LiveIds(s.records) ensures Has(records, id) {
      var r :| r in s.records && !r.destroyed && r.id == id;
      assert r in kept;
      var i :| 0 <= i < |kept| && kept[i] == r;
      assert records[i].id == id;
    }
  }

  lemma WalkIsOrder(s: Catalogue)
    requires TreeOk(s.tree, s.wins)
    ensures forall id :: Count(Walk(s.tree.children), id) == if id in s.wins then 1 else 0
    ensures forall id :: id in Walk(s.tree.children) <==> id in s.wins
  {
    var order := Walk(s.tree.children);
    forall id ensures Count(order, id) == (if id in s.wins then 1 else 0) && (id in order <==> id in s.wins) {
      WalkVisitsAll(s.tree.children, id);
      assert id in order <==> Count(order, id) > 0;
    }
  }

  // The host's map is exactly the windows that belong, each as it is now.
  ghost predicate HostExact(host: map<nat, Info>, t: Catalogue, known: set<nat>) {
    && (forall id :: id in host <==> id in t.wins && Listed(t.wins[id], id in known))
    && (forall r :: r in t.records ==> r.id in host && host[r.id] == Current(t.wins[r.id], r.state))
    && (forall id :: id in host ==> Has(t.records, id))
  }

  lemma SweptIsExact(s: Catalogue, known: set<nat>, done: set<nat>)
    requires Mid(s, known, done) && TreeOk(s.tree, s.wins) && forall id :: id in s.wins ==> id in done
    ensures HostExact(Replay(Swept(s).sent), Swept(s), known) && Inv(Swept(s)) && Clean(Swept(s).records)
    ensures forall r :: r in Swept(s).records ==> UpToDate(r, s.wins)
  {
    var (kept, notes) := Sweep(s.records, s.sent);
    var host := Replay(notes);
    SweepKeepsSeen(s.records, s.sent);
    SweepIds(s.records, s.sent);
    SweepHost(s.records, s.sent);
    ReplaySnoc(notes, Done);
    forall r | r in kept ensures RecordMid(r, s.wins, known, done) && UpToDate(r, s.wins) && r.id in host {
      assert RecordMid(r, s.wins, known, done);
    }
    forall id | id in host ensures Has(kept, id) && id in s.wins && Listed(s.wins[id], id in known) {
      assert Told(kept, id, host[id]);
      var i :| 0 <= i < |kept| && kept[i].published && kept[i].id == id && kept[i].shown == host[id];
      assert kept[i] in kept && RecordMid(kept[i], s.wins, known, done);
    }
    forall id | id in s.wins && Listed(s.wins[id], id in known) ensures id in host {
      assert HasSeen(s.records, id);
      var i :| 0 <= i < |s.records| && s.records[i].id == id && s.records[i].seen;
      assert s.records[i] in kept;
    }
  }

  // At the end of every refresh that runs, replaying what was sent since Observe gives the host the
  // application windows that are mapped or were known, each with its current state, and nothing
  // else; the records say the same.
  lemma RefreshIsExact(s: Catalogue)
    requires Inv(s) && Runs(s)
    ensures var t := Refresh(s);
      && HostExact(Replay(t.sent), t, LiveIds(s.records)) && t.wins == s.wins
      && Clean(t.records) && (forall r :: r in t.records ==> UpToDate(r, s.wins))
      && Inv(t)
  {
    PurgedIsMid(s);
    WalkIsOrder(s);
    var order := Walk(s.tree.children);
    PublishAllKeepsMid(Purged(s), LiveIds(s.records), {}, order);
    PublishAllFrames(Purged(s), order);
    SweptIsExact(PublishAll(Purged(s), order), LiveIds(s.records), {} + set id | id in order);
  }

  lemma {:induction false} PublishAllFrames(s: Catalogue, order: seq<nat>)
    ensures PublishAll(s, order).tree == s.tree
    decreases |order|
  {
    if order != [] {
      PublishAllFrames(if order[0] in s.wins then PublishWindow(s, order[0]) else s, order[1..]);
    }
  }

  lemma StepKeepsInv(s: Catalogue, e: Event)
    requires Inv(s) && Possible(s, e)
    ensures Inv(Step(s, e))
  {
    match e
    case Observe => ForgetKeeps(s, true);
    case Reset => ForgetKeeps(s, false);
    case DoRefresh =>
      if Runs(s) {
        RefreshIsExact(s);
      }
    case Create(id, win, tree) => CreateKeeps(s, id, win, tree);
    case Destroy(id, tree) => DestroyKeeps(s, id, tree);
    case Change(id, win) => ChangeKeeps(s, id, win);
    case Restack(tree) =>
    case Yield(reported) => YieldKeeps(s, reported);
    case Request(id, updates) => RequestKeeps(s, id, updates);
  }

  function Run(s: Catalogue, events: seq<Event>): Catalogue
    decreases |events|
  {
    if events == [] then s else Run(Step(s, events[0]), events[1..])
  }

  ghost predicate AllPossible(s: Catalogue, events: seq<Event>)
    decreases |events|
  {
    events == [] || (Possible(s, events[0]) && AllPossible(Step(s, events[0]), events[1..]))
  }

  function Init(wins: map<nat, Win>, tree: Tree): Catalogue { Catalogue(false, true, [], 0, wins, tree, []) }

  lemma {:induction false} RunKeepsInv(s: Catalogue, events: seq<Event>)
    requires Inv(s) && AllPossible(s, events)
    ensures Inv(Run(s, events))
    decreases |events|
  {
    if events != [] {
      StepKeepsInv(s, events[0]);
      RunKeepsInv(Step(s, events[0]), events[1..]);
    }
  }

  // The same, for every history of the X tree, the clients and the host's connection.
  lemma EveryRefreshIsExact(wins: map<nat, Win>, tree: Tree, events: seq<Event>)
    requires TreeOk(tree, wins) && AllPossible(Init(wins, tree), events) && Runs(Run(Init(wins, tree), events))
    ensures var s := Run(Init(wins, tree), events);
      var t := Refresh(s);
      HostExact(Replay(t.sent), t, LiveIds(s.records)) && t.wins == s.wins
  {
    RunKeepsInv(Init(wins, tree), events);
    RefreshIsExact(Run(Init(wins, tree), events));
  }

  // An XID destroyed and given to another window between refreshes: the host has the new window, if
  // it belongs in its own right, and nothing of the old one.
  lemma ReusedXidIsTheNewWindow(s: Catalogue, id: nat, gone: Tree, win: Win, back: Tree)
    requires Inv(s) && s.observing && Possible(s, Destroy(id, gone))
    requires Possible(Step(s, Destroy(id, gone)), Create(id, win, back))
    ensures var t := Refresh(Step(Step(s, Destroy(id, gone)), Create(id, win, back)));
      var host := Replay(t.sent);
      && (id in host <==> win.app && win.realized)
      && (id in host ==> host[id].compared == win.compared && host[id].reported == win.reported && host[id].mapped)
  {
    var dead := Step(s, Destroy(id, gone));
    DestroyKeeps(s, id, gone);
    CreateKeeps(dead, id, win, back);
    var s2 := Step(dead, Create(id, win, back));
    assert id !in LiveIds(s2.records) by {
      forall r | r in s2.records && !r.destroyed ensures r.id != id {
        var i :| 0 <= i < |s2.records| && s2.records[i] == r;
      }
    }
    RefreshIsExact(s2);
    var t := Refresh(s2);
    if id in Replay(t.sent) {
      assert Has(t.records, id);
      var i :| 0 <= i < |t.records| && t.records[i].id == id;
      assert t.records[i] in t.records;
    }
  }

  // ---------- the records themselves ----------

  lemma {:induction false} PublishAllJoins(s: Catalogue, a: seq<nat>, b: seq<nat>)
    ensures PublishAll(s, a + b) == PublishAll(PublishAll(s, a), b)
    decreases |a|
  {
    if a == [] {
      assert a + b == b;
    } else {
      assert (a + b)[0] == a[0] && (a + b)[1..] == a[1..] + b;
      PublishAllJoins(if a[0] in s.wins then PublishWindow(s, a[0]) else s, a[1..], b);
    }
  }

  // Visiting the last child, then its own, then the rest.
  lemma WalkLast(s: Catalogue, children: seq<Tree>)
    requires children != []
    ensures var init, last := children[..|children| - 1], children[|children| - 1];
      var visited := if last.id in s.wins then PublishWindow(s, last.id) else s;
      PublishAll(s, Walk(children)) == PublishAll(PublishAll(visited, Walk(last.children)), Walk(init))
  {
    var init, last := children[..|children| - 1], children[|children| - 1];
    PublishAllJoins(s, [last.id] + Walk(last.children), Walk(init));
    assert ([last.id] + Walk(last.children))[1..] == Walk(last.children);
  }

  lemma Regroup(a: seq<Record>, r: Record, b: seq<Record>)
    ensures a + ([r] + b) == (a + [r]) + b
  {}

  // The record list and its flags.  The tree and the windows are the X server's.
  class WindowModel {
    var observing: bool
    var dirty: bool
    var records: seq<Record>
    var serial: nat
    var wins: map<nat, Win>
    var tree: Tree
    var sent: seq<Note>

    ghost function View(): Catalogue reads this { Catalogue(observing, dirty, records, serial, wins, tree, sent) }

    method Find(id: nat) returns (i: nat)
      ensures i == FindLive(records, id, 0)
    {
      i := 0;
      while i < |records| && (records[i].destroyed || records[i].id != id)
        invariant i <= |records|
        invariant FindLive(records, id, 0) == FindLive(records, id, i)
      {
        i := i + 1;
      }
    }

    method Publish(id: nat)
      requires id in wins
      modifies this`records, this`serial, this`sent
      ensures View() == PublishWindow(old(View()), id)
    {
      var window := wins[id];
      if !window.app { return; }
      var i := Find(id);
      if i == |records| {
        if !window.realized { return; }
        serial := serial + 1;
        records := [Record(id, false, false, false, false, serial, NOTHING)] + records;
        i := 0;
      }
      var record := records[i].(seen := true);
      if !record.published || record.changed || record.shown.mapped != window.realized
         || record.shown.compared != window.compared {
        record := record.(shown := Info(window.realized, window.compared, window.reported, record.state));
        sent := sent + [Published(id, record.shown)];
        record := record.(published := true, changed := false);
      }
      records := records[i := record];
    }

    method WalkChildren(children: seq<Tree>)
      modifies this`records, this`serial, this`sent
      ensures View() == PublishAll(old(View()), Walk(children))
      decreases children
    {
      var k: nat := |children|;
      assert children[..k] == children;
      while k > 0
        invariant k <= |children|
        invariant PublishAll(old(View()), Walk(children)) == PublishAll(View(), Walk(children[..k]))
        invariant wins == old(wins) && tree == old(tree) && observing == old(observing) && dirty == old(dirty)
      {
        WalkLast(View(), children[..k]);
        k := k - 1;
        assert children[..k + 1][..k] == children[..k];
        if children[k].id in wins {
          Publish(children[k].id);
        }
        WalkChildren(children[k].children);
      }
      assert children[..0] == [];
    }

    method PurgeDestroyed()
      modifies this`records, this`sent
      ensures (records, sent) == Purge(old(records), old(sent))
    {
      var i := 0;
      ghost var kept, rest: seq<Record> := [], records;
      assert [] + Purge(records, sent).0 == Purge(records, sent).0;
      while i < |records|
        invariant records == kept + rest && i == |kept|
        invariant Purge(old(records), old(sent)) == (kept + Purge(rest, sent).0, Purge(rest, sent).1)
        decreases |rest|
      {
        var record := records[i];
        assert record == rest[0] && rest == [record] + rest[1..];
        if !record.destroyed {
          Regroup(kept, record, Purge(rest[1..], sent).0);
          kept := kept + [record];
          i := i + 1;
        } else {
          records := records[..i] + records[i + 1..];
          if record.published {
            sent := sent + [Removed(record.id)];
          }
        }
        rest := rest[1..];
      }
    }

    method SweepUnseen()
      modifies this`records, this`sent
      ensures (records, sent) == Sweep(old(records), old(sent))
    {
      var i := 0;
      ghost var kept, rest: seq<Record> := [], records;
      assert [] + Sweep(records, sent).0 == Sweep(records, sent).0;
      while i < |records|
        invariant records == kept + rest && i == |kept|
        invariant Sweep(old(records), old(sent)) == (kept + Sweep(rest, sent).0, Sweep(rest, sent).1)
        decreases |rest|
      {
        var record := records[i];
        assert record == rest[0] && rest == [record] + rest[1..];
        if record.seen {
          Regroup(kept, record, Sweep(rest[1..], sent).0);
          kept := kept + [record];
          i := i + 1;
        } else {
          records := records[..i] + records[i + 1..];
          sent := sent + [Removed(record.id)];
        }
        rest := rest[1..];
      }
    }

    method RefreshNow()
      modifies this
      ensures View() == Step(old(View()), DoRefresh)
    {
      if !observing || !dirty { return; }
      dirty := false;
      PurgeDestroyed();
      records := Unseen(records);
      WalkChildren(tree.children);
      SweepUnseen();
      sent := sent + [Done];
    }

    method Restart(observe: bool)
      modifies this
      ensures View() == Step(old(View()), if observe then Observe else Reset)
    {
      records := Forgotten(records);
      observing, dirty, sent := observe, true, [];
    }

    method OnDestroy(id: nat, after: Tree)
      modifies this
      ensures View() == Step(old(View()), Destroy(id, after))
    {
      dirty := true;
      var i := 0;
      while i < |records|
        invariant i <= |records| == |old(records)|
        invariant forall j :: 0 <= j < i ==> records[j] == Destroyed(old(records)[j], id)
        invariant forall j :: i <= j < |records| ==> records[j] == old(records)[j]
        invariant View() == old(View()).(dirty := true, records := records)
      {
        if records[i].id == id {
          records := records[i := records[i].(destroyed := true)];
        }
        i := i + 1;
      }
      assert records == DestroyAll(old(records), id);
      wins, tree := wins - {id}, after;
    }
  }
}
