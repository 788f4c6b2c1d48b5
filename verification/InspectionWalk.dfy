/**
 The bounded family inspection: an iterative walk over the server's window tree that uses only the
 parent, lastChild and prevSib pointers, proved against the recursive preorder of the tree.

 The heap of windows is a table of pointers; a ghost tree says which forest the pointers describe.
 */
module InspectionWalk {

  type Id = nat

  datatype Link = Null | To(id: Id)

  datatype Windows = Windows(parent: Id -> Link, lastChild: Id -> Link, prevSib: Id -> Link)

  datatype Tree = Node(id: Id, children: seq<Tree>)

  const SCAN_LIMIT: nat := 8192
  const DEPTH_LIMIT: nat := 64

  // ---------- the reference: recursive preorder, last child first ----------

  function Preorder(t: Tree): seq<Id>
    decreases t, 1
  {
    [t.id] + Forest(t.children)
  }

  function Forest(ts: seq<Tree>): seq<Id>
    decreases ts, 0
  {
    if ts == [] then [] else Preorder(ts[|ts| - 1]) + Forest(ts[..|ts| - 1])
  }

  // ---------- pointers that describe a tree ----------

  ghost predicate Linked(ws: Windows, t: Tree, i: nat)
    requires i < |t.children|
  {
    && ws.parent(t.children[i].id) == To(t.id)
    && ws.prevSib(t.children[i].id) == (if i == 0 then Null else To(t.children[i - 1].id))
  }

  ghost predicate Represents(ws: Windows, t: Tree)
    decreases t
  {
    && ws.lastChild(t.id) == (if t.children == [] then Null else To(t.children[|t.children| - 1].id))
    && (forall i: nat :: i < |t.children| ==> Linked(ws, t, i))
    && (forall i: nat :: i < |t.children| ==> Represents(ws, t.children[i]))
  }

  // The root is not its own descendant.
  ghost predicate WellFormed(ws: Windows, t: Tree) {
    Represents(ws, t) && t.id !in Forest(t.children)
  }

  // ---------- family membership, inherited from an ancestor ----------

  function Inherits(ws: Windows, w: Link, root: Id, member: Id -> bool, depth: nat): bool
    decreases depth
  {
    depth > 0 && w.To? && w.id != root && (member(w.id) || Inherits(ws, ws.parent(w.id), root, member, depth - 1))
  }

  function Ancestor(ws: Windows, w: Link, k: nat): Link
    decreases k
  {
    if k == 0 || w.Null? then w else Ancestor(ws, ws.parent(w.id), k - 1)
  }

  // Reached from w in k steps without passing the root or the end of the chain.
  ghost predicate Below(ws: Windows, w: Link, root: Id, k: nat) {
    forall j: nat :: j <= k ==> Ancestor(ws, w, j).To? && Ancestor(ws, w, j).id != root
  }

  // A window is a family member when it or one of its nearest 63 ancestors below the root is.
  lemma {:induction false} InheritsMeaning(ws: Windows, w: Link, root: Id, member: Id -> bool, depth: nat)
    ensures Inherits(ws, w, root, member, depth) <==>
      exists k: nat :: k < depth && Below(ws, w, root, k) && member(Ancestor(ws, w, k).id)
    decreases depth
  {
    if depth > 0 && w.To? && w.id != root {
      var p := ws.parent(w.id);
      InheritsMeaning(ws, p, root, member, depth - 1);
      if member(w.id) {
        assert Below(ws, w, root, 0) && Ancestor(ws, w, 0) == w;
      }
      forall k: nat | k + 1 < depth && Below(ws, p, root, k) && member(Ancestor(ws, p, k).id)
        ensures Below(ws, w, root, k + 1) && member(Ancestor(ws, w, k + 1).id)
      {
        assert forall j: nat :: j <= k ==> Ancestor(ws, w, j + 1) == Ancestor(ws, p, j);
      }
      forall k: nat | 0 < k < depth && Below(ws, w, root, k)
        ensures Below(ws, p, root, k - 1) && Ancestor(ws, w, k) == Ancestor(ws, p, k - 1)
      {
        assert forall j: nat :: j <= k - 1 ==> Ancestor(ws, w, j + 1) == Ancestor(ws, p, j);
      }
    } else {
      assert Ancestor(ws, w, 0) == w;
    }
  }

  method InspectMember(ws: Windows, window: Id, root: Id, member: Id -> bool, depth: nat) returns (found: bool)
    ensures found == Inherits(ws, To(window), root, member, depth)
  {
    var w := To(window);
    var d := 0;
    while w.To? && w.id != root && d < depth
      invariant 0 <= d <= depth
      invariant Inherits(ws, To(window), root, member, depth) == Inherits(ws, w, root, member, depth - d)
      decreases depth - d
    {
      if member(w.id) {
        return true;
      }
      d, w := d + 1, ws.parent(w.id);
    }
    return false;
  }

  // ---------- what the walk must emit ----------

  function Family(ws: Windows, order: seq<Id>, owner: Id, root: Id, member: Id -> bool, depth: nat): (f: seq<Id>)
    ensures |f| <= |order|
  {
    if order == [] then []
    else
      var rest := Family(ws, order[..|order| - 1], owner, root, member, depth);
      var w := order[|order| - 1];
      if w != owner && Inherits(ws, To(w), root, member, depth) then rest + [w] else rest
  }

  function Min(a: nat, b: nat): nat { if a < b then a else b }

  // ---------- the position of the walk, as a path from the root ----------

  datatype Frame = Frame(node: Tree, index: nat)

  // The child of the topmost frame is `current`, each frame's node is the child chosen in the one
  // below it, and the bottom frame is the root.
  ghost predicate OnPath(ws: Windows, tree: Tree, stack: seq<Frame>, current: Tree) {
    if stack == [] then current == tree && Represents(ws, tree)
    else
      var f := stack[|stack| - 1];
      && f.index < |f.node.children| && f.node.children[f.index] == current
      && OnPath(ws, tree, stack[..|stack| - 1], f.node)
  }

  // The nodes still to come once the current subtree is finished.
  ghost function After(stack: seq<Frame>): seq<Id> {
    if stack == [] then []
    else
      var f := stack[|stack| - 1];
      (if f.index <= |f.node.children| then Forest(f.node.children[..f.index]) else []) + After(stack[..|stack| - 1])
  }

  lemma {:induction false} PathRepresents(ws: Windows, tree: Tree, stack: seq<Frame>, current: Tree)
    requires OnPath(ws, tree, stack, current)
    ensures Represents(ws, current)
    decreases |stack|
  {
    if stack != [] {
      PathRepresents(ws, tree, stack[..|stack| - 1], stack[|stack| - 1].node);
    }
  }

  lemma ForestSplit(ts: seq<Tree>, i: nat)
    requires i < |ts|
    ensures Forest(ts[..i + 1]) == Preorder(ts[i]) + Forest(ts[..i])
  {
    var us := ts[..i + 1];
    assert us[|us| - 1] == ts[i] && us[..|us| - 1] == ts[..i];
  }

  lemma {:induction false} InForest(ts: seq<Tree>, i: nat)
    requires i < |ts|
    ensures forall x :: x in Preorder(ts[i]) ==> x in Forest(ts)
    decreases |ts|
  {
    var n := |ts| - 1;
    if i < n {
      InForest(ts[..n], i);
    }
  }

  // Every node on the way, other than the root, is a descendant of the root.
  lemma {:induction false} PathIsInside(ws: Windows, tree: Tree, stack: seq<Frame>, current: Tree)
    requires OnPath(ws, tree, stack, current) && stack != []
    ensures forall x :: x in Preorder(current) ==> x in Forest(tree.children)
    decreases |stack|
  {
    var f, below := stack[|stack| - 1], stack[..|stack| - 1];
    InForest(f.node.children, f.index);
    if below != [] {
      PathIsInside(ws, tree, below, f.node);
    }
  }

  lemma ChildLinks(ws: Windows, t: Tree, i: nat)
    requires Represents(ws, t) && i < |t.children|
    ensures ws.parent(t.children[i].id) == To(t.id)
    ensures ws.prevSib(t.children[i].id) == if i == 0 then Null else To(t.children[i - 1].id)
    ensures ws.lastChild(t.id) == To(t.children[|t.children| - 1].id)
  {
    assert Linked(ws, t, i);
  }

  lemma Push(ws: Windows, tree: Tree, stack: seq<Frame>, node: Tree, i: nat)
    requires OnPath(ws, tree, stack, node) && i < |node.children|
    ensures var up := stack + [Frame(node, i)];
      && OnPath(ws, tree, up, node.children[i])
      && After(up) == Forest(node.children[..i]) + After(stack)
  {
    var up := stack + [Frame(node, i)];
    assert up[..|up| - 1] == stack;
  }

  lemma AfterTop(stack: seq<Frame>)
    requires stack != [] && stack[|stack| - 1].index <= |stack[|stack| - 1].node.children|
    ensures var f := stack[|stack| - 1];
      After(stack) == Forest(f.node.children[..f.index]) + After(stack[..|stack| - 1])
  {}

  lemma DropHead(P: seq<Id>, k: nat, x: Id, rest: seq<Id>)
    requires k <= |P| && P[k..] == [x] + rest
    ensures k < |P| && P[k] == x && P[k + 1..] == rest
  {
    assert P[k..][1..] == rest;
  }

  lemma Regroup(a: seq<Id>, b: seq<Id>, c: seq<Id>)
    ensures a + (b + c) == (a + b) + c
  {}

  // A step to a neighbour: down to the last child, across to the previous sibling, or up.
  lemma Descend(ws: Windows, tree: Tree, stack: seq<Frame>, current: Tree)
    requires OnPath(ws, tree, stack, current) && current.children != []
    ensures var n := |current.children| - 1; var down := stack + [Frame(current, n)];
      && ws.lastChild(current.id) == To(current.children[n].id)
      && OnPath(ws, tree, down, current.children[n])
      && Preorder(current.children[n]) + After(down) == Forest(current.children) + After(stack)
  {
    PathRepresents(ws, tree, stack, current);
    var n := |current.children| - 1;
    Push(ws, tree, stack, current, n);
    assert current.children[..n + 1] == current.children;
    ForestSplit(current.children, n);
    Regroup(Preorder(current.children[n]), Forest(current.children[..n]), After(stack));
  }

  lemma Across(ws: Windows, tree: Tree, stack: seq<Frame>, current: Tree)
    requires OnPath(ws, tree, stack, current) && stack != [] && stack[|stack| - 1].index > 0
    ensures var f := stack[|stack| - 1];
      var beside := stack[..|stack| - 1] + [Frame(f.node, f.index - 1)];
      && ws.prevSib(current.id) == To(f.node.children[f.index - 1].id)
      && OnPath(ws, tree, beside, f.node.children[f.index - 1])
      && Preorder(f.node.children[f.index - 1]) + After(beside) == After(stack)
  {
    var f, below := stack[|stack| - 1], stack[..|stack| - 1];
    PathRepresents(ws, tree, below, f.node);
    ChildLinks(ws, f.node, f.index);
    AfterTop(stack);
    var i := f.index - 1;
    Push(ws, tree, below, f.node, i);
    ForestSplit(f.node.children, i);
    Regroup(Preorder(f.node.children[i]), Forest(f.node.children[..i]), After(below));
  }

  lemma Up(ws: Windows, tree: Tree, stack: seq<Frame>, current: Tree)
    requires OnPath(ws, tree, stack, current) && stack != [] && stack[|stack| - 1].index == 0
    ensures var f, below := stack[|stack| - 1], stack[..|stack| - 1];
      && ws.prevSib(current.id) == Null
      && ws.parent(current.id) == To(f.node.id)
      && OnPath(ws, tree, below, f.node)
      && After(below) == After(stack)
  {
    var f, below := stack[|stack| - 1], stack[..|stack| - 1];
    PathRepresents(ws, tree, below, f.node);
    ChildLinks(ws, f.node, f.index);
    AfterTop(stack);
    assert f.node.children[..0] == [];
    assert Forest([]) + After(below) == After(below);
  }

  // From a finished subtree to the next node of the walk, or to the root when there is none.
  method Climb(ws: Windows, from: Id, root: Id, ghost tree: Tree, ghost stack: seq<Frame>, ghost current: Tree)
    returns (next: Link, ghost stack': seq<Frame>, ghost current': Tree)
    requires WellFormed(ws, tree) && tree.id == root
    requires OnPath(ws, tree, stack, current) && current.id == from && stack != []
    ensures next.Null? ==> After(stack) == []
    ensures next.To? ==>
      && OnPath(ws, tree, stack', current') && stack' != [] && next.id == current'.id
      && Preorder(current') + After(stack') == After(stack)
  {
    var window := from;
    stack', current' := stack, current;
    PathIsInside(ws, tree, stack, current);
    while window != root && ws.prevSib(window).Null?
      invariant OnPath(ws, tree, stack', current') && window == current'.id
      invariant After(stack') == After(stack)
      invariant stack' == [] <==> window == root
      decreases |stack'|
    {
      var f := stack'[|stack'| - 1];
      if f.index > 0 {
        Across(ws, tree, stack', current');
        assert false;
      }
      Up(ws, tree, stack', current');
      window := ws.parent(window).id;
      stack', current' := stack'[..|stack'| - 1], f.node;
      if stack' != [] {
        PathIsInside(ws, tree, stack', current');
      }
    }
    if window == root {
      return Null, stack', current';
    }
    var f := stack'[|stack'| - 1];
    if f.index == 0 {
      Up(ws, tree, stack', current');
      assert false;
    }
    Across(ws, tree, stack', current');
    next := ws.prevSib(window);
    stack', current' := stack'[..|stack'| - 1] + [Frame(f.node, f.index - 1)], f.node.children[f.index - 1];
  }

  // A place in the walk: `current` is about to be visited and `todo` is what remains, itself included.
  datatype Place = Place(stack: seq<Frame>, current: Tree)

  ghost predicate Amid(ws: Windows, tree: Tree, place: Place, todo: seq<Id>) {
    && place.stack != [] && OnPath(ws, tree, place.stack, place.current)
    && todo == Preorder(place.current) + After(place.stack)
  }

  // The place after a finished subtree, if there is one.
  lemma {:induction false} PlaceAfter(ws: Windows, tree: Tree, stack: seq<Frame>, current: Tree) returns (place: Place)
    requires OnPath(ws, tree, stack, current) && After(stack) != []
    ensures Amid(ws, tree, place, After(stack))
    decreases |stack|
  {
    var f, below := stack[|stack| - 1], stack[..|stack| - 1];
    if f.index == 0 {
      Up(ws, tree, stack, current);
      place := PlaceAfter(ws, tree, below, f.node);
    } else {
      Across(ws, tree, stack, current);
      place := Place(below + [Frame(f.node, f.index - 1)], f.node.children[f.index - 1]);
    }
  }

  // Every position of the preorder is a place of the tree.
  lemma {:induction false} PlaceOf(ws: Windows, tree: Tree, k: nat) returns (place: Place)
    requires Represents(ws, tree) && k < |Forest(tree.children)|
    ensures Amid(ws, tree, place, Forest(tree.children)[k..])
    decreases k
  {
    var P := Forest(tree.children);
    if k == 0 {
      var n := |tree.children| - 1;
      Descend(ws, tree, [], tree);
      place := Place([] + [Frame(tree, n)], tree.children[n]);
      assert P + After([]) == P[0..];
    } else {
      var before := PlaceOf(ws, tree, k - 1);
      var Place(stack, current) := before;
      var rest := Forest(current.children) + After(stack);
      Regroup([current.id], Forest(current.children), After(stack));
      DropHead(P, k - 1, current.id, rest);
      if current.children == [] {
        assert rest == After(stack);
        place := PlaceAfter(ws, tree, stack, current);
      } else {
        Descend(ws, tree, stack, current);
        var n := |current.children| - 1;
        place := Place(stack + [Frame(current, n)], current.children[n]);
      }
    }
  }

  function Entry(P: seq<Id>, k: nat): Link { if k < |P| then To(P[k]) else Null }

  lemma FirstEntry(ws: Windows, tree: Tree)
    requires Represents(ws, tree)
    ensures ws.lastChild(tree.id) == Entry(Forest(tree.children), 0)
  {}

  lemma AmidHead(ws: Windows, tree: Tree, place: Place, P: seq<Id>, k: nat)
    requires k <= |P| && Amid(ws, tree, place, P[k..])
    ensures k < |P| && P[k] == place.current.id
    ensures P[k + 1..] == Forest(place.current.children) + After(place.stack)
  {
    Regroup([place.current.id], Forest(place.current.children), After(place.stack));
    DropHead(P, k, place.current.id, Forest(place.current.children) + After(place.stack));
  }

  // One move of the walk: to the last child, else to the nearest earlier sibling on the way up.  It
  // goes from each node of the preorder to the next.
  method Next(ws: Windows, window: Id, root: Id, ghost tree: Tree, ghost k: nat) returns (next: Link)
    requires WellFormed(ws, tree) && tree.id == root
    requires k < |Forest(tree.children)| && Forest(tree.children)[k] == window
    ensures next == Entry(Forest(tree.children), k + 1)
  {
    ghost var P := Forest(tree.children);
    ghost var place := PlaceOf(ws, tree, k);
    ghost var Place(stack, current) := place;
    AmidHead(ws, tree, place, P, k);
    PathRepresents(ws, tree, stack, current);
    if ws.lastChild(window).To? {
      Descend(ws, tree, stack, current);
      next := ws.lastChild(window);
      ghost var n := |current.children| - 1;
      AmidHead(ws, tree, Place(stack + [Frame(current, n)], current.children[n]), P, k + 1);
    } else {
      ghost var stack', current';
      assert P[k + 1..] == After(stack);
      next, stack', current' := Climb(ws, window, root, tree, stack, current);
      if next.To? {
        AmidHead(ws, tree, Place(stack', current'), P, k + 1);
      }
    }
  }

  lemma FamilyExtends(ws: Windows, order: seq<Id>, k: nat, owner: Id, root: Id, member: Id -> bool, depth: nat)
    requires k < |order|
    ensures var f := Family(ws, order[..k], owner, root, member, depth);
      Family(ws, order[..k + 1], owner, root, member, depth) ==
        if order[k] != owner && Inherits(ws, To(order[k]), root, member, depth) then f + [order[k]] else f
  {
    var o := order[..k + 1];
    assert o[|o| - 1] == order[k] && o[..|o| - 1] == order[..k];
  }

  lemma {:induction false} FamilyGrows(ws: Windows, order: seq<Id>, k: nat, owner: Id, root: Id, member: Id -> bool, depth: nat)
    requires k <= |order|
    ensures Family(ws, order[..k], owner, root, member, depth) <= Family(ws, order, owner, root, member, depth)
    decreases |order| - k
  {
    if k < |order| {
      FamilyExtends(ws, order, k, owner, root, member, depth);
      FamilyGrows(ws, order, k + 1, owner, root, member, depth);
    } else {
      assert order[..k] == order;
    }
  }

  // The part of the family found after `k` nodes is the beginning of what the scan would find.
  lemma CutOff(ws: Windows, P: seq<Id>, k: nat, owner: Id, root: Id, member: Id -> bool, depth: nat)
    requires k <= |P| && k <= SCAN_LIMIT
    ensures Family(ws, P[..k], owner, root, member, depth) <= Family(ws, P[..Min(|P|, SCAN_LIMIT)], owner, root, member, depth)
  {
    var Q := P[..Min(|P|, SCAN_LIMIT)];
    assert Q[..k] == P[..k];
    FamilyGrows(ws, Q, k, owner, root, member, depth);
  }

  // Why the scan stopped, after `scanned` nodes had been dealt with.
  datatype Stop = Finished | TooLarge | Full

  ghost predicate Stopped(ws: Windows, P: seq<Id>, owner: Id, root: Id, member: Id -> bool, depth: nat, limit: nat,
                          emitted: seq<Id>, scanned: nat, why: Stop) {
    && scanned <= |P| && scanned <= SCAN_LIMIT
    && emitted == [owner] + Family(ws, P[..scanned], owner, root, member, depth)
    && |emitted| <= limit
    && match why
       case Finished => scanned == |P|
       case TooLarge => scanned == SCAN_LIMIT < |P|
       case Full =>
         && |emitted| == limit && scanned < |P| && scanned < SCAN_LIMIT
         && P[scanned] != owner && Inherits(ws, To(P[scanned]), root, member, depth)
  }

  lemma StopMeaning(ws: Windows, P: seq<Id>, owner: Id, root: Id, member: Id -> bool, depth: nat, limit: nat,
                    emitted: seq<Id>, scanned: nat, why: Stop)
    requires Stopped(ws, P, owner, root, member, depth, limit, emitted, scanned, why)
    ensures var F := Family(ws, P[..Min(|P|, SCAN_LIMIT)], owner, root, member, depth);
      && emitted == ([owner] + F)[..Min(limit, |F| + 1)]
      && (why != Finished <==> |F| + 1 > limit || |P| > SCAN_LIMIT)
  {
    if why.Full? {
      FamilyExtends(ws, P, scanned, owner, root, member, depth);
      CutOff(ws, P, scanned, owner, root, member, depth);
      CutOff(ws, P, scanned + 1, owner, root, member, depth);
    } else {
      assert P[..scanned] == P[..Min(|P|, SCAN_LIMIT)];
    }
  }

  // What the walk does with one node: emit it if it is in the family and there is room.
  method Consider(ws: Windows, window: Id, root: Id, owner: Id, limit: nat, member: Id -> bool, depth: nat,
                  emitted: seq<Id>, ghost P: seq<Id>, ghost scanned: nat)
    returns (emitted': seq<Id>, full: bool)
    requires scanned < |P| && P[scanned] == window && |emitted| <= limit
    requires emitted == [owner] + Family(ws, P[..scanned], owner, root, member, depth)
    ensures full ==> emitted' == emitted && |emitted| == limit
    ensures full ==> window != owner && Inherits(ws, To(window), root, member, depth)
    ensures !full ==> emitted' == [owner] + Family(ws, P[..scanned + 1], owner, root, member, depth)
    ensures |emitted'| <= limit
  {
    FamilyExtends(ws, P, scanned, owner, root, member, depth);
    var inherits := InspectMember(ws, window, root, member, depth);
    if window == owner || !inherits {
      return emitted, false;
    }
    if |emitted| == limit {
      return emitted, true;
    }
    return emitted + [window], false;
  }

  // The main loop.
  method Scan(ws: Windows, root: Id, owner: Id, limit: nat, member: Id -> bool, depth: nat, ghost tree: Tree)
    returns (emitted: seq<Id>, ghost scanned: nat, why: Stop)
    requires WellFormed(ws, tree) && tree.id == root && limit > 0
    ensures Stopped(ws, Forest(tree.children), owner, root, member, depth, limit, emitted, scanned, why)
  {
    ghost var P := Forest(tree.children);
    FirstEntry(ws, tree);
    emitted, scanned := [owner], 0;
    var visited, window, full := 0, ws.lastChild(root), false;
    while window.To?
      invariant visited == scanned <= |P| && scanned <= SCAN_LIMIT && window == Entry(P, scanned)
      invariant emitted == [owner] + Family(ws, P[..scanned], owner, root, member, depth)
      invariant |emitted| <= limit
      decreases |P| - scanned
    {
      visited := visited + 1;
      if visited > SCAN_LIMIT {
        return emitted, scanned, TooLarge;
      }
      emitted, full := Consider(ws, window.id, root, owner, limit, member, depth, emitted, P, scanned);
      if full {
        return emitted, scanned, Full;
      }
      window := Next(ws, window.id, root, tree, scanned);
      scanned := scanned + 1;
    }
    why := Finished;
  }

  // lorieInspectFamily.  With P the preorder of everything below the root and F the family members
  // among its first 8192 nodes, the walk emits the owner and then F, cut off at `limit`, and says
  // it was truncated exactly when something was cut off or the tree was too large to finish.
  method InspectFamily(ws: Windows, root: Link, owner: Link, limit: nat, member: Id -> bool, ghost tree: Tree)
    returns (emitted: seq<Id>, count: nat, truncated: bool)
    requires root.To? ==> tree.id == root.id && WellFormed(ws, tree)
    ensures count == |emitted|
    ensures root.Null? || owner.Null? || limit == 0 ==> emitted == [] && !truncated
    ensures root.To? && owner.To? && limit > 0 ==>
      var P := Forest(tree.children);
      var F := Family(ws, P[..Min(|P|, SCAN_LIMIT)], owner.id, root.id, member, DEPTH_LIMIT);
      && emitted == ([owner.id] + F)[..Min(limit, |F| + 1)]
      && (truncated <==> |F| + 1 > limit || |P| > SCAN_LIMIT)
  {
    if root.Null? || owner.Null? || limit == 0 {
      return [], 0, false;
    }
    ghost var scanned;
    var why;
    emitted, scanned, why := Scan(ws, root.id, owner.id, limit, member, DEPTH_LIMIT, tree);
    StopMeaning(ws, Forest(tree.children), owner.id, root.id, member, DEPTH_LIMIT, limit, emitted, scanned, why);
    count, truncated := |emitted|, why != Finished;
  }
}
