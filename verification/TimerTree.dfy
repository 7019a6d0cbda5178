module TimerTree {
  import opened Timer

  // The tree of deadlines: searches that descend by the wrapped comparison, and when they can be
  // relied on. Balancing turns the tree about and keeps the row of its groups, so the lemmas hold
  // of any shape.

  /** The tree in the shape that balancing has given it. */
  datatype Tree = Leaf | Node(left: Tree, group: Group, right: Tree)

  /** The groups from first to last. */
  function Groups(t: Tree): seq<Group> {
    if t.Leaf? then [] else Groups(t.left) + [t.group] + Groups(t.right)
  }

  /** Where a search ends: at a group, or at the gap where a new group is linked; k groups come before it. */
  datatype Place = At(k: nat) | Gap(k: nat)

  function Shift(n: nat, p: Place): Place {
    match p
    case At(k) => At(n + k)
    case Gap(k) => Gap(n + k)
  }

  /** The descent of rb_find and rb_insert. */
  function Search(t: Tree, tick: Word): (p: Place)
    ensures p.k <= |Groups(t)|
    ensures p.At? ==> p.k < |Groups(t)| && Groups(t)[p.k].tick == tick
  {
    if t.Leaf? then Gap(0)
    else
      var diff := Diff(tick, t.group.tick);
      if diff < 0 then Search(t.left, tick)
      else if diff > 0 then Shift(|Groups(t.left)| + 1, Search(t.right, tick))
      else At(|Groups(t.left)|)
  }

  /** The loop of rb_find and rb_insert. */
  method Descend(t: Tree, tick: Word) returns (p: Place)
    ensures p == Search(t, tick)
  {
    hide Diff; hide Groups;
    var node, before: nat := t, 0;
    while node.Node?
      invariant Search(t, tick) == Shift(before, Search(node, tick))
      decreases node
    {
      var diff := Diff(tick, node.group.tick);
      if diff < 0 {
        node := node.left;
      } else if diff > 0 {
        before := before + |Groups(node.left)| + 1;
        node := node.right;
      } else {
        return At(before + |Groups(node.left)|);
      }
    }
    return Gap(before);
  }

  /** The operator joins the ring of the group that was found, or leads a new group in the gap. */
  function Insert(tree: seq<Group>, p: Place, tick: Word, op: Op): seq<Group>
    requires p.k <= |tree| && (p.At? ==> p.k < |tree|)
  {
    if p.At? then tree[p.k := tree[p.k].(followers := tree[p.k].followers + [op])]
    else tree[..p.k] + [Group(tick, op, [])] + tree[p.k..]
  }

  /** rb_insert at the node or the link where its descent ends, before the tree is balanced. */
  function Link(t: Tree, tick: Word, op: Op): Tree {
    if t.Leaf? then Node(Leaf, Group(tick, op, []), Leaf)
    else
      var diff := Diff(tick, t.group.tick);
      if diff < 0 then t.(left := Link(t.left, tick, op))
      else if diff > 0 then t.(right := Link(t.right, tick, op))
      else t.(group := t.group.(followers := t.group.followers + [op]))
  }

  /** Linking a node changes the row of groups at the place where the search ended and nowhere else. */
  lemma {:induction false} LinkInserts(t: Tree, tick: Word, op: Op)
    ensures Groups(Link(t, tick, op)) == Insert(Groups(t), Search(t, tick), tick, op)
  {
    hide Diff;
    if t.Node? {
      var diff := Diff(tick, t.group.tick);
      if diff < 0 {
        LinkInserts(t.left, tick, op);
        InsertFirst(Groups(t.left), [t.group] + Groups(t.right), Search(t.left, tick), tick, op);
        Regroup(Groups(t.left), t.group, Groups(t.right));
        Regroup(Insert(Groups(t.left), Search(t.left, tick), tick, op), t.group, Groups(t.right));
      } else if diff > 0 {
        LinkInserts(t.right, tick, op);
        InsertLast(Groups(t.left) + [t.group], Groups(t.right), Search(t.right, tick), tick, op);
      }
    }
  }

  lemma Regroup(x: seq<Group>, g: Group, y: seq<Group>)
    ensures x + [g] + y == x + ([g] + y)
  {
  }

  lemma InsertFirst(x: seq<Group>, y: seq<Group>, p: Place, tick: Word, op: Op)
    requires p.k <= |x| && (p.At? ==> p.k < |x|)
    ensures Insert(x + y, p, tick, op) == Insert(x, p, tick, op) + y
  {
    if p.Gap? {
      assert (x + y)[..p.k] == x[..p.k];
      assert (x + y)[p.k..] == x[p.k..] + y;
    }
  }

  lemma InsertLast(x: seq<Group>, y: seq<Group>, p: Place, tick: Word, op: Op)
    requires p.k <= |y| && (p.At? ==> p.k < |y|)
    ensures Insert(x + y, Shift(|x|, p), tick, op) == x + Insert(y, p, tick, op)
  {
    if p.Gap? {
      assert (x + y)[..|x| + p.k] == x + y[..p.k];
      assert (x + y)[|x| + p.k..] == y[p.k..];
    }
  }

  // ----- order -----

  /** The wrapped comparison puts x before y, and y after x; half the range apart it does not. */
  predicate Before(x: Word, y: Word) { Diff(x, y) < 0 < Diff(y, x) }

  /** Any two groups compare as they stand. */
  predicate InOrder(tree: seq<Group>) {
    forall i, j :: 0 <= i < j < |tree| ==> Before(tree[i].tick, tree[j].tick)
  }

  /** The tick has a place of its own: after the first p groups and before the others. */
  predicate Splits(tree: seq<Group>, tick: Word, p: nat) {
    && p <= |tree|
    && (forall i :: 0 <= i < p ==> Before(tree[i].tick, tick))
    && (forall i :: p <= i < |tree| ==> Before(tick, tree[i].tick))
  }

  /** The tick is that of a group, or it has a place between the groups. */
  predicate Admits(tree: seq<Group>, tick: Word) {
    || (exists k :: 0 <= k < |tree| && tree[k].tick == tick)
    || (exists p: nat | p <= |tree| :: Splits(tree, tick, p))
  }

  /** The search for the deadline of any group ends at that group. */
  predicate FindsAll(t: Tree) {
    forall k: nat :: k < |Groups(t)| ==> Search(t, Groups(t)[k].tick) == At(k)
  }

  lemma DiffOfEquals(x: Word, y: Word)
    ensures Diff(x, y) == 0 <==> x == y
  {
  }

  lemma PartsInOrder(x: seq<Group>, g: Group, y: seq<Group>)
    requires InOrder(x + [g] + y)
    ensures InOrder(x) && InOrder(y)
    ensures forall i :: 0 <= i < |x| ==> Before(x[i].tick, g.tick)
    ensures forall i :: 0 <= i < |y| ==> Before(g.tick, y[i].tick)
  {
    hide Before;
    var all := x + [g] + y;
    assert all[|x|] == g;
    assert forall i :: 0 <= i < |x| ==> all[i] == x[i];
    assert forall i :: 0 <= i < |y| ==> all[|x| + 1 + i] == y[i];
  }

  /** In a tree that is in order, whatever its shape, every group is found. */
  lemma {:induction false} SearchFinds(t: Tree, k: nat)
    requires InOrder(Groups(t)) && k < |Groups(t)|
    ensures Search(t, Groups(t)[k].tick) == At(k)
  {
    hide Diff; hide InOrder;
    var l := |Groups(t.left)|;
    PartsInOrder(Groups(t.left), t.group, Groups(t.right));
    DiffOfEquals(Groups(t)[k].tick, t.group.tick);
    if k < l {
      SearchFinds(t.left, k);
      assert Before(Groups(t.left)[k].tick, t.group.tick);
    } else if k > l {
      SearchFinds(t.right, k - l - 1);
      assert Before(t.group.tick, Groups(t.right)[k - l - 1].tick);
    }
  }

  /** A tick that splits the groups is not found, and the search ends at its place. */
  lemma {:induction false} SearchSplits(t: Tree, tick: Word, p: nat)
    requires Splits(Groups(t), tick, p)
    ensures Search(t, tick) == Gap(p)
  {
    hide Diff;
    if t.Node? {
      var l := |Groups(t.left)|;
      assert Groups(t)[l] == t.group;
      if p <= l {
        assert Before(tick, t.group.tick);
        Regroup(Groups(t.left), t.group, Groups(t.right));
        LeftSplits(Groups(t.left), [t.group] + Groups(t.right), tick, p);
        SearchSplits(t.left, tick, p);
      } else {
        assert Before(t.group.tick, tick);
        RightSplits(Groups(t.left) + [t.group], Groups(t.right), tick, p);
        SearchSplits(t.right, tick, p - l - 1);
      }
    }
  }

  lemma LeftSplits(x: seq<Group>, y: seq<Group>, tick: Word, p: nat)
    requires Splits(x + y, tick, p) && p <= |x|
    ensures Splits(x, tick, p)
  {
    hide Before;
    assert forall i :: 0 <= i < |x| ==> (x + y)[i] == x[i];
  }

  lemma RightSplits(x: seq<Group>, y: seq<Group>, tick: Word, p: nat)
    requires Splits(x + y, tick, p) && |x| <= p
    ensures Splits(y, tick, p - |x|)
  {
    hide Before;
    assert forall i :: 0 <= i < |y| ==> (x + y)[|x| + i] == y[i];
  }

  /** A new group in a gap leaves the tree in order exactly if its tick splits the groups there. */
  lemma GapInOrder(tree: seq<Group>, p: nat, g: Group)
    requires InOrder(tree) && p <= |tree|
    ensures InOrder(tree[..p] + [g] + tree[p..]) <==> Splits(tree, g.tick, p)
  {
    hide Before;
    var t := tree[..p] + [g] + tree[p..];
    assert t[p] == g;
    assert forall i :: 0 <= i < p ==> t[i] == tree[i];
    assert forall i :: p < i < |t| ==> t[i] == tree[i - 1];
    assert forall i :: p <= i < |tree| ==> t[i + 1] == tree[i];
  }

  /** A post keeps the tree in order exactly if the tree admits its tick. */
  lemma InsertIsExact(t: Tree, tick: Word, op: Op)
    requires InOrder(Groups(t))
    ensures InOrder(Insert(Groups(t), Search(t, tick), tick, op)) <==> Admits(Groups(t), tick)
  {
    hide InOrder; hide Splits; hide Search;
    var tree, p := Groups(t), Search(t, tick);
    if p.At? {
      JoinInOrder(tree, p.k, op);
    } else {
      GapInOrder(tree, p.k, Group(tick, op, []));
      if k :| 0 <= k < |tree| && tree[k].tick == tick {
        SearchFinds(t, k);
      } else if q: nat :| q <= |tree| && Splits(tree, tick, q) {
        SearchSplits(t, tick, q);
      }
    }
  }

  lemma JoinInOrder(tree: seq<Group>, k: nat, op: Op)
    requires InOrder(tree) && k < |tree|
    ensures InOrder(tree[k := tree[k].(followers := tree[k].followers + [op])])
  {
    hide Before;
  }

  lemma RemoveInOrder(tree: seq<Group>, k: nat, op: Op)
    requires InOrder(tree) && k < |tree| && op in Members(tree[k])
    ensures InOrder(Remove(tree, k, op))
  {
    hide Before;
  }

  lemma {:induction false} WalkKeepsGroups(tree: seq<Group>, owner: map<Op, Thread>, at: Thread, now: Word, wait: int)
    ensures var w := Walk(tree, owner, at, now, wait); forall g :: g in w.kept ==> g in tree
  {
    hide Diff;
    if tree != [] {
      WalkKeepsGroups(tree[1..], owner, at, now, wait);
      assert forall g :: g in tree[1..] ==> g in tree;
    }
  }

  /** A walk leaves the groups it keeps in order. */
  lemma {:induction false} WalkInOrder(tree: seq<Group>, owner: map<Op, Thread>, at: Thread, now: Word, wait: int)
    requires InOrder(tree)
    ensures InOrder(Walk(tree, owner, at, now, wait).kept)
  {
    hide Diff; hide Before;
    if tree != [] {
      var rest := tree[1..];
      assert forall i :: 0 <= i < |rest| ==> rest[i] == tree[i + 1];
      WalkInOrder(rest, owner, at, now, wait);
      WalkKeepsGroups(rest, owner, at, now, wait);
      ConsInOrder(tree[0], Walk(rest, owner, at, now, wait).kept, tree);
    }
  }

  lemma ConsInOrder(g: Group, kept: seq<Group>, tree: seq<Group>)
    requires InOrder(tree) && tree != [] && g == tree[0] && InOrder(kept) && forall h :: h in kept ==> h in tree[1..]
    ensures InOrder([g] + kept)
  {
    hide Before;
    forall i | 0 <= i < |kept| ensures Before(g.tick, kept[i].tick) {
      assert kept[i] in tree[1..];
    }
  }

  // ----- any shape -----

  /** A tree without left branches. */
  function Spine(tree: seq<Group>): (t: Tree)
    ensures Groups(t) == tree
  {
    if tree == [] then Leaf else Node(Leaf, tree[0], Spine(tree[1..]))
  }

  /** A shape with the group at k as the root. */
  function RootedAt(tree: seq<Group>, k: nat): (t: Tree)
    requires k < |tree|
    ensures Groups(t) == tree
  {
    Node(Spine(tree[..k]), tree[k], Spine(tree[k + 1..]))
  }

  /** A root misleads the search for a group that does not compare with it as it stands. */
  lemma RootMisleads(tree: seq<Group>, i: nat, j: nat)
    requires i < j < |tree| && !Before(tree[i].tick, tree[j].tick)
    ensures Search(RootedAt(tree, i), tree[j].tick) != At(j) || Search(RootedAt(tree, j), tree[i].tick) != At(i)
  {
    hide Diff;
    if Diff(tree[i].tick, tree[j].tick) >= 0 {
      assert Search(RootedAt(tree, j), tree[i].tick).k >= j;
    } else {
      assert Search(RootedAt(tree, i), tree[j].tick).k <= i;
    }
  }

  /** Every group is found in every shape of the tree if and only if the tree is in order. */
  lemma OrderIsExact(tree: seq<Group>)
    ensures InOrder(tree) <==> forall t: Tree | Groups(t) == tree :: FindsAll(t)
  {
    hide Before; hide Search; hide RootedAt;
    if InOrder(tree) {
      forall t: Tree, k: nat | Groups(t) == tree && k < |tree| ensures Search(t, tree[k].tick) == At(k) {
        SearchFinds(t, k);
      }
    } else {
      var i, j :| 0 <= i < j < |tree| && !Before(tree[i].tick, tree[j].tick);
      RootMisleads(tree, i, j);
      assert !FindsAll(RootedAt(tree, i)) || !FindsAll(RootedAt(tree, j));
    }
  }

  // ----- a window -----

  lemma BeforeInWindow(base: Word, x: Word, y: Word)
    requires InWindow(base, x) && InWindow(base, y)
    ensures Before(x, y) <==> Offset(base, x) < Offset(base, y)
  {
    hide Offset; hide Diff;
    DiffInWindow(base, x, y);
    DiffInWindow(base, y, x);
  }

  /** In a window of less than half the range the wrapped order is that of the true deadlines. */
  lemma InOrderIsSorted(base: Word, tree: seq<Group>)
    requires AllInWindow(base, tree)
    ensures InOrder(tree) <==> Sorted(base, tree)
  {
    hide Offset; hide Before; hide InWindow;
    forall i, j | 0 <= i < j < |tree|
      ensures Before(tree[i].tick, tree[j].tick) <==> Offset(base, tree[i].tick) < Offset(base, tree[j].tick)
    {
      BeforeInWindow(base, tree[i].tick, tree[j].tick);
    }
  }

  /** A tree admits every tick of a window that its deadlines lie in. */
  lemma WindowAdmits(base: Word, tree: seq<Group>, tick: Word)
    requires InOrder(tree) && AllInWindow(base, tree) && InWindow(base, tick)
    ensures Admits(tree, tick)
  {
    hide Offset; hide Before; hide InWindow; hide Splits;
    InOrderIsSorted(base, tree);
    var p := Rank(base, tree, tick);
    if p == |tree| || tree[p].tick != tick {
      RankSplits(base, tree, tick);
    }
  }

  /** How many groups have an earlier deadline. */
  function Rank(base: Word, tree: seq<Group>, tick: Word): (p: nat)
    ensures p <= |tree|
    ensures forall i :: 0 <= i < p ==> Offset(base, tree[i].tick) < Offset(base, tick)
    ensures p < |tree| ==> Offset(base, tree[p].tick) >= Offset(base, tick)
  {
    if tree == [] || Offset(base, tree[0].tick) >= Offset(base, tick) then 0 else 1 + Rank(base, tree[1..], tick)
  }

  lemma RankSplits(base: Word, tree: seq<Group>, tick: Word)
    requires Sorted(base, tree) && AllInWindow(base, tree) && InWindow(base, tick)
    requires var p := Rank(base, tree, tick); p == |tree| || tree[p].tick != tick
    ensures Splits(tree, tick, Rank(base, tree, tick))
  {
    hide Offset; hide Before; hide InWindow; hide Rank;
    var p := Rank(base, tree, tick);
    forall i | 0 <= i < |tree| ensures if i < p then Before(tree[i].tick, tick) else Before(tick, tree[i].tick) {
      BeforeInWindow(base, tree[i].tick, tick);
      BeforeInWindow(base, tick, tree[i].tick);
      if i >= p && Offset(base, tree[p].tick) == Offset(base, tick) {
        OffsetsTell(base, tree[p].tick, tick);
      }
    }
  }

  lemma InsertInWindow(base: Word, tree: seq<Group>, p: Place, tick: Word, op: Op)
    requires AllInWindow(base, tree) && InWindow(base, tick) && p.k <= |tree| && (p.At? ==> p.k < |tree|)
    ensures AllInWindow(base, Insert(tree, p, tick, op))
  {
    hide InWindow;
  }

  /** In a window, a post to a tree of any shape keeps the groups in the order of their true deadlines. */
  lemma InsertSorted(base: Word, t: Tree, tick: Word, op: Op)
    requires AllInWindow(base, Groups(t)) && Sorted(base, Groups(t)) && InWindow(base, tick)
    ensures var tree := Insert(Groups(t), Search(t, tick), tick, op); AllInWindow(base, tree) && Sorted(base, tree)
  {
    hide Sorted; hide InOrder; hide Search; hide Insert; hide AllInWindow; hide InWindow; hide Admits;
    var tree := Insert(Groups(t), Search(t, tick), tick, op);
    InOrderIsSorted(base, Groups(t));
    WindowAdmits(base, Groups(t), tick);
    InsertIsExact(t, tick, op);
    InsertInWindow(base, Groups(t), Search(t, tick), tick, op);
    InOrderIsSorted(base, tree);
  }
}
