module TimerRuns {
  import opened Timer
  import opened TimerTree
  import opened TimerPool

  // What holds of every run of the pool: when its asserts hold, that each post ends once, that
  // a pass takes the due operators, and how deadlines that are too far apart lose one.

  /**
    In every state of every run, the asserts hold in whatever shape the tree is
    if and only if its groups are in order.
   */
  lemma NeverFails(s: Pool)
    requires Reachable(s) && !s.over
    ensures (forall e :: !Step(s, e).Failed?) <==> InOrder(s.tree)
  {
    hide Step; hide Inv;
    ReachableInv(s);
    FailsOutOfOrder(s);
  }

  /** A run keeps its tree in order if and only if every post with a deadline finds a tree that admits it. */
  lemma {:induction false} OrderOfRuns(states: seq<Pool>, events: seq<Event>)
    requires IsRun(states, events)
    ensures (forall i :: 0 <= i <= |events| ==> InOrder(states[i].tree))
       <==> (forall i :: 0 <= i < |events| ==> Fits(states[i], events[i]))
  {
    hide Step; hide InOrder; hide Fits;
    NoneInOrder();
    var i := 0;
    while i < |events| && InOrder(states[i].tree) && InOrder(states[i + 1].tree)
      invariant i <= |events|
      invariant forall j :: 0 <= j <= i ==> InOrder(states[j].tree)
      invariant forall j :: 0 <= j < i ==> Fits(states[j], events[j])
    {
      assert Step(states[i], events[i]) == Next(states[i + 1]);
      StepOrder(states[i], events[i]);
      i := i + 1;
    }
    if i < |events| {
      assert Step(states[i], events[i]) == Next(states[i + 1]);
      StepOrder(states[i], events[i]);
    }
  }

  /** The deadline of a post, if it has one, lies in a window of less than half the range with all those in the tree. */
  ghost predicate Near(s: Pool, e: Event) {
    e.DoPost? && Finite(e.tick) ==> exists base: Word :: AllInWindow(base, s.tree) && InWindow(base, e.tick)
  }

  /** Runs whose posts are near keep the tree in order, so their asserts hold. */
  lemma NearRunsNeverFail(states: seq<Pool>, events: seq<Event>, i: nat, e: Event)
    requires IsRun(states, events) && (forall j :: 0 <= j < |events| ==> Near(states[j], events[j])) && i <= |events|
    ensures InOrder(states[i].tree) && !Step(states[i], e).Failed?
  {
    hide Step; hide InOrder; hide Admits; hide Inv;
    NoneInOrder();
    var k := 0;
    while k < i
      invariant k <= i && InOrder(states[k].tree)
    {
      assert Near(states[k], events[k]);
      if Finite(if events[k].DoPost? then events[k].tick else 0) {
        var base: Word :| AllInWindow(base, states[k].tree) && InWindow(base, events[k].tick);
        WindowAdmits(base, states[k].tree, events[k].tick);
      }
      assert Step(states[k], events[k]) == Next(states[k + 1]);
      StepOrder(states[k], events[k]);
      k := k + 1;
    }
    PrefixInv(states, events, i);
    if !states[i].over {
      FailsOutOfOrder(states[i]);
    } else {
      StepFails(states[i], e);
    }
  }

  /**
    Every post ends once, or the operator still waits in exactly one place. An
    end is a cancel, a time-out (0), a wake (1) or an interrupt.
   */
  lemma EndsOnce(s: Pool, op: Op)
    requires Reachable(s)
    ensures s.posted[op] == Ends(s, op) + Places(s, op) && Places(s, op) <= 1
    ensures forall i :: 0 <= i < |s.ended| ==>
            s.ended[i].Cancelled? || s.ended[i].result == 0
            || s.ended[i].result == 1 || s.ended[i].result == -EINTR
  {
    ReachableInv(s);
    assert Placed(s, op);
  }

  /**
    An operator with a finite deadline is in a group of that deadline, leading or
    following, and in no other group. While the tree is in order, there is no
    other group of that deadline.
   */
  lemma InOneGroup(s: Pool, op: Op) returns (k: nat)
    requires Reachable(s) && !s.over && Finite(Tick(s, op))
    ensures k < |s.tree| && s.tree[k].tick == Tick(s, op) && multiset(Members(s.tree[k]))[op] == 1
    ensures forall i :: 0 <= i < |s.tree| && i != k ==> op !in Members(s.tree[i])
    ensures InOrder(s.tree) ==> forall i :: 0 <= i < |s.tree| && i != k ==> s.tree[i].tick != Tick(s, op)
  {
    hide Inv; hide Step; hide Members; hide Diff;
    ReachableInv(s);
    k := WaitsInGroup(s, op);
    DiffOfEquals(Tick(s, op), Tick(s, op));
    forall i | 0 <= i < |s.tree| && i != k && InOrder(s.tree) ensures s.tree[i].tick != Tick(s, op) {
      assert if i < k then Before(s.tree[i].tick, s.tree[k].tick) else Before(s.tree[k].tick, s.tree[i].tick);
    }
  }

  /** When the pool has ended every post has ended. */
  lemma EndEndsAll(s: Pool, op: Op)
    requires Reachable(s) && !s.over && Step(s, DoEndPool).Next?
    ensures var t := Step(s, DoEndPool).s; Ends(t, op) == t.posted[op]
  {
    ReachableInv(s);
    assert Placed(s, op);
    EndPoolPlaces(s, op);
  }

  /**
    Take a run whose posts were near, and a time at which the deadlines and the
    clock lie in a window. Then a pass gives the thread exactly the operators whose
    deadline is at most one tick away, in the order of their deadlines, and leaves
    the others in that order.
   */
  lemma PassTakesTheDue(states: seq<Pool>, events: seq<Event>, at: Thread, now: Word, wait: int,
      base: Word) returns (k: nat)
    requires IsRun(states, events) && (forall j :: 0 <= j < |events| ==> Near(states[j], events[j]))
    requires AllInWindow(base, states[|events|].tree) && InWindow(base, now)
    ensures var s := states[|events|];
            && Sorted(base, s.tree) && DueUpTo(base, s.tree, now, k)
            && var t := Pass(s, at, now, wait);
            && t.tree == s.tree[k..] && Sorted(base, t.tree)
            && |t.local| >= |s.local| + |Expiry(s.tree[..k])|
            && t.local[|s.local|..|s.local| + |Expiry(s.tree[..k])|] == Locals(at, Expiry(s.tree[..k]), 0)
  {
    hide Walk; hide Offset; hide Of; hide NotOf; hide FirstPublic; hide Zeroed; hide Expiry; hide Due; hide InOrder;
    hide Step; hide Near;
    var s := states[|events|];
    NearRunsNeverFail(states, events, |events|, DoEndPool);
    InOrderIsSorted(base, s.tree);
    k := DueSplits(base, s.tree, now);
    WalkExpires(base, s.tree, s.owner, at, now, wait, k);
  }

  // ----- deadlines too far apart -----

  /** Three deadlines, each a third of the range after the one before. */
  const EARLY: Word := 0x1000_0000
  const MIDDLE: Word := 0x6000_0000
  const LATE: Word := 0xB000_0000

  /** Post the three, cancel the first; the tree turns as it must when a root with two children goes. */
  function FarEvents(): seq<Event> {
    [DoPost(0, 0, EARLY, Leaf),
     DoPost(1, 0, MIDDLE, Node(Leaf, Group(EARLY, 0, []), Leaf)),
     DoPost(2, 0, LATE, Node(Leaf, Group(EARLY, 0, []), Node(Leaf, Group(MIDDLE, 1, []), Leaf))),
     DoSignal(0, 0, false,
              Node(Node(Leaf, Group(LATE, 2, []), Leaf), Group(EARLY, 0, []), Node(Leaf, Group(MIDDLE, 1, []), Leaf)))]
  }

  /** What is left: the last deadline hangs where no search for it goes. */
  function FarShape(): Tree { Node(Node(Leaf, Group(LATE, 2, []), Leaf), Group(MIDDLE, 1, []), Leaf) }

  /**
    Deadlines half the range apart lose an operator: with three posts and a cancel
    the signal of the third operator meets the assert, and a further post with the
    third deadline makes a second group of it.
   */
  lemma FarDeadlinesFail() returns (states: seq<Pool>)
    ensures IsRun(states, FarEvents()) && Groups(FarShape()) == states[4].tree
    ensures Step(states[4], DoSignal(2, 0, true, FarShape())).Failed?
    ensures var o := Step(states[4], DoPost(3, 0, LATE, FarShape()));
            o.Next? && o.s.tree == [Group(LATE, 2, []), Group(MIDDLE, 1, []), Group(LATE, 3, [])]
  {
    states := [Start(), Posted(1), Posted(2), Posted(3), Cancelled0()];
    FarPosts();
    FarCancel();
    FarEnd();
  }

  /** The pool after the first n posts. */
  function Posted(n: nat): Pool
    requires 1 <= n <= 3
  {
    var s := Pool([Group(EARLY, 0, [])], [], [], [], map[0 := EARLY], map[], false, multiset{0}, []);
    if n == 1 then s
    else
      var t := s.(tree := s.tree + [Group(MIDDLE, 1, [])], tick := s.tick[1 := MIDDLE], posted := multiset{0, 1});
      if n == 2 then t
      else t.(tree := [Group(LATE, 2, [])] + t.tree, tick := t.tick[2 := LATE], posted := multiset{0, 1, 2})
  }

  /** The pool after the cancel. */
  function Cancelled0(): Pool {
    var s := Posted(3);
    s.(tree := [Group(LATE, 2, []), Group(MIDDLE, 1, [])], tick := s.tick[0 := 0], ended := [Cancelled(0)])
  }

  lemma FarPosts()
    ensures Step(Start(), FarEvents()[0]) == Next(Posted(1))
    ensures Step(Posted(1), FarEvents()[1]) == Next(Posted(2))
    ensures Step(Posted(2), FarEvents()[2]) == Next(Posted(3))
  {
    hide Search; hide Groups; hide Insert; hide Step; hide Posted; hide Start; hide FarEvents;
    FarPost0();
    FarPost1();
    FarPost2();
  }

  lemma FarPost0()
    ensures Step(Start(), FarEvents()[0]) == Next(Posted(1))
  {
    hide Search; hide Groups;
    FarSearches();
    assert EndedOps([]) == [];
  }

  lemma FarPost1()
    ensures Step(Posted(1), FarEvents()[1]) == Next(Posted(2))
  {
    hide Search; hide Groups;
    FarSearches();
    assert EndedOps([]) == [];
  }

  lemma FarPost2()
    ensures Step(Posted(2), FarEvents()[2]) == Next(Posted(3))
  {
    hide Search; hide Groups;
    FarSearches();
    assert EndedOps([]) == [];
  }

  lemma FarCancel()
    ensures Step(Posted(3), FarEvents()[3]) == Next(Cancelled0())
  {
    hide Search; hide Groups;
    FarSearches();
  }

  lemma FarEnd()
    ensures Groups(FarShape()) == Cancelled0().tree
    ensures Step(Cancelled0(), DoSignal(2, 0, true, FarShape())).Failed?
    ensures var o := Step(Cancelled0(), DoPost(3, 0, LATE, FarShape()));
            o.Next? && o.s.tree == [Group(LATE, 2, []), Group(MIDDLE, 1, []), Group(LATE, 3, [])]
  {
    hide Search; hide Groups;
    FarSearches();
    assert EndedOps([Cancelled(0)]) == [0];
  }

  lemma FarSearches()
    ensures var e := FarEvents();
            && Groups(e[0].shape) == [] && Search(e[0].shape, EARLY) == Gap(0)
            && Groups(e[1].shape) == [Group(EARLY, 0, [])] && Search(e[1].shape, MIDDLE) == Gap(1)
            && Groups(e[2].shape) == [Group(EARLY, 0, []), Group(MIDDLE, 1, [])] && Search(e[2].shape, LATE) == Gap(0)
            && Groups(e[3].shape) == [Group(LATE, 2, []), Group(EARLY, 0, []), Group(MIDDLE, 1, [])]
            && Search(e[3].shape, EARLY) == At(1)
    ensures Groups(FarShape()) == [Group(LATE, 2, []), Group(MIDDLE, 1, [])] && Search(FarShape(), LATE) == Gap(2)
  {
    var g0, g1, g2 := Group(EARLY, 0, []), Group(MIDDLE, 1, []), Group(LATE, 2, []);
    LeafOf(g0);
    LeafOf(g1);
    LeafOf(g2);
    var t := Node(Leaf, g0, Node(Leaf, g1, Leaf));
    assert Groups(t) == [g0, g1];
    assert Search(t, LATE) == Search(Leaf, LATE);
    assert Search(Node(Leaf, g0, Leaf), MIDDLE) == Shift(1, Search(Leaf, MIDDLE));
    assert Search(FarShape(), LATE) == Shift(2, Search(Leaf, LATE));
  }

  lemma LeafOf(g: Group)
    ensures Groups(Node(Leaf, g, Leaf)) == [g]
  {
  }
}
