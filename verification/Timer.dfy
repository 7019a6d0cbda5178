/** The timer scheduler of a pool of threads: ticks, groups and the walk over them. */
module Timer {
  // Operators with the same deadline form a group: one leads it in the tree, the others
  // follow it in a ring. Here the tree is the row of its groups from first to last.

  const WORD: nat := 0x1_0000_0000
  const INFINITE: nat := 0xFFFF_FFFF
  const EINTR: int := 4

  type Op = nat

  type Thread = nat

  type Word = n: int | 0 <= n < 0x1_0000_0000

  // ----- ticks -----

  function Wrap(n: int): Word { n % WORD }

  /** The difference of two ticks as a signed 32-bit number. */
  function Diff(x: Word, y: Word): int {
    var d := Wrap(x - y);
    if d < WORD / 2 then d else d - WORD
  }

  /** AOperator::delay: the deadline of a timeout; 0 and INFINITE keep their meaning. */
  function Delay(timeout: Word, now: Word): Word {
    if timeout == 0 || timeout == INFINITE then timeout
    else
      var t := Wrap(timeout + now);
      if t == 0 || t == INFINITE then Wrap(t + 2) else t
  }

  /** A finite timeout never becomes "now" or "never", and is stretched by nothing or by two ticks. */
  lemma DelayIsFinite(timeout: Word, now: Word)
    requires timeout != 0 && timeout != INFINITE
    ensures var t := Delay(timeout, now);
            && t != 0 && t != INFINITE
            && (t == Wrap(now + timeout) || t == Wrap(now + timeout + 2))
  {
    assert Wrap(Wrap(timeout + now) + 2) == Wrap(now + timeout + 2);
  }

  /** In a window of less than half the range the wrapped difference is the true one. */
  lemma DiffIsTrue(x: int, y: int)
    requires -(WORD / 2) <= x - y < WORD / 2
    ensures Diff(Wrap(x), Wrap(y)) == x - y
  {
  }

  // ----- the tree -----

  /** The operators of one deadline. */
  datatype Group = Group(tick: Word, leader: Op, followers: seq<Op>)

  function Members(g: Group): seq<Op> { [g.leader] + g.followers }

  function IndexOf(ops: seq<Op>, op: Op): (k: nat)
    ensures k <= |ops| && (k < |ops| ==> ops[k] == op) && (op in ops ==> k < |ops|)
  {
    if ops == [] || ops[0] == op then 0 else 1 + IndexOf(ops[1..], op)
  }

  function Without<T>(s: seq<T>, k: nat): seq<T>
    requires k < |s|
  {
    s[..k] + s[k + 1..]
  }

  /**
    The tree after an operator has left the group at k: a follower leaves the ring,
    a lone leader takes the group along, and otherwise the first follower takes
    the leader's place.
   */
  function Remove(tree: seq<Group>, k: nat, op: Op): seq<Group>
    requires k < |tree| && op in Members(tree[k])
  {
    var g := tree[k];
    if op != g.leader then tree[k := g.(followers := Without(g.followers, IndexOf(g.followers, op)))]
    else if g.followers == [] then Without(tree, k)
    else tree[k := Group(g.tick, g.followers[0], g.followers[1..])]
  }

  // ----- the check -----

  /** What one walk over the tree leaves and takes, how long to wait, and who owns the leaders now. */
  datatype Walked = Walked(kept: seq<Group>, expired: seq<Op>, wait: int, owner: map<Op, Thread>)

  /** The locked loop of AThreadCheckTimewait. */
  function Walk(tree: seq<Group>, owner: map<Op, Thread>, at: Thread, now: Word, wait: int): Walked {
    if tree == [] then Walked([], [], wait, owner)
    else
      var g := tree[0];
      var diff := Diff(now, g.tick);
      if diff < -1 then
        if g.leader in owner && owner[g.leader] != at then
          var r := Walk(tree[1..], owner, at, now, wait);
          r.(kept := [g] + r.kept)
        else Walked(tree, [], if -diff < wait then -diff else wait, owner[g.leader := at])
      else
        var r := Walk(tree[1..], owner, at, now, wait);
        r.(expired := g.followers + [g.leader] + r.expired)
  }

  // ----- order in a window -----

  /** How far a tick lies after the start of a window. */
  function Offset(base: Word, tick: Word): Word { Wrap(tick - base) }

  predicate InWindow(base: Word, tick: Word) { Offset(base, tick) < WORD / 2 }

  predicate AllInWindow(base: Word, tree: seq<Group>) { forall i :: 0 <= i < |tree| ==> InWindow(base, tree[i].tick) }

  /** The groups stand in the order of their true deadlines. */
  predicate Sorted(base: Word, tree: seq<Group>) {
    forall i, j :: 0 <= i < j < |tree| ==> Offset(base, tree[i].tick) < Offset(base, tree[j].tick)
  }

  lemma DiffInWindow(base: Word, x: Word, y: Word)
    requires InWindow(base, x) && InWindow(base, y)
    ensures Diff(x, y) == Offset(base, x) - Offset(base, y)
  {
  }

  lemma OffsetsTell(base: Word, x: Word, y: Word)
    requires Offset(base, x) == Offset(base, y)
    ensures x == y
  {
  }

  lemma RemoveSorted(base: Word, tree: seq<Group>, k: nat, op: Op)
    requires AllInWindow(base, tree) && Sorted(base, tree) && k < |tree| && op in Members(tree[k])
    ensures AllInWindow(base, Remove(tree, k, op)) && Sorted(base, Remove(tree, k, op))
  {
    hide Offset;
  }

  /** The groups whose deadline is at most one tick away. */
  predicate Due(base: Word, g: Group, now: Word) { Offset(base, g.tick) <= Offset(base, now) + 1 }

  /** The first k groups of a sorted tree are the due ones. */
  predicate DueUpTo(base: Word, tree: seq<Group>, now: Word, k: nat) {
    && k <= |tree|
    && (forall i :: 0 <= i < k ==> Due(base, tree[i], now))
    && (forall i :: k <= i < |tree| ==> !Due(base, tree[i], now))
  }

  /** The operators of some groups, in the order in which they time out. */
  function Expiry(tree: seq<Group>): seq<Op> {
    if tree == [] then [] else tree[0].followers + [tree[0].leader] + Expiry(tree[1..])
  }

  /** The groups after the due ones are kept, whoever owns them. */
  lemma {:induction false} WalkKeeps(base: Word, tree: seq<Group>, owner: map<Op, Thread>, at: Thread, now: Word,
      wait: int)
    requires AllInWindow(base, tree) && InWindow(base, now) && (forall i ::
             0 <= i < |tree|
             ==> !Due(base, tree[i], now))
    ensures var w := Walk(tree, owner, at, now, wait); w.kept == tree && w.expired == []
  {
    hide Offset; hide Diff;
    if tree != [] {
      DiffInWindow(base, now, tree[0].tick);
      WalkKeeps(base, tree[1..], owner, at, now, wait);
    }
  }

  /** In a window, one walk takes exactly the operators whose deadline is at most one tick away. */
  lemma {:induction false} WalkExpires(base: Word, tree: seq<Group>, owner: map<Op, Thread>, at: Thread, now: Word,
      wait: int, k: nat)
    requires AllInWindow(base, tree) && InWindow(base, now) && DueUpTo(base, tree, now, k)
    ensures var w := Walk(tree, owner, at, now, wait); w.kept == tree[k..] && w.expired == Expiry(tree[..k])
  {
    hide Offset; hide Diff;
    if k == 0 {
      WalkKeeps(base, tree, owner, at, now, wait);
      assert tree[..0] == [];
    } else {
      DiffInWindow(base, now, tree[0].tick);
      WalkExpires(base, tree[1..], owner, at, now, wait, k - 1);
      assert tree[..k][1..] == tree[1..][..k - 1];
    }
  }

  predicate Owns(owner: map<Op, Thread>, at: Thread, g: Group) { g.leader in owner && owner[g.leader] == at }

  /** A sorted tree has a place where the due groups end. */
  lemma {:induction false} DueSplits(base: Word, tree: seq<Group>, now: Word) returns (k: nat)
    requires Sorted(base, tree)
    ensures DueUpTo(base, tree, now, k)
  {
    hide Offset;
    if tree == [] || !Due(base, tree[0], now) {
      k := 0;
    } else {
      k := DueSplits(base, tree[1..], now);
      k := k + 1;
      forall i | 0 <= i < |tree| ensures i < k <==> Due(base, tree[i], now) {
        if i > 0 {
          assert tree[i] == tree[1..][i - 1];
        }
      }
    }
  }

  predicate LeadersDiffer(tree: seq<Group>) { forall i, j :: 0 <= i < j < |tree| ==> tree[i].leader != tree[j].leader }

  /** A walk changes the owner of no operator but the leader it claims. */
  lemma {:induction false} WalkClaims(tree: seq<Group>, owner: map<Op, Thread>, at: Thread, now: Word, wait: int,
      op: Op)
    requires forall i :: 0 <= i < |tree| ==> tree[i].leader != op
    ensures var w := Walk(tree, owner, at, now, wait);
    (op in w.owner) == (op in owner) && (op in owner ==> w.owner[op] == owner[op])
  {
    hide Diff;
    if tree != [] {
      WalkClaims(tree[1..], owner, at, now, wait, op);
    }
  }

  /**
    The wait is at most the thread's own and at most the time to the deadline of
    every group it keeps whose leader the thread owns afterwards.
   */
  lemma {:induction false} WaitFits(base: Word, tree: seq<Group>, owner: map<Op, Thread>, at: Thread, now: Word,
      wait: int)
    requires AllInWindow(base, tree) && InWindow(base, now) && Sorted(base, tree) && LeadersDiffer(tree)
    ensures var w := Walk(tree, owner, at, now, wait);
            && w.wait <= wait
            && forall i ::
               0 <= i < |w.kept| && Owns(w.owner, at, w.kept[i])
               ==> w.wait <= Offset(base, w.kept[i].tick) - Offset(base, now)
  {
    hide Offset; hide Diff;
    if tree != [] {
      var rest := tree[1..];
      DiffInWindow(base, now, tree[0].tick);
      WaitFits(base, rest, owner, at, now, wait);
      assert forall i :: 0 <= i < |rest| ==> rest[i] == tree[i + 1];
      WalkClaims(rest, owner, at, now, wait, tree[0].leader);
    }
  }
}
