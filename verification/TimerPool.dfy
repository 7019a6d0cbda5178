/**
  The pool: every post, signal, check and end, on any threads in any order.

  After the steps come the invariant and the lemmas that each step keeps it: every post
  has ended or waits in one place, and the tick of an operator says where. Then the
  order of the tree, and the pool as an object whose methods take the steps in place.
 */
module TimerPool {
  import opened Timer
  import opened TimerTree

  /** A list that runnable operators wait in. */
  datatype Queue = Public | Private(th: Thread)

  datatype Item = Item(op: Op, queue: Queue)

  /** An operator in a thread's own lists between the lock and its completion. */
  datatype Local = Local(th: Thread, op: Op, result: int)

  datatype Ending = Ended(op: Op, result: int) | Cancelled(op: Op)

  /**
    The pool: the tree, the operators that wait for ever, the runnable ones, those
    taken by threads, the tick and the thread of each operator, and whether the
    pool has ended. The rest is a record of the posts and of how they ended.
   */
  datatype Pool = Pool(
    tree: seq<Group>, pending: seq<Op>, runnable: seq<Item>, local: seq<Local>,
    tick: map<Op, Word>, owner: map<Op, Thread>, over: bool,
    posted: multiset<Op>, ended: seq<Ending>)

  function Start(): Pool { Pool([], [], [], [], map[], map[], false, multiset{}, []) }

  function Tick(s: Pool, op: Op): Word { if op in s.tick then s.tick[op] else 0 }

  predicate OwnedBy(s: Pool, op: Op, at: Thread) { op in s.owner && s.owner[op] == at }

  /** Into the private list of the operator's own thread, otherwise into the public one. */
  function Runnable(s: Pool, op: Op, at: Thread): Pool {
    s.(runnable := s.runnable + [Item(op, if OwnedBy(s, op, at) then Private(at) else Public)])
  }

  /** AThreadPost */
  function PostNow(s: Pool, op: Op, at: Thread): Pool { Runnable(s.(posted := s.posted + multiset{op}), op, at) }

  /** AOperatorPost, with the tree in the given shape. */
  function Post(s: Pool, op: Op, at: Thread, tick: Word, shape: Tree): Pool
    requires Groups(shape) == s.tree
  {
    var t := s.(owner := s.owner - {op});
    if tick == 0 then PostNow(t, op, at)
    else
      var u := t.(tick := t.tick[op := tick], posted := t.posted + multiset{op});
      if tick == INFINITE then u.(pending := u.pending + [op])
          else u.(tree := Insert(u.tree, Search(shape, tick), tick, op))
  }

  datatype Signalled = Fault | Signalled(s: Pool, signal: int)

  /** The search for an operator's deadline ends at the group that the operator is in. */
  predicate Found(s: Pool, op: Op, shape: Tree)
    requires Groups(shape) == s.tree
  {
    var p := Search(shape, Tick(s, op));
    p.At? && op in Members(s.tree[p.k])
  }

  /**
    The operator is taken from where it waits. A search that ends in a gap meets
    an assert; one that ends at another group leads to its ring.
   */
  function Taken(s: Pool, op: Op, shape: Tree): Signalled
    requires Groups(shape) == s.tree
  {
    var tick := Tick(s, op);
    var t := s.(tick := s.tick[op := 0]);
    if tick == INFINITE then
      if op in s.pending then Signalled(t.(pending := Timer.Without(s.pending, IndexOf(s.pending, op))), 1) else Fault
    else
      if !Found(s, op, shape) then Fault
      else Signalled(t.(tree := Remove(s.tree, Search(shape, tick).k, op)), 1)
  }

  /** AOperatorSignal: wakes the operator, or cancels it; -1 if it was not waiting. */
  function Signal(s: Pool, op: Op, at: Thread, wake: bool, shape: Tree): Signalled
    requires Groups(shape) == s.tree
  {
    if Tick(s, op) == 0 then Signalled(s, -1)
    else
      match Taken(s, op, shape)
      case Fault => Fault
      case Signalled(t, _) =>
        if wake then Signalled(Runnable(t, op, at), 0) else Signalled(t.(ended := t.ended + [Cancelled(op)]), 1)
  }

  function Zeroed(tick: map<Op, Word>, ops: seq<Op>): map<Op, Word> {
    if ops == [] then tick else Zeroed(tick, ops[..|ops| - 1])[ops[|ops| - 1] := 0]
  }

  function Locals(at: Thread, ops: seq<Op>, result: int): seq<Local> {
    seq(|ops|, i requires 0 <= i < |ops| => Local(at, ops[i], result))
  }

  /** The operators of a list, and what remains when they are taken. */
  function Of(items: seq<Item>, q: Queue): seq<Op> {
    if items == [] then [] else (if items[0].queue == q then [items[0].op] else []) + Of(items[1..], q)
  }

  function NotOf(items: seq<Item>, q: Queue): seq<Item> {
    if items == [] then [] else (if items[0].queue == q then [] else [items[0]]) + NotOf(items[1..], q)
  }

  /** The first operator of the public list. */
  function FirstPublic(items: seq<Item>): (k: nat)
    ensures k <= |items| && (k < |items| ==> items[k].queue == Public)
  {
    if items == [] || items[0].queue == Public then 0 else 1 + FirstPublic(items[1..])
  }

  /** The locked part of AThreadCheckTimewait: the due operators, one public and all the thread's private ones. */
  function Pass(s: Pool, at: Thread, now: Word, wait: int): Pool {
    var w := Walk(s.tree, s.owner, at, now, wait);
    var k := FirstPublic(s.runnable);
    var first := if k < |s.runnable| then [s.runnable[k].op] else [];
    var rest := if k < |s.runnable| then Timer.Without(s.runnable, k) else s.runnable;
    s.(tree := w.kept, owner := w.owner, tick := Zeroed(s.tick, w.expired), runnable := NotOf(rest, Private(at)),
       local := s.local + (Locals(at, w.expired, 0) + Locals(at, first + Of(rest, Private(at)), 1)))
  }

  /** The first operator in a thread's own lists. */
  function FirstLocal(local: seq<Local>, at: Thread): (k: nat)
    ensures k <= |local| && (k < |local| ==> local[k].th == at)
  {
    if local == [] || local[0].th == at then 0 else 1 + FirstLocal(local[1..], at)
  }

  function Endings(ops: seq<Op>): seq<Ending> { seq(|ops|, i requires 0 <= i < |ops| => Ended(ops[i], -EINTR)) }

  /** The end of a thread that has completed all it took: its private operators are interrupted. */
  function EndThread(s: Pool, at: Thread): Pool {
    s.(runnable := NotOf(s.runnable, Private(at)), ended := s.ended + Endings(Of(s.runnable, Private(at))))
  }

  /** The end of the pool, after its threads: everything that waits is interrupted. */
  function EndPool(s: Pool): Pool {
    s.(tree := [], runnable := [], pending := [], over := true,
       ended := s.ended + Endings(Expiry(s.tree) + ItemOps(s.runnable) + s.pending))
  }

  function ItemOps(items: seq<Item>): seq<Op> { seq(|items|, i requires 0 <= i < |items| => items[i].op) }

  function LocalOps(local: seq<Local>): seq<Op> { seq(|local|, i requires 0 <= i < |local| => local[i].op) }

  function OpOf(e: Ending): Op { e.op }

  function EndedOps(es: seq<Ending>): seq<Op> { seq(|es|, i requires 0 <= i < |es| => es[i].op) }

  datatype Event =
    | DoPost(op: Op, at: Thread, tick: Word, shape: Tree)
    | DoPostNow(op: Op, at: Thread)
    | DoSignal(op: Op, at: Thread, wake: bool, shape: Tree)
    | DoPass(at: Thread, now: Word, wait: int)
    | DoTell(at: Thread)
    | DoEndThread(at: Thread)
    | DoEndPool

  datatype Outcome = Disabled | Failed | Next(s: Pool)

  /** An operator that has been posted and has not ended. */
  predicate Live(s: Pool, op: Op) { s.posted[op] > multiset(EndedOps(s.ended))[op] }

  /**
    An operator is posted only while it is not live, and the pool ends once its
    threads have completed what they took. A post or a signal finds the tree in
    some shape.
   */
  function Step(s: Pool, e: Event): Outcome {
    if s.over then Disabled
    else
      match e
      case DoPost(op, at, tick, shape) =>
        if Live(s, op) || Groups(shape) != s.tree then Disabled else Next(Post(s, op, at, tick, shape))
      case DoPostNow(op, at) => if Live(s, op) then Disabled else Next(PostNow(s, op, at))
      case DoSignal(op, at, wake, shape) =>
        if Groups(shape) != s.tree then Disabled
        else (match Signal(s, op, at, wake, shape) case Fault => Failed case Signalled(t, _) => Next(t))
      case DoPass(at, now, wait) => Next(Pass(s, at, now, wait))
      case DoTell(at) =>
        var k := FirstLocal(s.local, at);
        if k == |s.local| then Disabled
        else if Tick(s, s.local[k].op) != 0 then Failed
        else Next(s.(local := Timer.Without(s.local, k), ended := s.ended + [Ended(s.local[k].op, s.local[k].result)]))
      case DoEndThread(at) => if FirstLocal(s.local, at) < |s.local| then Disabled else Next(EndThread(s, at))
      case DoEndPool => if s.local != [] then Disabled else Next(EndPool(s))
  }

  // ----- the invariant -----

  /** In how many places an operator waits or is about to be completed. */
  function Places(s: Pool, op: Op): nat {
    multiset(Expiry(s.tree))[op] + multiset(s.pending)[op] + multiset(ItemOps(s.runnable))[op]
        + multiset(LocalOps(s.local))[op]
  }

  /** How often a post of an operator has ended. */
  function Ends(s: Pool, op: Op): nat { multiset(EndedOps(s.ended))[op] }

  predicate Finite(tick: Word) { tick != 0 && tick != INFINITE }

  /** The group of an operator has the operator's deadline. */
  predicate Carried(tree: seq<Group>, tick: map<Op, Word>, op: Op) {
    forall i :: 0 <= i < |tree| && op in Members(tree[i]) ==> op in tick && tick[op] == tree[i].tick
  }

  /**
    Every post of an operator has ended, but for one if it waits somewhere, and
    then in one place only; its tick says whether that is a group, the pending
    list, or neither.
   */
  predicate Placed(s: Pool, op: Op) {
    && s.posted[op] == Ends(s, op) + Places(s, op) && Places(s, op) <= 1
    && (!s.over ==>
          && (op in Expiry(s.tree) <==> Finite(Tick(s, op))) && (op in s.pending <==> Tick(s, op) == INFINITE)
          && Carried(s.tree, s.tick, op))
  }

  /** The results a completion can have: the time is out, it was woken, or it was interrupted. */
  predicate ResultOk(e: Ending) { e.Ended? ==> e.result == 0 || e.result == 1 || e.result == -EINTR }

  predicate ResultsOk(s: Pool) {
    && (forall i :: 0 <= i < |s.ended| ==> ResultOk(s.ended[i]))
    && (forall i :: 0 <= i < |s.local| ==> s.local[i].result == 0 || s.local[i].result == 1)
  }

  ghost predicate Inv(s: Pool) { (forall op :: Placed(s, op)) && ResultsOk(s) }

  // ----- the operators of a tree -----

  lemma {:induction false} ExpiryJoin(x: seq<Group>, y: seq<Group>)
    ensures Expiry(x + y) == Expiry(x) + Expiry(y)
  {
    if x == [] {
      assert x + y == y;
    } else {
      ExpiryJoin(x[1..], y);
      RestJoin(x, y);
    }
  }

  lemma RestJoin(x: seq<Group>, y: seq<Group>)
    requires x != []
    ensures (x + y)[0] == x[0] && (x + y)[1..] == x[1..] + y
  {
  }

  lemma ExpiryOne(g: Group)
    ensures Expiry([g]) == g.followers + [g.leader] && multiset(Expiry([g])) == multiset(Members(g))
  {
    assert [g][1..] == [];
    assert multiset(g.followers + [g.leader]) == multiset(g.followers) + multiset{g.leader};
    assert multiset([g.leader] + g.followers) == multiset{g.leader} + multiset(g.followers);
  }

  /** The operators of a tree around one of its groups. */
  lemma ExpiryAround(tree: seq<Group>, k: nat)
    requires k < |tree|
    ensures multiset(Expiry(tree))
            == multiset(Expiry(tree[..k])) + multiset(Members(tree[k])) + multiset(Expiry(tree[k + 1..]))
  {
    hide Expiry; hide Members;
    assert tree == tree[..k] + [tree[k]] + tree[k + 1..];
    ExpiryJoin(tree[..k] + [tree[k]], tree[k + 1..]);
    ExpiryJoin(tree[..k], [tree[k]]);
    ExpiryOne(tree[k]);
  }

  lemma ExpirySwapped(tree: seq<Group>, k: nat, g: Group)
    requires k < |tree|
    ensures multiset(Expiry(tree[k := g])) + multiset(Members(tree[k])) == multiset(Expiry(tree)) + multiset(Members(g))
  {
    hide Expiry; hide Members;
    ExpiryAround(tree, k);
    ExpiryAround(tree[k := g], k);
    assert tree[k := g][..k] == tree[..k] && tree[k := g][k + 1..] == tree[k + 1..];
  }

  lemma Cancel(x: multiset<Op>, y: multiset<Op>, z: multiset<Op>)
    requires x + z == y + z
    ensures x == y
  {
    forall op ensures x[op] == y[op] {
      assert (x + z)[op] == (y + z)[op];
    }
  }

  lemma InsertAdds(tree: seq<Group>, p: Place, tick: Word, op: Op)
    requires p.k <= |tree| && (p.At? ==> p.k < |tree|)
    ensures multiset(Expiry(Insert(tree, p, tick, op))) == multiset(Expiry(tree)) + multiset{op}
  {
    hide Expiry;
    if p.At? {
      JoinAdds(tree, p.k, op);
    } else {
      GapAdds(tree, p.k, Group(tick, op, []));
    }
  }

  lemma JoinAdds(tree: seq<Group>, k: nat, op: Op)
    requires k < |tree|
    ensures var g := tree[k].(followers := tree[k].followers + [op]);
    multiset(Expiry(tree[k := g])) == multiset(Expiry(tree)) + multiset{op}
  {
    hide Expiry;
    var g := tree[k].(followers := tree[k].followers + [op]);
    ExpirySwapped(tree, k, g);
    assert Members(g) == Members(tree[k]) + [op];
    assert multiset(Members(g)) == multiset(Members(tree[k])) + multiset{op};
    Cancel(multiset(Expiry(tree[k := g])), multiset(Expiry(tree)) + multiset{op}, multiset(Members(tree[k])));
  }

  lemma GapAdds(tree: seq<Group>, p: nat, g: Group)
    requires p <= |tree| && g.followers == []
    ensures multiset(Expiry(tree[..p] + [g] + tree[p..])) == multiset(Expiry(tree)) + multiset{g.leader}
  {
    hide Expiry;
    assert tree == tree[..p] + tree[p..];
    ExpiryJoin(tree[..p], tree[p..]);
    ExpiryJoin(tree[..p] + [g], tree[p..]);
    ExpiryJoin(tree[..p], [g]);
    ExpiryOne(g);
    assert Members(g) == [g.leader];
    var a, b := Expiry(tree[..p]), Expiry(tree[p..]);
    assert multiset(a + b) == multiset(a) + multiset(b);
    assert multiset(a + Expiry([g]) + b) == multiset(a) + multiset{g.leader} + multiset(b);
  }

  lemma WithoutTakes(ops: seq<Op>, k: nat)
    requires k < |ops|
    ensures multiset(ops) == multiset(Timer.Without(ops, k)) + multiset{ops[k]}
  {
    assert ops == ops[..k] + [ops[k]] + ops[k + 1..];
  }

  /** A group exchanged for the same group without one operator. */
  lemma GroupLoses(tree: seq<Group>, k: nat, h: Group, op: Op)
    requires k < |tree| && multiset(Members(tree[k])) == multiset(Members(h)) + multiset{op}
    ensures multiset(Expiry(tree)) == multiset(Expiry(tree[k := h])) + multiset{op}
  {
    hide Expiry; hide Members;
    ExpirySwapped(tree, k, h);
    Cancel(multiset(Expiry(tree)), multiset(Expiry(tree[k := h])) + multiset{op}, multiset(Members(h)));
  }

  lemma LoneGroupGoes(tree: seq<Group>, k: nat)
    requires k < |tree| && tree[k].followers == []
    ensures multiset(Expiry(tree)) == multiset(Expiry(Timer.Without(tree, k))) + multiset{tree[k].leader}
  {
    hide Expiry;
    ExpiryAround(tree, k);
    assert Members(tree[k]) == [tree[k].leader];
    ExpiryJoin(tree[..k], tree[k + 1..]);
    assert multiset(Expiry(tree[..k]) + Expiry(tree[k + 1..]))
        == multiset(Expiry(tree[..k])) + multiset(Expiry(tree[k + 1..]));
  }

  lemma RemoveTakes(tree: seq<Group>, k: nat, op: Op)
    requires k < |tree| && op in Members(tree[k])
    ensures multiset(Expiry(tree)) == multiset(Expiry(Remove(tree, k, op))) + multiset{op}
  {
    hide Expiry;
    var g := tree[k];
    assert multiset(Members(g)) == multiset{g.leader} + multiset(g.followers);
    if op != g.leader {
      var i := IndexOf(g.followers, op);
      var h := g.(followers := Timer.Without(g.followers, i));
      WithoutTakes(g.followers, i);
      assert multiset(Members(h)) == multiset{g.leader} + multiset(h.followers);
      GroupLoses(tree, k, h, op);
    } else if g.followers == [] {
      LoneGroupGoes(tree, k);
    } else {
      var h := Group(g.tick, g.followers[0], g.followers[1..]);
      assert Members(h) == g.followers;
      GroupLoses(tree, k, h, op);
    }
  }

  /** An operator of the tree is a member of one of its groups. */
  lemma {:induction false} InGroup(tree: seq<Group>, op: Op) returns (k: nat)
    requires op in Expiry(tree)
    ensures k < |tree| && op in Members(tree[k])
  {
    if op in Members(tree[0]) {
      k := 0;
    } else {
      assert op in Expiry(tree[1..]);
      k := InGroup(tree[1..], op);
      k := k + 1;
    }
  }

  lemma MemberIsIn(tree: seq<Group>, k: nat, op: Op)
    requires k < |tree| && op in Members(tree[k])
    ensures op in Expiry(tree)
  {
    hide Expiry;
    ExpiryAround(tree, k);
    assert multiset(Expiry(tree))[op] >= multiset(Members(tree[k]))[op] > 0;
  }

  /** A walk keeps or takes every operator. */
  lemma {:induction false} WalkSplits(tree: seq<Group>, owner: map<Op, Thread>, at: Thread, now: Word, wait: int)
    ensures var w := Walk(tree, owner, at, now, wait);
    multiset(Expiry(tree)) == multiset(Expiry(w.kept)) + multiset(w.expired)
  {
    hide Diff; hide Expiry;
    if tree != [] {
      var g, rest := tree[0], tree[1..];
      WalkSplits(rest, owner, at, now, wait);
      var r := Walk(rest, owner, at, now, wait);
      assert tree == [g] + rest;
      ExpiryOne(g);
      ExpiryJoin([g], rest);
      ExpiryJoin([g], r.kept);
      SplitsJoin(Expiry([g]), Expiry(rest), Expiry(r.kept), r.expired);
    }
    ExpiryNone();
  }

  lemma SplitsJoin(x: seq<Op>, all: seq<Op>, kept: seq<Op>, expired: seq<Op>)
    requires multiset(all) == multiset(kept) + multiset(expired)
    ensures multiset(x + all) == multiset(x + kept) + multiset(expired)
    ensures multiset(x + all) == multiset(kept) + multiset(x + expired)
  {
  }

  lemma ExpiryNone()
    ensures Expiry([]) == []
  {
  }

  // ----- lists -----

  lemma {:induction false} ItemsSplit(items: seq<Item>, q: Queue, op: Op)
    ensures multiset(ItemOps(items))[op] == multiset(Of(items, q))[op] + multiset(ItemOps(NotOf(items, q)))[op]
  {
    hide ItemOps;
    if items == [] {
      NoItems();
    } else {
      var i, rest := items[0], items[1..];
      ItemsSplit(rest, q, op);
      assert items == [i] + rest;
      ItemsCons(i, rest, op);
      if i.queue != q {
        assert NotOf(items, q) == [i] + NotOf(rest, q) && Of(items, q) == Of(rest, q);
        ItemsCons(i, NotOf(rest, q), op);
      } else {
        assert Of(items, q) == [i.op] + Of(rest, q) && NotOf(items, q) == NotOf(rest, q);
        Counted(i.op, Of(rest, q), op);
      }
    }
  }

  lemma NoItems()
    ensures ItemOps([]) == []
  {
  }

  lemma ItemsCons(i: Item, rest: seq<Item>, op: Op)
    ensures multiset(ItemOps([i] + rest))[op] == multiset(ItemOps(rest))[op] + if i.op == op then 1 else 0
  {
    assert ItemOps([i] + rest) == [i.op] + ItemOps(rest);
    Counted(i.op, ItemOps(rest), op);
  }

  lemma Counted(x: Op, ops: seq<Op>, op: Op)
    ensures multiset([x] + ops)[op] == multiset(ops)[op] + if x == op then 1 else 0
  {
    assert multiset([x] + ops) == multiset{x} + multiset(ops);
  }

  lemma ItemsWithout(items: seq<Item>, k: nat)
    requires k < |items|
    ensures multiset(ItemOps(items)) == multiset(ItemOps(Timer.Without(items, k))) + multiset{items[k].op}
  {
    WithoutTakes(ItemOps(items), k);
    assert ItemOps(Timer.Without(items, k)) == Timer.Without(ItemOps(items), k);
  }

  lemma ItemsAdd(items: seq<Item>, i: Item)
    ensures multiset(ItemOps(items + [i])) == multiset(ItemOps(items)) + multiset{i.op}
  {
    assert ItemOps(items + [i]) == ItemOps(items) + [i.op];
  }

  lemma LocalsAdd(local: seq<Local>, at: Thread, ops: seq<Op>, more: seq<Op>)
    ensures multiset(LocalOps(local + (Locals(at, ops, 0) + Locals(at, more, 1))))
            == multiset(LocalOps(local)) + multiset(ops) + multiset(more)
  {
    assert LocalOps(local + (Locals(at, ops, 0) + Locals(at, more, 1))) == LocalOps(local) + ops + more;
  }

  lemma LocalsWithout(local: seq<Local>, k: nat)
    requires k < |local|
    ensures multiset(LocalOps(local)) == multiset(LocalOps(Timer.Without(local, k))) + multiset{local[k].op}
  {
    WithoutTakes(LocalOps(local), k);
    assert LocalOps(Timer.Without(local, k)) == Timer.Without(LocalOps(local), k);
  }

  lemma EndsAdd(ended: seq<Ending>, e: Ending)
    ensures multiset(EndedOps(ended + [e])) == multiset(EndedOps(ended)) + multiset{e.op}
  {
    assert EndedOps(ended + [e]) == EndedOps(ended) + [e.op];
  }

  lemma EndsAddAll(ended: seq<Ending>, ops: seq<Op>)
    ensures multiset(EndedOps(ended + Endings(ops))) == multiset(EndedOps(ended)) + multiset(ops)
  {
    assert EndedOps(ended + Endings(ops)) == EndedOps(ended) + ops;
  }

  lemma {:induction false} ZeroedAre(tick: map<Op, Word>, ops: seq<Op>, op: Op)
    ensures var r := Zeroed(tick, ops);
            if op in ops then op in r && r[op] == 0 else (op in r) == (op in tick) && (op in tick ==> r[op] == tick[op])
  {
    if ops != [] {
      ZeroedAre(tick, ops[..|ops| - 1], op);
      assert ops == ops[..|ops| - 1] + [ops[|ops| - 1]];
    }
  }

  // ----- steps keep the invariant -----

  lemma InsertCarries(tree: seq<Group>, tick: map<Op, Word>, p: Place, t: Word, op: Op, x: Op)
    requires Carried(tree, tick, x) && op !in Expiry(tree)
    requires p.k <= |tree| && (p.At? ==> p.k < |tree| && tree[p.k].tick == t)
    ensures Carried(Insert(tree, p, t, op), tick[op := t], x)
  {
    hide Expiry; hide Members; hide Carried; hide Insert;
    if x == op {
      forall k | 0 <= k < |tree| ensures op !in Members(tree[k]) {
        if op in Members(tree[k]) {
          MemberIsIn(tree, k, op);
        }
      }
    }
    var u := Insert(tree, p, t, op);
    forall i | 0 <= i < |u| && x in Members(u[i]) ensures (x == op && u[i].tick == t)
        || (x in tick && tick[x] == u[i].tick && x != op) {
      InsertPuts(tree, p, t, op, x, i);
      if x != op {
        var j :| 0 <= j < |tree| && x in Members(tree[j]) && u[i].tick == tree[j].tick;
        CarriedAt(tree, tick, x, j);
      }
    }
    assert Carried(u, tick[op := t], x) by { CarriedBy(u, tick[op := t], x); }
  }

  lemma CarriedAt(tree: seq<Group>, tick: map<Op, Word>, x: Op, j: nat)
    requires Carried(tree, tick, x) && j < |tree| && x in Members(tree[j])
    ensures x in tick && tick[x] == tree[j].tick
  {
  }

  lemma CarriedBy(tree: seq<Group>, tick: map<Op, Word>, x: Op)
    requires forall i :: 0 <= i < |tree| && x in Members(tree[i]) ==> x in tick && tick[x] == tree[i].tick
    ensures Carried(tree, tick, x)
  {
  }

  /** An insertion puts its operator into a group of its tick and leaves the others with their ticks. */
  lemma InsertPuts(tree: seq<Group>, p: Place, t: Word, op: Op, x: Op, i: nat)
    requires p.k <= |tree| && (p.At? ==> p.k < |tree| && tree[p.k].tick == t)
    requires i < |Insert(tree, p, t, op)| && x in Members(Insert(tree, p, t, op)[i])
    requires x == op ==> forall k :: 0 <= k < |tree| ==> op !in Members(tree[k])
    ensures x == op ==> Insert(tree, p, t, op)[i].tick == t
    ensures x != op ==> exists j ::
            0 <= j < |tree| && x in Members(tree[j])
            && Insert(tree, p, t, op)[i].tick == tree[j].tick
  {
    var j := if p.Gap? && i > p.k then i - 1 else i;
    if p.At? || i != p.k {
      assert x != op ==> x in Members(tree[j]);
    }
  }

  lemma RemoveCarries(tree: seq<Group>, tick: map<Op, Word>, k: nat, op: Op, x: Op)
    requires Carried(tree, tick, x) && k < |tree| && op in Members(tree[k]) && multiset(Expiry(tree))[op] <= 1
    ensures Carried(Remove(tree, k, op), tick[op := 0], x)
  {
    hide Expiry; hide Remove; hide Members;
    RemoveTakes(tree, k, op);
    var t := Remove(tree, k, op);
    assert multiset(Expiry(t))[op] == 0;
    if x == op {
      forall i | 0 <= i < |t| ensures op !in Members(t[i]) {
        if op in Members(t[i]) {
          MemberIsIn(t, i, op);
        }
      }
    } else {
      RemoveStays(tree, k, op, x);
    }
  }

  /** Removing one operator puts no other into a group. */
  lemma RemoveStays(tree: seq<Group>, k: nat, op: Op, x: Op)
    requires k < |tree| && op in Members(tree[k])
    ensures var t := Remove(tree, k, op); forall i ::
            0 <= i < |t| && x in Members(t[i])
            ==> exists j :: 0 <= j < |tree| && x in Members(tree[j]) && t[i].tick == tree[j].tick
  {
    var t := Remove(tree, k, op);
    forall i | 0 <= i < |t| && x in Members(t[i]) ensures exists j ::
        0 <= j < |tree| && x in Members(tree[j])
        && t[i].tick == tree[j].tick {
      var lone := op == tree[k].leader && tree[k].followers == [];
      var j := if lone && i >= k then i + 1 else i;
      assert x in Members(tree[j]);
    }
  }

  lemma PostPlaces(s: Pool, op: Op, at: Thread, tick: Word, shape: Tree, x: Op)
    requires Placed(s, x) && Placed(s, op) && !s.over && !Live(s, op) && Groups(shape) == s.tree
    ensures Placed(Post(s, op, at, tick, shape), x)
  {
    hide Search; hide Groups; hide Expiry; hide Carried; hide Insert;
    NowherePosted(s, op);
    if tick == 0 {
      RunnablePlaces(s, op, x);
    } else if tick == INFINITE {
      PendingPlaces(s, op, x);
    } else {
      InsertPlaces(s, op, tick, Search(shape, tick), x);
    }
  }

  lemma NowherePosted(s: Pool, op: Op)
    requires Placed(s, op) && !Live(s, op)
    ensures Places(s, op) == 0
  {
  }

  lemma RunnablePlaces(s: Pool, op: Op, x: Op)
    requires Placed(s, x) && !s.over && Places(s, op) == 0
    ensures Placed(s.(owner := s.owner - {op}, posted := s.posted + multiset{op},
            runnable := s.runnable + [Item(op, Public)]), x)
  {
    hide Expiry; hide Carried; hide ItemOps; hide LocalOps; hide EndedOps;
    ItemsAdd(s.runnable, Item(op, Public));
  }

  lemma PendingPlaces(s: Pool, op: Op, x: Op)
    requires Placed(s, x) && Placed(s, op) && !s.over && Places(s, op) == 0
    ensures Placed(s.(owner := s.owner - {op}, tick := s.tick[op := INFINITE], posted := s.posted + multiset{op},
                      pending := s.pending + [op]), x)
  {
    hide Expiry; hide Carried; hide ItemOps; hide LocalOps; hide EndedOps;
    CarriedElsewhere(s.tree, s.tick, op, INFINITE, x);
    assert multiset(s.pending + [op]) == multiset(s.pending) + multiset{op};
  }

  lemma InsertPlaces(s: Pool, op: Op, tick: Word, p: Place, x: Op)
    requires Placed(s, x) && Placed(s, op) && !s.over && Places(s, op) == 0 && Finite(tick)
    requires p.k <= |s.tree| && (p.At? ==> p.k < |s.tree| && s.tree[p.k].tick == tick)
    ensures Placed(s.(owner := s.owner - {op}, tick := s.tick[op := tick], posted := s.posted + multiset{op},
                      tree := Insert(s.tree, p, tick, op)), x)
  {
    hide Expiry; hide Carried; hide Insert; hide ItemOps; hide LocalOps; hide EndedOps;
    InsertAdds(s.tree, p, tick, op);
    InsertCarries(s.tree, s.tick, p, tick, op, x);
    Parted(Insert(s.tree, p, tick, op), s.tree, [op], x);
  }

  lemma CarriedElsewhere(tree: seq<Group>, tick: map<Op, Word>, op: Op, t: Word, x: Op)
    requires Carried(tree, tick, x) && op !in Expiry(tree)
    ensures Carried(tree, tick[op := t], x)
  {
    hide Expiry; hide Members;
    forall i | 0 <= i < |tree| && x in Members(tree[i]) ensures x in tick[op := t] && tick[op := t][x] == tree[i].tick {
      MemberIsIn(tree, i, x);
    }
  }

  lemma PostNowPlaces(s: Pool, op: Op, at: Thread, x: Op)
    requires Placed(s, x) && Placed(s, op) && !s.over && !Live(s, op)
    ensures Placed(PostNow(s, op, at), x)
  {
    hide Expiry; hide Carried;
    assert Places(s, op) == 0;
    ItemsAdd(s.runnable, Item(op, if OwnedBy(s, op, at) then Private(at) else Public));
  }

  /** What Taken leaves is as before but for the operator, which is nowhere. */
  lemma TakenPlaces(s: Pool, op: Op, shape: Tree, x: Op)
    requires Placed(s, x) && Placed(s, op) && !s.over && Tick(s, op) != 0
    requires Groups(shape) == s.tree && Taken(s, op, shape).Signalled?
    ensures var t := Taken(s, op, shape).s;
            && t == s.(tree := t.tree, pending := t.pending, tick := s.tick[op := 0])
            && Places(s, x) == Places(t, x) + (if x == op then 1 else 0)
            && (op in Expiry(t.tree) <==> false) && (op in t.pending <==> false)
            && (x != op ==> (x in Expiry(t.tree) <==> x in Expiry(s.tree)) && (x in t.pending <==> x in s.pending))
            && Carried(t.tree, t.tick, x)
  {
    hide Expiry; hide Search; hide Groups; hide Remove;
    var tick := Tick(s, op);
    if tick == INFINITE {
      WithoutTakes(s.pending, IndexOf(s.pending, op));
      CarriedElsewhere(s.tree, s.tick, op, 0, x);
    } else {
      var k := Search(shape, tick).k;
      RemoveTakes(s.tree, k, op);
      RemoveCarries(s.tree, s.tick, k, op, x);
    }
  }

  /** An operator that has been taken is put where it can run. */
  lemma WokenPlaces(s: Pool, t: Pool, op: Op, q: Queue, x: Op)
    requires Placed(s, x) && !s.over && t == s.(tree := t.tree, pending := t.pending, tick := s.tick[op := 0])
    requires Places(s, x) == Places(t, x) + (if x == op then 1 else 0) && op !in Expiry(t.tree) && op !in t.pending
    requires x != op ==> (x in Expiry(t.tree) <==> x in Expiry(s.tree)) && (x in t.pending <==> x in s.pending)
    requires Carried(t.tree, t.tick, x)
    ensures Placed(t.(runnable := t.runnable + [Item(op, q)]), x)
    ensures Placed(t.(ended := t.ended + [Cancelled(op)]), x)
  {
    hide Expiry; hide Carried; hide ItemOps; hide LocalOps; hide EndedOps;
    ItemsAdd(t.runnable, Item(op, q));
    EndsAdd(t.ended, Cancelled(op));
  }

  lemma SignalPlaces(s: Pool, op: Op, at: Thread, wake: bool, shape: Tree, x: Op)
    requires Placed(s, x) && Placed(s, op) && !s.over && Groups(shape) == s.tree
             && Signal(s, op, at, wake, shape).Signalled?
    ensures Placed(Signal(s, op, at, wake, shape).s, x)
  {
    hide Expiry; hide Taken; hide Carried; hide Placed; hide Places; hide Groups;
    if Tick(s, op) != 0 {
      TakenPlaces(s, op, shape, x);
      var t := Taken(s, op, shape).s;
      WokenPlaces(s, t, op, if OwnedBy(t, op, at) then Private(at) else Public, x);
    }
  }

  /** The runnable operators a pass takes, and those it leaves. */
  lemma RunnableSplits(items: seq<Item>, at: Thread, op: Op)
    ensures var k := FirstPublic(items);
            var first := if k < |items| then [items[k].op] else [];
            var rest := if k < |items| then Timer.Without(items, k) else items;
            multiset(ItemOps(items))[op]
                == multiset(first + Of(rest, Private(at)))[op] + multiset(ItemOps(NotOf(rest, Private(at))))[op]
  {
    hide ItemOps; hide Of; hide NotOf; hide FirstPublic;
    var k := FirstPublic(items);
    if k < |items| {
      ItemsWithout(items, k);
      var rest := Timer.Without(items, k);
      ItemsSplit(rest, Private(at), op);
      Counted(items[k].op, Of(rest, Private(at)), op);
    } else {
      ItemsSplit(items, Private(at), op);
      assert [] + Of(items, Private(at)) == Of(items, Private(at));
    }
  }

  /** A pass moves operators about: out of the tree and the lists, into the thread's hands. */
  lemma PassCounts(s: Pool, at: Thread, now: Word, wait: int, x: Op)
    ensures Places(Pass(s, at, now, wait), x) == Places(s, x)
  {
    hide Expiry; hide Walk; hide ItemOps; hide LocalOps; hide Of; hide NotOf; hide FirstPublic; hide Locals;
    hide Zeroed;
    var w := Walk(s.tree, s.owner, at, now, wait);
    var k := FirstPublic(s.runnable);
    var first := if k < |s.runnable| then [s.runnable[k].op] else [];
    var rest := if k < |s.runnable| then Timer.Without(s.runnable, k) else s.runnable;
    WalkSplits(s.tree, s.owner, at, now, wait);
    RunnableSplits(s.runnable, at, x);
    LocalsAdd(s.local, at, w.expired, first + Of(rest, Private(at)));
  }

  lemma PassPlaces(s: Pool, at: Thread, now: Word, wait: int, x: Op)
    requires Placed(s, x) && !s.over
    ensures Placed(Pass(s, at, now, wait), x)
  {
    hide Expiry; hide Walk; hide ItemOps; hide LocalOps; hide Of; hide NotOf; hide FirstPublic; hide Locals;
    hide Zeroed; hide EndedOps; hide Carried;
    PassCounts(s, at, now, wait, x);
    var w := Walk(s.tree, s.owner, at, now, wait);
    WalkSplits(s.tree, s.owner, at, now, wait);
    ZeroedAre(s.tick, w.expired, x);
    assert multiset(Expiry(s.tree))[x] <= Places(s, x) <= 1;
    hide Places;
    Parted(s.tree, w.kept, w.expired, x);
    KeptCarries(s, w, x);
  }

  /** An operator of the tree is either kept or taken. */
  lemma Parted(tree: seq<Group>, kept: seq<Group>, expired: seq<Op>, x: Op)
    requires multiset(Expiry(tree)) == multiset(Expiry(kept)) + multiset(expired) && multiset(Expiry(tree))[x] <= 1
    ensures x in expired ==> x in Expiry(tree) && x !in Expiry(kept)
    ensures x !in expired ==> (x in Expiry(kept) <==> x in Expiry(tree))
  {
    hide Expiry;
    assert multiset(Expiry(tree))[x] == multiset(Expiry(kept))[x] + multiset(expired)[x];
    assert (x in Expiry(tree)) == (x in multiset(Expiry(tree)));
    assert (x in Expiry(kept)) == (x in multiset(Expiry(kept)));
    assert (x in expired) == (x in multiset(expired));
  }

  lemma KeptCarries(s: Pool, w: Walked, x: Op)
    requires exists at, now, wait :: w == Walk(s.tree, s.owner, at, now, wait)
    requires Carried(s.tree, s.tick, x) && (x in w.expired ==> x !in Expiry(w.kept))
    ensures Carried(w.kept, Zeroed(s.tick, w.expired), x)
  {
    hide Expiry; hide Walk; hide Members; hide Zeroed;
    var at, now, wait :| w == Walk(s.tree, s.owner, at, now, wait);
    WalkKeepsGroups(s.tree, s.owner, at, now, wait);
    ZeroedAre(s.tick, w.expired, x);
    forall i | 0 <= i < |w.kept| && x in Members(w.kept[i])
      ensures x in Zeroed(s.tick, w.expired) && Zeroed(s.tick, w.expired)[x] == w.kept[i].tick
    {
      MemberIsIn(w.kept, i, x);
      assert w.kept[i] in s.tree;
    }
  }

  /** What a thread is about to complete no longer waits for a deadline. */
  lemma TellPlaces(s: Pool, k: nat, x: Op)
    requires Placed(s, x) && !s.over && k < |s.local|
    ensures s.local[k].op == x ==> Tick(s, x) == 0
    ensures Placed(s.(local := Timer.Without(s.local, k),
            ended := s.ended + [Ended(s.local[k].op, s.local[k].result)]), x)
  {
    hide Expiry; hide LocalOps; hide ItemOps; hide EndedOps; hide Carried;
    LocalsWithout(s.local, k);
    EndsAdd(s.ended, Ended(s.local[k].op, s.local[k].result));
    assert (x in Expiry(s.tree)) == (multiset(Expiry(s.tree))[x] > 0);
    assert (x in s.pending) == (multiset(s.pending)[x] > 0);
  }

  lemma EndThreadPlaces(s: Pool, at: Thread, x: Op)
    requires Placed(s, x)
    ensures Placed(EndThread(s, at), x)
  {
    hide Expiry; hide ItemOps; hide EndedOps; hide Of; hide NotOf; hide Carried; hide Endings;
    ItemsSplit(s.runnable, Private(at), x);
    EndsAddAll(s.ended, Of(s.runnable, Private(at)));
  }

  lemma EndPoolPlaces(s: Pool, x: Op)
    requires Placed(s, x) && s.local == []
    ensures Placed(EndPool(s), x) && Places(EndPool(s), x) == 0
  {
    hide EndedOps; hide Endings;
    EndsAddAll(s.ended, Expiry(s.tree) + ItemOps(s.runnable) + s.pending);
    assert multiset(Expiry(s.tree) + ItemOps(s.runnable) + s.pending)
        == multiset(Expiry(s.tree)) + multiset(ItemOps(s.runnable)) + multiset(s.pending);
    NoItems();
    ExpiryNone();
  }

  lemma StepPlaces(s: Pool, e: Event, x: Op)
    requires Inv(s) && Step(s, e).Next?
    ensures Placed(Step(s, e).s, x)
  {
    hide Placed; hide Post; hide PostNow; hide Signal; hide Pass; hide EndThread; hide EndPool; hide Live;
    hide FirstLocal;
    hide Groups;
    assert Placed(s, x);
    match e
    case DoPost(op, at, tick, shape) =>
      assert Placed(s, op);
      PostPlaces(s, op, at, tick, shape, x);
    case DoPostNow(op, at) =>
      assert Placed(s, op);
      PostNowPlaces(s, op, at, x);
    case DoSignal(op, at, wake, shape) =>
      assert Placed(s, op);
      SignalPlaces(s, op, at, wake, shape, x);
    case DoPass(at, now, wait) => PassPlaces(s, at, now, wait, x);
    case DoTell(at) => TellPlaces(s, FirstLocal(s.local, at), x);
    case DoEndThread(at) => EndThreadPlaces(s, at, x);
    case DoEndPool => EndPoolPlaces(s, x);
  }

  /** A step fails only where a signal searches for a group and does not find it. */
  lemma StepFails(s: Pool, e: Event)
    requires Inv(s)
    ensures Step(s, e).Failed? <==>
            !s.over && e.DoSignal? && Groups(e.shape) == s.tree && Finite(Tick(s, e.op)) && !Found(s, e.op, e.shape)
  {
    hide Placed; hide Post; hide PostNow; hide Pass; hide EndThread; hide EndPool; hide Live; hide FirstLocal;
    hide Groups; hide Found;
    if !s.over {
      match e
      case DoTell(at) =>
        var k := FirstLocal(s.local, at);
        if k < |s.local| {
          assert Placed(s, s.local[k].op);
          TellPlaces(s, k, s.local[k].op);
        }
      case DoSignal(op, _, _, _) => PendingWaits(s, op);
      case _ =>
    }
  }

  lemma PendingWaits(s: Pool, op: Op)
    requires Inv(s) && !s.over
    ensures op in s.pending <==> Tick(s, op) == INFINITE
  {
    assert Placed(s, op);
  }

  lemma StepResults(s: Pool, e: Event)
    requires ResultsOk(s) && Step(s, e).Next?
    ensures ResultsOk(Step(s, e).s)
  {
    hide Insert; hide Remove; hide Walk; hide Of; hide NotOf; hide FirstLocal; hide FirstPublic; hide Live;
    hide Zeroed; hide Expiry;
    hide ItemOps; hide Search; hide Groups; hide Found; hide IndexOf; hide Pass; hide Endings;
    match e
    case DoPass(at, now, wait) => PassResults(s, at, now, wait);
    case DoEndThread(at) => EndResults(s, EndThread(s, at), Of(s.runnable, Private(at)));
    case DoEndPool => EndResults(s, EndPool(s), Expiry(s.tree) + ItemOps(s.runnable) + s.pending);
    case _ =>
  }

  lemma PassResults(s: Pool, at: Thread, now: Word, wait: int)
    requires ResultsOk(s)
    ensures ResultsOk(Pass(s, at, now, wait))
  {
    hide Walk; hide Of; hide NotOf; hide FirstPublic; hide Zeroed;
  }

  lemma EndResults(s: Pool, t: Pool, ops: seq<Op>)
    requires ResultsOk(s) && t.local == s.local && t.ended == s.ended + Endings(ops)
    ensures ResultsOk(t)
  {
  }

  lemma StepKeeps(s: Pool, e: Event)
    requires Inv(s) && Step(s, e).Next?
    ensures Inv(Step(s, e).s)
  {
    hide Step; hide Placed; hide ResultsOk;
    StepResults(s, e);
    forall x ensures Placed(Step(s, e).s, x) {
      StepPlaces(s, e, x);
    }
  }

  // ----- order -----

  /** A post with a deadline fits if the tree admits the deadline; every other step fits. */
  predicate Fits(s: Pool, e: Event) { e.DoPost? && Finite(e.tick) ==> Admits(s.tree, e.tick) }

  /** From a tree in order, a step leaves the tree in order exactly if it fits. */
  lemma StepOrder(s: Pool, e: Event)
    requires InOrder(s.tree) && Step(s, e).Next?
    ensures InOrder(Step(s, e).s.tree) <==> Fits(s, e)
  {
    hide Insert; hide Remove; hide Walk; hide Of; hide NotOf; hide FirstLocal; hide FirstPublic; hide Live;
    hide Zeroed; hide Groups;
    hide Search; hide InOrder; hide Admits; hide Found; hide IndexOf; hide Endings;
    match e
    case DoPost(op, _, tick, shape) => if Finite(tick) { InsertIsExact(shape, tick, op); }
    case DoSignal(op, _, _, shape) => if Finite(Tick(s, op)) { TakenInOrder(s, op, shape); }
    case DoPass(at, now, wait) => WalkInOrder(s.tree, s.owner, at, now, wait);
    case DoEndPool => NoneInOrder();
    case _ =>
  }

  lemma TakenInOrder(s: Pool, op: Op, shape: Tree)
    requires InOrder(s.tree) && Groups(shape) == s.tree && Finite(Tick(s, op)) && Taken(s, op, shape).Signalled?
    ensures InOrder(Taken(s, op, shape).s.tree)
  {
    hide InOrder; hide Remove; hide Search; hide Groups;
    RemoveInOrder(s.tree, Search(shape, Tick(s, op)).k, op);
  }

  lemma NoneInOrder()
    ensures InOrder([])
  {
  }

  /** Signals fail in no shape of the tree if and only if the tree is in order. */
  lemma FailsOutOfOrder(s: Pool)
    requires Inv(s) && !s.over
    ensures (forall e :: !Step(s, e).Failed?) <==> InOrder(s.tree)
  {
    hide Inv; hide Step; hide InOrder; hide Found;
    OrderIsExact(s.tree);
    if InOrder(s.tree) {
      forall e ensures !Step(s, e).Failed? {
        StepFails(s, e);
        if Step(s, e).Failed? {
          SearchIsFound(s, e.op, e.shape);
        }
      }
    } else {
      var t: Tree :| Groups(t) == s.tree && !FindsAll(t);
      var op := SearchIsLost(s, t);
      StepFails(s, DoSignal(op, 0, false, t));
    }
  }

  /** A waiting operator is where its tick says. */
  lemma WaitsInGroup(s: Pool, op: Op) returns (k: nat)
    requires Inv(s) && !s.over && Finite(Tick(s, op))
    ensures k < |s.tree| && s.tree[k].tick == Tick(s, op) && multiset(Members(s.tree[k]))[op] == 1
    ensures forall i :: 0 <= i < |s.tree| && i != k ==> op !in Members(s.tree[i])
  {
    hide Expiry; hide Members;
    assert Placed(s, op);
    k := InGroup(s.tree, op);
    assert multiset(Members(s.tree[k]))[op] >= 1;
    ExpiryAround(s.tree, k);
    forall i | 0 <= i < |s.tree| && i != k ensures op !in Members(s.tree[i]) {
      if op in Members(s.tree[i]) {
        if i < k {
          MemberIsIn(s.tree[..k], i, op);
        } else {
          MemberIsIn(s.tree[k + 1..], i - k - 1, op);
        }
      }
    }
  }

  lemma SearchIsFound(s: Pool, op: Op, shape: Tree)
    requires Inv(s) && !s.over && Finite(Tick(s, op)) && Groups(shape) == s.tree && FindsAll(shape)
    ensures Found(s, op, shape)
  {
    hide Inv; hide Search;
    var k := WaitsInGroup(s, op);
  }

  lemma SearchIsLost(s: Pool, shape: Tree) returns (op: Op)
    requires Inv(s) && !s.over && Groups(shape) == s.tree && !FindsAll(shape)
    ensures Finite(Tick(s, op)) && !Found(s, op, shape)
  {
    hide Search; hide Expiry; hide Groups;
    var k: nat :| k < |s.tree| && Search(shape, s.tree[k].tick) != At(k);
    op := s.tree[k].leader;
    assert Placed(s, op) && op in Members(s.tree[k]);
    MemberIsIn(s.tree, k, op);
    var i := WaitsInGroup(s, op);
  }

  // ----- runs -----

  predicate IsRun(states: seq<Pool>, events: seq<Event>) {
    && |states| == |events| + 1 && states[0] == Start()
    && forall i :: 0 <= i < |events| ==> Step(states[i], events[i]) == Next(states[i + 1])
  }

  ghost predicate Reachable(s: Pool) { exists states, events :: IsRun(states, events) && states[|events|] == s }

  lemma StartIsOk()
    ensures Inv(Start())
  {
    assert EndedOps([]) == [];
    assert LocalOps([]) == [];
    NoItems();
    ExpiryNone();
  }

  lemma {:induction false} PrefixInv(states: seq<Pool>, events: seq<Event>, i: nat)
    requires IsRun(states, events) && i <= |events|
    ensures Inv(states[i])
  {
    hide Step; hide Inv;
    if i == 0 {
      StartIsOk();
    } else {
      PrefixInv(states, events, i - 1);
      assert Step(states[i - 1], events[i - 1]) == Next(states[i]);
      StepKeeps(states[i - 1], events[i - 1]);
    }
  }

  lemma ReachableInv(s: Pool)
    requires Reachable(s)
    ensures Inv(s)
  {
    hide Step; hide Inv;
    var states, events :| IsRun(states, events) && states[|events|] == s;
    PrefixInv(states, events, |events|);
  }

  // ----- the pool as an object -----

  /** The fields that posts, signals and checks update under the pool's lock. */
  class Scheduler {
    var tree: seq<Group>
    var pending: seq<Op>
    var runnable: seq<Item>
    var tick: map<Op, Word>
    var owner: map<Op, Thread>

    constructor ()
      ensures Agrees(Start())
    {
      tree, pending, runnable, tick, owner := [], [], [], map[], map[];
    }

    predicate Agrees(s: Pool)
      reads this
    {
      tree == s.tree && pending == s.pending && runnable == s.runnable && tick == s.tick && owner == s.owner
    }

    /** Adds to the private list of the operator's thread or to the public list. */
    method Enqueue(op: Op, at: Thread, ghost s: Pool)
      requires Agrees(s)
      modifies this`runnable
      ensures Agrees(Runnable(s, op, at))
    {
      if op in owner && owner[op] == at {
        runnable := runnable + [Item(op, Private(at))];
      } else {
        runnable := runnable + [Item(op, Public)];
      }
    }

    /** rb_insert and the ring of the group it finds; says whether the operator now leads the first group. */
    method InsertOperator(op: Op, t: Word, shape: Tree) returns (first: bool)
      requires Groups(shape) == tree
      modifies this`tree
      ensures tree == Insert(old(tree), Search(shape, t), t, op) && first == (Search(shape, t) == Gap(0))
    {
      hide Search; hide Groups;
      var p := Descend(shape, t);
      if p.At? {
        tree := tree[p.k := tree[p.k].(followers := tree[p.k].followers + [op])];
      } else {
        tree := tree[..p.k] + [Group(t, op, [])] + tree[p.k..];
      }
      first := p == Gap(0);
    }

    /** AOperatorPost; says whether a thread has to be woken for a new first deadline. */
    method PostOperator(op: Op, at: Thread, t: Word, shape: Tree, ghost s: Pool) returns (first: bool)
      requires Agrees(s) && Groups(shape) == tree
      modifies this
      ensures Agrees(Post(s, op, at, t, shape))
      ensures t != 0 && t != INFINITE ==> first == (Search(shape, t) == Gap(0))
    {
      hide Search; hide Groups; hide Insert;
      owner := owner - {op};
      first := false;
      if t == 0 {
        runnable := runnable + [Item(op, Public)];
        return;
      }
      tick := tick[op := t];
      if t == INFINITE {
        pending := pending + [op];
        return;
      }
      first := InsertOperator(op, t, shape);
    }

    /**
      AOperatorSignal: the operator leaves the pending list, its ring or the tree, where its first follower may
      take its place.
     */
    method SignalOperator(op: Op, at: Thread, wake: bool, shape: Tree, ghost s: Pool) returns (signal: int)
      requires Agrees(s) && Groups(shape) == tree && Signal(s, op, at, wake, shape).Signalled?
      modifies this
      ensures Agrees(Signal(s, op, at, wake, shape).s) && signal == Signal(s, op, at, wake, shape).signal
    {
      hide Search; hide Groups;
      var t := if op in tick then tick[op] else 0;
      if t == 0 {
        return -1;
      }
      tick := tick[op := 0];
      if t == INFINITE {
        pending := Timer.Without(pending, IndexOf(pending, op));
      } else {
        var p := Descend(shape, t);
        var k := p.k;
        assert p.At?;
        var g := tree[k];
        if op != g.leader {
          assert g.followers != [];
          tree := tree[k := g.(followers := Timer.Without(g.followers, IndexOf(g.followers, op)))];
        } else if g.followers == [] {
          tree := Timer.Without(tree, k);
        } else {
          tree := tree[k := Group(g.tick, g.followers[0], g.followers[1..])];
        }
      }
      if !wake {
        return 1;
      }
      Enqueue(op, at, Taken(s, op, shape).s);
      return 0;
    }

    /** The loop of AThreadCheckTimewait over the tree; says what timed out and how long to wait. */
    method CheckTimewait(at: Thread, now: Word, maxWait: int) returns (timeouts: seq<Op>, wait: int)
      modifies this`tree, this`tick, this`owner
      ensures Walked(tree, timeouts, wait, owner) == Walk(old(tree), old(owner), at, now, maxWait)
      ensures tick == Zeroed(old(tick), timeouts)
    {
      hide Walk; hide Zeroed; hide Diff;
      wait, timeouts := maxWait, [];
      var kept: seq<Group>, i: nat := [], 0;
      ZeroedNone(tick);
      while i < |tree|
        invariant i <= |tree| && tree == old(tree) && owner == old(owner) && wait == maxWait
        invariant tick == Zeroed(old(tick), timeouts)
        invariant Walk(old(tree), old(owner), at, now, maxWait)
                  == After(kept, timeouts, Walk(tree[i..], owner, at, now, maxWait))
      {
        var g := tree[i];
        var diff := Diff(now, g.tick);
        WalkOnce(tree[i..], owner, at, now, maxWait);
        assert tree[i..][1..] == tree[i + 1..];
        if diff < -1 {
          if g.leader !in owner || owner[g.leader] == at {
            owner := owner[g.leader := at];
            if -diff < wait {
              wait := -diff;
            }
            tree := kept + tree[i..];
            return;
          }
          assert kept + ([g] + Walk(tree[i + 1..], owner, at, now, maxWait).kept)
              == kept + [g] + Walk(tree[i + 1..], owner, at, now, maxWait).kept;
          kept := kept + [g];
        } else {
          ZeroedJoin(old(tick), timeouts, g.followers + [g.leader]);
          tick := Zeroed(tick, g.followers + [g.leader]);
          assert timeouts + (g.followers + [g.leader] + Walk(tree[i + 1..], owner, at, now, maxWait).expired)
              == timeouts + (g.followers + [g.leader]) + Walk(tree[i + 1..], owner, at, now, maxWait).expired;
          timeouts := timeouts + (g.followers + [g.leader]);
        }
        i := i + 1;
      }
      WalkOnce(tree[i..], owner, at, now, maxWait);
      tree := kept;
    }
  }

  /** A walk after some groups have been kept and some operators taken. */
  function After(kept: seq<Group>, expired: seq<Op>, w: Walked): Walked {
    w.(kept := kept + w.kept, expired := expired + w.expired)
  }

  lemma WalkOnce(tree: seq<Group>, owner: map<Op, Thread>, at: Thread, now: Word, wait: int)
    ensures Walk(tree, owner, at, now, wait) ==
            if tree == [] then Walked([], [], wait, owner)
            else if Diff(now, tree[0].tick) >= -1
                then After([], tree[0].followers + [tree[0].leader], Walk(tree[1..], owner, at, now, wait))
            else if tree[0].leader in owner && owner[tree[0].leader] != at
                then After([tree[0]], [], Walk(tree[1..], owner, at, now, wait))
            else Walked(tree, [], if -Diff(now, tree[0].tick) < wait then -Diff(now, tree[0].tick)
                else wait, owner[tree[0].leader := at])
  {
  }

  lemma ZeroedNone(tick: map<Op, Word>)
    ensures Zeroed(tick, []) == tick
  {
  }

  lemma {:induction false} ZeroedJoin(tick: map<Op, Word>, x: seq<Op>, y: seq<Op>)
    ensures Zeroed(tick, x + y) == Zeroed(Zeroed(tick, x), y)
  {
    if y == [] {
      assert x + y == x;
    } else {
      ZeroedJoin(tick, x, y[..|y| - 1]);
      assert (x + y)[..|x + y| - 1] == x + y[..|y| - 1];
    }
  }
}
