/** ecs/AEvent.cpp: the manager itself, its loops over the ring and over the pool. */
module EventManager {
  import opened Wrappers
  import opened Events
  import opened EventRuns
  import opened SlicePool

  lemma Assoc(a: seq<Id>, b: seq<Id>, c: seq<Id>)
    ensures a + b + c == a + (b + c)
  {
  }

  lemma Tails(a: seq<Id>, b: seq<Id>)
    requires a != []
    ensures (a + b)[0] == a[0] && (a + b)[1..] == a[1..] + b
  {
  }

  lemma {:induction false} KeptJoins(info: Id -> Info, accept: set<Id>, a: seq<Id>, b: seq<Id>)
    ensures Kept(info, accept, a + b) == Kept(info, accept, a) + Kept(info, accept, b)
  {
    if a == [] {
      assert a + b == b;
    } else {
      hide Leaves;
      Tails(a, b);
      KeptJoins(info, accept, a[1..], b);
      Assoc(if Leaves(info, accept, a[0]) then [] else [a[0]], Kept(info, accept, a[1..]), Kept(info, accept, b));
    }
  }

  lemma {:induction false} PickedJoins(info: Id -> Info, accept: set<Id>, a: seq<Id>, b: seq<Id>)
    ensures Picked(info, accept, a + b) == Picked(info, accept, a) + Picked(info, accept, b)
  {
    if a == [] {
      assert a + b == b;
    } else {
      hide Takes;
      Tails(a, b);
      PickedJoins(info, accept, a[1..], b);
      Assoc(if Takes(info, accept, a[0]) then [a[0]] else [], Picked(info, accept, a[1..]), Picked(info, accept, b));
    }
  }

  lemma {:induction false} AddedJoins(info: Id -> Info, a: seq<Id>, b: seq<Id>)
    ensures Added(info, a + b) == Added(info, a) + Added(info, b)
  {
    if a == [] {
      assert a + b == b;
    } else {
      assert (a + b)[1..] == a[1..] + b;
      AddedJoins(info, a[1..], b);
    }
  }

  lemma {:induction false} WithoutMiddle(a: seq<Id>, r: Id, b: seq<Id>)
    requires r !in a
    ensures Without(a + [r] + b, r) == a + b
  {
    var s := a + [r] + b;
    if a == [] {
      assert s[1..] == b && a + b == b;
    } else {
      assert s[1..] == a[1..] + [r] + b;
      WithoutMiddle(a[1..], r, b);
      assert [a[0]] + (a[1..] + b) == a + b;
    }
  }

  function IfTaken(info: Id -> Info, accept: set<Id>, r: Id): seq<Id> {
    if Takes(info, accept, r) then [r] else []
  }

  /** The registry after one receiver has been offered the event. */
  function AfterOffer(g: Registry, info: Id -> Info, k: Key, accept: set<Id>, r: Id): Registry
    requires k in g.groups && g.groups[k] != []
  {
    if Leaves(info, accept, r) then Erase(g, k, r) else g
  }

  ghost predicate AllFresh(slices: seq<Slice<Id>>) {
    forall i :: 0 <= i < |slices| ==> Fresh(slices[i])
  }

  lemma FreshJoins(a: seq<Slice<Id>>, b: seq<Slice<Id>>)
    requires AllFresh(a) && AllFresh(b)
    ensures AllFresh(a + b)
  {
  }

  lemma NoneFresh()
    ensures AllFresh([])
  {
  }

  lemma Shift(done: seq<Id>, todo: seq<Id>)
    requires todo != []
    ensures done + todo == (done + [todo[0]]) + todo[1..]
  {
  }

  lemma Minus(a: multiset<Id>, s: seq<Id>, r: Id)
    ensures a - multiset(s + [r]) == a - multiset(s) - multiset{r}
  {
    assert multiset(s + [r]) == multiset(s) + multiset{r};
  }

  class Manager {
    const info: Id -> Info
    var groups: map<Key, seq<Id>>
    var count: int
    var owned: set<Id>
    var stale: set<Id>
    /** Those that an unfinished clearing has linked into its own list. */
    var held: set<Id>
    var refs: multiset<Id>
    /** The receivers whose on_event has been called outside the lock, in order. */
    var calls: seq<Id>
    var free: seq<Slice<Id>>
    var reuse: bool

    function State(): Registry
      reads this
    {
      Registry(groups, count, owned, stale, held)
    }

    constructor (info: Id -> Info)
      ensures this.info == info && State() == EMPTY && refs == multiset{} && calls == [] && free == [] && reuse
    {
      this.info := info;
      groups, count, owned, stale, held, refs, calls, free, reuse := map[], 0, {}, {}, {}, multiset{}, [], [], true;
    }

    /** _erase: `r` is the node in the map or one that follows it. */
    method Leave(k: Key, r: Id)
      requires k in groups && groups[k] != []
      modifies this`groups, this`count, this`stale
      ensures State() == Erase(old(State()), k, r)
    {
      var s := groups[k];
      if s[0] != r {
        groups := groups[k := Without(s, r)];
      } else if |s| == 1 {
        groups := groups - {k};
      } else {
        groups := groups[k := s[1..]];
        stale := stale + {r};
      }
      count := count - 1;
    }

    /** EM_subscribe. */
    method Sub(r: Id) returns (valid: bool)
      modifies this`groups, this`count, this`owned, this`refs
      ensures var g := Subscribe(old(State()), info, r);
              valid == g.Some? &&
              if valid then State() == g.value && refs == old(refs) + multiset{r} else
                  State() == old(State())
                  && refs == old(refs)
    {
      valid := r !in owned && !HasNode(State(), info, r) && !InRing(State(), info, r);
      if valid {
        var k := info(r).name;
        groups := groups[k := (if k in groups then groups[k] else []) + [r]];
        owned := owned + {r};
        count := count + 1;
        refs := refs + multiset{r};
      }
    }

    /** EM_unsubscribe, a failed assert ending it. A receiver that a clearing holds leaves the clearing's list. */
    method Unsub(r: Id) returns (valid: bool)
      modifies this`groups, this`count, this`stale, this`held, this`refs
      ensures var g := Unsubscribe(old(State()), info, r);
              valid == g.Some? &&
              if valid then State() == g.value && refs == old(refs) - multiset{r} else
                  State() == old(State())
                  && refs == old(refs)
    {
      var k := info(r).name;
      valid := r in owned && (HasNode(State(), info, r) || InRing(State(), info, r)) && k in groups && groups[k] != [];
      if valid {
        var first := groups[k][0];
        valid := first == r || (InRing(State(), info, first) && InRing(State(), info, r) &&
                                HasNode(State(), info, first) && !HasNode(State(), info, r));
        if valid {
          if r in held {
            held, count := held - {r}, count - 1;
          } else {
            Leave(k, r);
          }
          refs := refs - multiset{r};
        }
      }
    }

    /** One receiver of the ring in the locked loop. */
    method Offer(k: Key, r: Id, accept: set<Id>, pool: Pool<Id>)
      requires k in groups && groups[k] != [] && pool.Valid()
      modifies this`groups, this`count, this`stale, this`refs, pool
      ensures pool.Valid() && pool.Contents() == old(pool.Contents()) + IfTaken(info, accept, r)
      ensures State() == AfterOffer(old(State()), info, k, accept, r)
      ensures refs == old(refs) + Added(info, IfTaken(info, accept, r))
    {
      if !info(r).preproc || r in accept {
        if info(r).oneshot {
          Leave(k, r);
        } else {
          refs := refs + multiset{r};
        }
        pool.Push([r]);
      }
    }

    /** The locked part of EM_emit_event. */
    method EmitUnderLock(k: Key, accept: set<Id>, pool: Pool<Id>)
      requires pool.Valid() && pool.Contents() == []
      requires k in groups ==> groups[k] != [] && NoDup(groups[k])
      modifies this`groups, this`count, this`stale, this`refs, pool
      ensures pool.Valid()
      ensures (State(), pool.Contents()) == Emit(old(State()), info, k, accept)
      ensures refs == old(refs) + Added(info, pool.Contents())
    {
      if k !in groups { return; }
      ghost var g := State();
      hide Offered; hide AfterOffer; hide IfTaken; hide Emit; hide Added; hide Shape; hide Items; hide Room; hide NoDup;
      Starts(g, info, k, accept);
      var ring := groups[k];
      for i := 1 to |ring|
        invariant pool.Valid() && Offered(g, info, k, accept, i, State(), pool.Contents())
        invariant refs == old(refs) + Added(info, pool.Contents())
      {
        NextFollower(g, info, k, accept, i, State(), pool.Contents());
        AddedJoins(info, pool.Contents(), IfTaken(info, accept, ring[i]));
        Offer(k, ring[i], accept, pool);
      }
      Leader(g, info, k, accept, State(), pool.Contents());
      AddedJoins(info, pool.Contents(), IfTaken(info, accept, ring[0]));
      Offer(k, ring[0], accept, pool);
    }

    /** One call outside the lock and its release. */
    method CallOne(pool: Pool<Id>) returns (freed: seq<Slice<Id>>)
      requires pool.Valid() && pool.Contents() != []
      modifies this`calls, this`refs, pool
      ensures pool.Valid() && pool.Contents() == old(pool.Contents())[1..]
      ensures var r := old(pool.Contents())[0]; calls == old(calls) + [r] && refs == old(refs) - multiset{r}
      ensures AllFresh(freed)
    {
      pool.HeadHasItem();
      var r := pool.Front();
      calls := calls + [r];
      refs := refs - multiset{r};
      freed := pool.PopFront(1);
    }

    /** The loop over the pool. */
    method CallAll(pool: Pool<Id>) returns (kept: seq<Slice<Id>>)
      requires pool.Valid()
      modifies this`calls, this`refs, pool
      ensures pool.Valid() && pool.Contents() == []
      ensures calls == old(calls) + old(pool.Contents()) && refs == old(refs) - multiset(old(pool.Contents()))
      ensures AllFresh(kept)
    {
      hide Shape; hide Items; hide Room; hide AllFresh;
      kept := [];
      NoneFresh();
      ghost var done: seq<Id> := [];
      while pool.itemCount != 0
        invariant pool.Valid() && done + pool.Contents() == old(pool.Contents())
        invariant calls == old(calls) + done && refs == old(refs) - multiset(done)
        invariant AllFresh(kept)
        decreases |pool.Contents()|
      {
        ghost var was := pool.Contents();
        Shift(done, was);
        Minus(old(refs), done, was[0]);
        var freed := CallOne(pool);
        FreshJoins(kept, freed);
        if reuse {
          kept := kept + freed;
        }
        done := done + [was[0]];
      }
      assert pool.Contents() == [];
    }

    /** The chunk an emission may start with. */
    method Borrow() returns (pool: Pool<Id>)
      requires AllFresh(free)
      modifies this`free
      ensures fresh(pool) && pool.Valid() && pool.Contents() == [] && AllFresh(free)
    {
      pool := new Pool<Id>(128);
      if free != [] {
        pool.Join(free[0]);
        free := free[1..];
      }
    }

    /** The chunks an emission leaves, as new. */
    method Return(pool: Pool<Id>, kept: seq<Slice<Id>>)
      requires pool.Valid() && pool.Contents() == [] && AllFresh(free) && AllFresh(kept)
      modifies this`free, pool
      ensures AllFresh(free)
    {
      if reuse && (kept != [] || pool.slices != []) {
        pool.Reset();
        free := kept + (pool.slices + free);
      }
    }

    /** EM_emit_event, with nobody else in between. Chunks go back to the manager as new. */
    method EmitEvent(k: Key, accept: set<Id>) returns (called: int)
      requires Sound(State(), info) && AllFresh(free)
      modifies this`groups, this`count, this`stale, this`refs, this`calls, this`free
      ensures Sound(State(), info) && AllFresh(free)
      ensures var g := Emit(old(State()), info, k, accept);
              State() == g.0 && called == |g.1| && calls == old(calls) + g.1 &&
              refs == old(refs) + Added(info, g.1) - multiset(g.1)
    {
      hide Emit; hide Sound; hide NoDup; hide Added; hide Shape; hide Items; hide Room; hide AllFresh;
      EmitReady(State(), info, k, accept);
      if k !in groups {
        return 0;
      }
      var pool := Borrow();
      EmitUnderLock(k, accept, pool);
      called := pool.itemCount;
      var kept := CallAll(pool);
      Return(pool, kept);
    }

    /**
      The locked part of EM_clear_sub_map: every follower leaves before its leader,
      and each is linked into the clearing's list as it has left.
     */
    method ClearUnderLock() returns (order: seq<Id>)
      requires Sound(State(), info)
      modifies this`groups, this`count, this`stale, this`held
      ensures State() == Clear(old(State()), info)
      ensures NoDup(order) && SetOf(order) == old(Members(State(), info))
    {
      order := [];
      ghost var g := State();
      ghost var left: Registry := g;
      ClearingStarts(g, info);
      hide Erase; hide Clearing; hide Sound; hide Members; hide SetOf; hide NoDup; hide Clear;
      while groups != map[]
        invariant State() == left.(held := g.held + SetOf(order))
        invariant Clearing(g, info, left, order)
        decreases |Members(left, info)|
      {
        ClearingSound(g, info, left, order);
        var k :| k in groups;
        var s := groups[k];
        var r := if |s| > 1 then s[1] else s[0];
        ClearingTakes(g, info, left, order, k, r);
        EraseHeld(left, held, k, r);
        SetAdds(order, r);
        Leave(k, r);
        order := order + [r];
        held := held + {r};
        left := Erase(left, k, r);
      }
      ClearingEnds(g, info, left, order);
    }

    /** The loop of EM_clear_sub_map over its own list. */
    method ReleaseAll(order: seq<Id>) returns (released: int)
      modifies this`held, this`refs
      ensures held == old(held) - SetOf(order) && refs == old(refs) - multiset(order) && released == |order|
    {
      hide SetOf;
      released := 0;
      FirstReleased(order);
      while released < |order|
        invariant 0 <= released <= |order|
        invariant refs == old(refs) - multiset(order[..released]) && held == old(held) - SetOf(order[..released])
      {
        held := held - {order[released]};
        refs := refs - multiset{order[released]};
        NextReleased(order, released);
        Minus(old(refs), order[..released], order[released]);
        released := released + 1;
      }
      assert order[..released] == order;
    }

    /** EM_clear_sub_map, with nobody else in between: each receiver is released once, and their number is returned. */
    method ClearSubMap() returns (released: int)
      requires Sound(State(), info)
      modifies this`groups, this`count, this`stale, this`held, this`refs
      ensures var members := old(Members(State(), info));
              && State() == Clear(old(State()), info).(held := old(held) - members)
              && released == |members| && refs == old(refs) - multiset(members)
    {
      hide Sound; hide Members; hide NoDup; hide SetOf; hide Clear;
      var order := ClearUnderLock();
      ghost var cleared := State();
      released := ReleaseAll(order);
      HeldBefore(old(State()), info);
      AllReleased(order);
    }
  }

  lemma FirstReleased(all: seq<Id>)
    ensures all[..0] == [] && SetOf(all[..0]) == {}
  {
  }

  lemma NextReleased(all: seq<Id>, n: nat)
    requires n < |all|
    ensures all[..n + 1] == all[..n] + [all[n]] && SetOf(all[..n + 1]) == SetOf(all[..n]) + {all[n]}
  {
  }

  lemma AllReleased(all: seq<Id>)
    requires NoDup(all)
    ensures multiset(all) == multiset(SetOf(all)) && |SetOf(all)| == |all|
  {
    DistinctCount(all);
    hide NoDup;
    forall r ensures multiset(all)[r] == multiset(SetOf(all))[r] {
      DistinctOne(all, r);
    }
  }

  /** What a whole clearing leaves held is what was held before. */
  lemma HeldBefore(g: Registry, info: Id -> Info)
    requires Sound(g, info)
    ensures var h := Clear(g, info); h.(held := h.held - Members(g, info)) == h.(held := g.held - Members(g, info))
  {
  }

  /** A clearing under way: `left` is what the registry would be had the receivers of `order` only left it. */
  ghost predicate Clearing(g: Registry, info: Id -> Info, left: Registry, order: seq<Id>) {
    && Sound(left, info) && Drift(left, info) == Drift(g, info) && NoDup(order)
    && left.stale == g.stale && left.owned == g.owned && left.held == g.held
    && (forall r :: r in Members(g, info) <==> r in Members(left, info) || r in order)
    && (forall r :: r in order ==> r !in Members(left, info))
  }

  lemma ClearingStarts(g: Registry, info: Id -> Info)
    requires Sound(g, info)
    ensures Clearing(g, info, g, []) && g == g.(held := g.held + SetOf([]))
  {
    assert g.held + SetOf([]) == g.held;
  }

  lemma ClearingSound(g: Registry, info: Id -> Info, left: Registry, order: seq<Id>)
    requires Clearing(g, info, left, order)
    ensures left.held == g.held && forall k :: k in left.groups ==> left.groups[k] != []
  {
  }

  lemma EraseHeld(g: Registry, held: set<Id>, k: Key, r: Id)
    requires k in g.groups && g.groups[k] != []
    ensures Erase(g.(held := held), k, r) == Erase(g, k, r).(held := held) && Erase(g, k, r).held == g.held
  {
  }

  lemma SetAdds(s: seq<Id>, r: Id)
    ensures SetOf(s + [r]) == SetOf(s) + {r}
  {
  }

  lemma ClearingTakes(g: Registry, info: Id -> Info, left: Registry, order: seq<Id>, k: Key, r: Id)
    requires Clearing(g, info, left, order) && k in left.groups && left.groups[k] != []
    requires r == if |left.groups[k]| > 1 then left.groups[k][1] else left.groups[k][0]
    ensures Clearing(g, info, Erase(left, k, r), order + [r])
    ensures |Members(Erase(left, k, r), info)| == |Members(left, info)| - 1
  {
    assert Ring(left, info, k);
    RingMember(left, info, k, r);
    EraseKeeps(left, info, r);
    hide Sound; hide Members;
    assert NoDup(order + [r]);
  }

  lemma NobodyIn(g: Registry, info: Id -> Info)
    requires g.groups == map[]
    ensures Members(g, info) == {}
  {
  }

  lemma ClearingEnds(g: Registry, info: Id -> Info, left: Registry, order: seq<Id>)
    requires Clearing(g, info, left, order) && left.groups == map[]
    ensures left.(held := g.held + SetOf(order)) == Clear(g, info) && SetOf(order) == Members(g, info) && NoDup(order)
  {
    NobodyIn(left, info);
    hide Members; hide Sound; hide NoDup;
    forall r ensures r in SetOf(order) <==> r in Members(g, info) {
    }
  }

  lemma EmitReady(g: Registry, info: Id -> Info, k: Key, accept: set<Id>)
    requires Sound(g, info)
    ensures Sound(Emit(g, info, k, accept).0, info)
    ensures if k in g.groups then g.groups[k] != [] && NoDup(g.groups[k])
            else Emit(g, info, k, accept) == (g, []) && Added(info, []) == multiset{}
  {
    EmitKeeps(g, info, k, accept);
    assert Ring(g, info, k);
  }

  /** A receiver of a ring is a member, under its own name. */
  lemma RingMember(g: Registry, info: Id -> Info, k: Key, r: Id)
    requires Sound(g, info) && k in g.groups && r in g.groups[k]
    ensures info(r).name == k && r in Members(g, info)
  {
    assert Ring(g, info, k);
  }

  /** The registry when the followers `seen` have been offered the event and `rest` have not. */
  ghost predicate Halfway(g: Registry, info: Id -> Info, k: Key, accept: set<Id>, seen: seq<Id>, rest: seq<Id>,
      h: Registry) {
    k in g.groups && g.groups[k] != [] &&
    var kept := Kept(info, accept, seen);
    h == g.(groups := g.groups[k := [g.groups[k][0]] + kept + rest], count := g.count - (|seen| - |kept|))
  }

  /** The followers before the i-th have been offered the event, and `told` are those that took it. */
  ghost predicate Offered(g: Registry, info: Id -> Info, k: Key, accept: set<Id>, i: nat, h: Registry, told: seq<Id>) {
    k in g.groups && 1 <= i <= |g.groups[k]| &&
    Halfway(g, info, k, accept, g.groups[k][1..i], g.groups[k][i..], h)
        && told == Picked(info, accept, g.groups[k][1..i])
  }

  lemma {:induction false} KeptOf(info: Id -> Info, accept: set<Id>, s: seq<Id>, r: Id)
    requires r !in s
    ensures r !in Kept(info, accept, s)
  {
    if s != [] {
      KeptOf(info, accept, s[1..], r);
    }
  }

  lemma Before(s: seq<Id>, i: nat)
    requires NoDup(s) && 1 <= i < |s|
    ensures s[i] !in s[1..i] && s[i] != s[0]
    ensures s[1..i + 1] == s[1..i] + [s[i]] && s[i..] == [s[i]] + s[i + 1..]
  {
  }

  lemma Twice(m: map<Key, seq<Id>>, k: Key, x: seq<Id>, y: seq<Id>)
    ensures m[k := x][k := y] == m[k := y] && m[k := x] - {k} == m - {k}
  {
  }

  lemma One(info: Id -> Info, accept: set<Id>, r: Id)
    ensures Kept(info, accept, [r]) == if Leaves(info, accept, r) then [] else [r]
    ensures Picked(info, accept, [r]) == if Takes(info, accept, r) then [r] else []
  {
    assert [r][1..] == [];
  }

  lemma NextFollower(g: Registry, info: Id -> Info, k: Key, accept: set<Id>, i: nat, h: Registry, told: seq<Id>)
    requires Offered(g, info, k, accept, i, h, told) && i < |g.groups[k]| && NoDup(g.groups[k])
    ensures k in h.groups && h.groups[k] != []
    ensures var r := g.groups[k][i];
            Offered(g, info, k, accept, i + 1, AfterOffer(h, info, k, accept, r), told + IfTaken(info, accept, r))
  {
    var s := g.groups[k];
    var r, seen, rest := s[i], s[1..i], s[i + 1..];
    Before(s, i);
    KeptJoins(info, accept, seen, [r]);
    PickedJoins(info, accept, seen, [r]);
    One(info, accept, r);
    KeptOf(info, accept, seen, r);
    var kept := Kept(info, accept, seen);
    RingWithout(s[0], kept, r, rest);
    Twice(g.groups, k, [s[0]] + kept + ([r] + rest), [s[0]] + kept + rest);
    RingShapes(s[0], kept, r, rest);
    hide Kept; hide Picked; hide Leaves; hide Takes; hide Without; hide NoDup;
  }

  lemma RingShapes(first: Id, kept: seq<Id>, r: Id, rest: seq<Id>)
    ensures kept + [] == kept && [first] + (kept + [r]) + rest == [first] + kept + ([r] + rest)
    ensures [first] + kept + ([r] + rest) != [] && ([first] + kept + ([r] + rest))[0] == first
  {
  }

  lemma RingWithout(first: Id, kept: seq<Id>, r: Id, rest: seq<Id>)
    requires r != first && r !in kept
    ensures Without([first] + kept + ([r] + rest), r) == [first] + kept + rest
  {
    var a := [first] + kept;
    assert a + ([r] + rest) == a + [r] + rest;
    WithoutMiddle(a, r, rest);
  }

  lemma Starts(g: Registry, info: Id -> Info, k: Key, accept: set<Id>)
    requires k in g.groups && g.groups[k] != []
    ensures Offered(g, info, k, accept, 1, g, []) && Added(info, []) == multiset{}
  {
    var s := g.groups[k];
    assert s[1..1] == [];
    assert [s[0]] + [] + s[1..] == s;
    assert g.groups[k := s] == g.groups;
  }

  lemma Leader(g: Registry, info: Id -> Info, k: Key, accept: set<Id>, h: Registry, told: seq<Id>)
    requires k in g.groups && g.groups[k] != [] && Offered(g, info, k, accept, |g.groups[k]|, h, told)
    ensures k in h.groups && h.groups[k] != []
    ensures var first := g.groups[k][0];
            (AfterOffer(h, info, k, accept, first), told + IfTaken(info, accept, first)) == Emit(g, info, k, accept)
  {
    var s := g.groups[k];
    var rest := s[1..];
    assert s == [s[0]] + rest && s[1..|s|] == rest;
    PickedJoins(info, accept, rest, [s[0]]);
    KeptJoins(info, accept, [s[0]], rest);
    One(info, accept, s[0]);
    hide Kept; hide Picked; hide Leaves; hide Takes;
    var kept := Kept(info, accept, rest);
    assert [s[0]] + kept + s[|s|..] == [s[0]] + kept;
    assert ([s[0]] + kept)[1..] == kept;
    assert [] + kept == kept;
    Twice(g.groups, k, [s[0]] + kept, kept);
    assert g.stale + {} == g.stale;
  }
}
