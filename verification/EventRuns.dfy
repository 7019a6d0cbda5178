/** ecs/AEvent.cpp under any number of threads. */
module EventRuns {
  // The locked part of an emission or a clearing is one step, as is each subscription and
  // unsubscription; every call and release outside the lock is a step of its own.

  import opened Wrappers
  import opened Events

  /**
    An emission or a clearing past its lock: what it took, whom it has dealt with,
    and whom it still has to. A clearing only releases, and its receivers wait in
    a list that unsubscriptions reach too: `off` are those taken off it.
   */
  datatype Work = Work(emission: bool, taken: seq<Id>, done: seq<Id>, todo: seq<Id>, off: set<Id>)

  /** The registry, the references the event code holds, and all the works there have been. */
  datatype State = State(g: Registry, refs: multiset<Id>, works: seq<Work>)

  datatype Event =
    | Sub(r: Id)
    | Unsub(r: Id)
    | EmitLocked(name: Key, accept: set<Id>)
    | ClearLocked(order: seq<Id>)
    | Deal(work: nat)

  const START := State(EMPTY, multiset{}, [])

  /** The references an emission takes: a one-shot's passes from the registry. */
  function Added(info: Id -> Info, picked: seq<Id>): multiset<Id> {
    if picked == [] then multiset{}
    else (if info(picked[0]).oneshot then multiset{} else multiset{picked[0]}) + Added(info, picked[1..])
  }

  /** The first clearing that still holds a receiver, or the number of works. */
  function Holder(works: seq<Work>, r: Id): (i: nat)
    ensures i <= |works| && (i < |works| ==> Holds(works[i], r))
    ensures forall j :: 0 <= j < i ==> !Holds(works[j], r)
  {
    if works == [] || Holds(works[0], r) then 0 else 1 + Holder(works[1..], r)
  }

  predicate Holds(w: Work, r: Id) { !w.emission && r in w.todo }

  function TakenOff(w: Work, r: Id): Work { w.(todo := Without(w.todo, r), off := w.off + {r}) }

  /** A receiver that an unsubscription unlinks leaves the list of the clearing that holds it. */
  function Unlinked(works: seq<Work>, r: Id): seq<Work> {
    var i := Holder(works, r);
    if i < |works| then works[i := TakenOff(works[i], r)] else works
  }

  /**
    A step, or None when the step is not open to anyone. A failed assert of subscribe or unsubscribe leaves the
    state alone.
   */
  function Next(s: State, info: Id -> Info, e: Event): Option<State> {
    match e
    case Sub(r) =>
      var g := Subscribe(s.g, info, r);
      if g.None? then Some(s) else Some(State(g.value, s.refs + multiset{r}, s.works))
    case Unsub(r) =>
      var g := Unsubscribe(s.g, info, r);
      if g.None? then Some(s) else Some(State(g.value, s.refs - multiset{r}, Unlinked(s.works, r)))
    case EmitLocked(name, accept) =>
      var (g, picked) := Emit(s.g, info, name, accept);
      Some(State(g, s.refs + Added(info, picked), s.works + [Work(true, picked, [], picked, {})]))
    case ClearLocked(order) =>
      if NoDup(order) && SetOf(order) == Members(s.g, info) then
        Some(State(Clear(s.g, info), s.refs, s.works + [Work(false, order, [], order, {})]))
      else None
    case Deal(i) =>
      if i < |s.works| && s.works[i].todo != [] then
        var w := s.works[i];
        var r := w.todo[0];
        Some(State(if w.emission then s.g else s.g.(held := s.g.held - {r}), s.refs - multiset{r},
                   s.works[i := w.(done := w.done + [r], todo := w.todo[1..])]))
      else None
  }

  function Run(s: State, info: Id -> Info, events: seq<Event>): State
    decreases |events|
  {
    if events == [] then s
    else var n := Next(s, info, events[0]); Run(if n.Some? then n.value else s, info, events[1..])
  }

  /** How many steps of a run are mistaken unsubscriptions. */
  function Mistakes(s: State, info: Id -> Info, events: seq<Event>): nat
    decreases |events|
  {
    if events == [] then 0
    else
      var n := Next(s, info, events[0]);
      (if events[0].Unsub? && Mistaken(s.g, info, events[0].r) then 1 else 0) +
      Mistakes(if n.Some? then n.value else s, info, events[1..])
  }

  /** The references waiting to be released. */
  function Waiting(works: seq<Work>): multiset<Id> {
    if works == [] then multiset{} else multiset(works[0].todo) + Waiting(works[1..])
  }

  /** Each subscription holds one reference and each call to come holds one. */
  ghost predicate Conserved(s: State, info: Id -> Info) {
    s.refs == multiset(Members(s.g, info)) + Waiting(s.works)
  }

  /** A row of receivers without some of them. */
  function Rest(s: seq<Id>, off: set<Id>): seq<Id> {
    if s == [] then [] else if s[0] in off then Rest(s[1..], off) else [s[0]] + Rest(s[1..], off)
  }

  /** Those dealt with and those to come are the ones taken, in that order, but for those taken off. */
  ghost predicate InOrder(w: Work) {
    && w.done + w.todo == Rest(w.taken, w.off) && NoDup(w.taken)
    && w.off <= SetOf(w.taken) && (w.emission ==> w.off == {})
  }

  /** The receivers held are those in the lists of the clearings. */
  ghost predicate HeldIsListed(s: State) {
    forall r :: r in s.g.held <==> exists i :: 0 <= i < |s.works| && Holds(s.works[i], r)
  }

  /** Taking a receiver ends its subscription. */
  predicate Ends(info: Id -> Info, w: Work, r: Id) {
    r in w.taken && (info(r).oneshot || !w.emission)
  }

  /** A subscription that has been ended is gone for good. */
  ghost predicate Gone(s: State, info: Id -> Info) {
    forall i, r :: 0 <= i < |s.works| && Ends(info, s.works[i], r) ==> r in s.g.owned && r !in Members(s.g, info)
  }

  /** Whoever takes a receiver later, nobody has ended its subscription. */
  ghost predicate Apart(info: Id -> Info, works: seq<Work>) {
    forall i, j, r :: 0 <= i < j < |works| && Ends(info, works[i], r) ==> r !in works[j].taken
  }

  ghost predicate AllInOrder(works: seq<Work>) {
    forall i :: 0 <= i < |works| ==> InOrder(works[i])
  }

  ghost predicate Inv(s: State, info: Id -> Info) {
    && Sound(s.g, info) && Conserved(s, info) && Gone(s, info) && Apart(info, s.works) && AllInOrder(s.works)
    && HeldIsListed(s)
  }

  lemma {:induction false} WaitingAdds(works: seq<Work>, w: Work)
    ensures Waiting(works + [w]) == Waiting(works) + multiset(w.todo)
  {
    if works == [] {
      assert works + [w] == [w];
    } else {
      assert (works + [w])[1..] == works[1..] + [w];
      WaitingAdds(works[1..], w);
    }
  }

  lemma {:induction false} WaitingDrops(works: seq<Work>, i: nat, r: Id, w: Work)
    requires i < |works| && multiset(works[i].todo) == multiset(w.todo) + multiset{r}
    ensures Waiting(works) == Waiting(works[i := w]) + multiset{r}
    decreases i
  {
    var t, rest := works[i := w], works[1..];
    assert Waiting(t) == multiset(t[0].todo) + Waiting(t[1..]);
    if i == 0 {
      assert t[1..] == rest;
    } else {
      assert t[1..] == rest[i - 1 := w];
      WaitingDrops(rest, i - 1, r, w);
    }
  }

  lemma {:induction false} AddedIs(info: Id -> Info, s: seq<Id>, r: Id)
    ensures Added(info, s)[r] == if info(r).oneshot then 0 else multiset(s)[r]
  {
    if s != [] {
      assert s == [s[0]] + s[1..];
      AddedIs(info, s[1..], r);
    }
  }

  lemma {:induction false} DistinctOne(s: seq<Id>, r: Id)
    requires NoDup(s)
    ensures multiset(s)[r] == if r in s then 1 else 0
  {
    if s != [] {
      var n := |s| - 1;
      assert s == s[..n] + [s[n]];
      DistinctOne(s[..n], r);
    }
  }

  lemma {:induction false} RestIs(s: seq<Id>, off: set<Id>)
    requires NoDup(s)
    ensures NoDup(Rest(s, off)) && forall r :: r in Rest(s, off) <==> r in s && r !in off
  {
    if s != [] {
      assert s == [s[0]] + s[1..];
      Tail(s);
      RestIs(s[1..], off);
      Head(s[0], Rest(s[1..], off)) by { assert s[0] !in Rest(s[1..], off); }
    }
  }

  lemma {:induction false} RestOfAll(s: seq<Id>)
    ensures Rest(s, {}) == s
  {
    if s != [] {
      RestOfAll(s[1..]);
    }
  }

  lemma {:induction false} RestMinus(s: seq<Id>, off: set<Id>, r: Id)
    requires NoDup(s) && r in s && r !in off
    ensures Rest(s, off + {r}) == Without(Rest(s, off), r)
  {
    assert s == [s[0]] + s[1..];
    Tail(s);
    if s[0] == r {
      RestSame(s[1..], off, r);
    } else if s[0] in off {
      RestMinus(s[1..], off, r);
    } else {
      RestMinus(s[1..], off, r);
      assert ([s[0]] + Rest(s[1..], off))[1..] == Rest(s[1..], off);
    }
  }

  lemma {:induction false} RestSame(s: seq<Id>, off: set<Id>, r: Id)
    requires r !in s
    ensures Rest(s, off + {r}) == Rest(s, off)
  {
    if s != [] {
      RestSame(s[1..], off, r);
    }
  }

  lemma {:induction false} WithoutLater(a: seq<Id>, b: seq<Id>, r: Id)
    requires r !in a
    ensures Without(a + b, r) == a + Without(b, r)
  {
    if a == [] {
      assert a + b == b;
    } else {
      JoinParts(a, b);
      ConsJoin(a, Without(b, r));
      WithoutLater(a[1..], b, r);
    }
  }

  lemma JoinParts(a: seq<Id>, b: seq<Id>)
    requires a != []
    ensures a + b != [] && (a + b)[0] == a[0] && (a + b)[1..] == a[1..] + b
  {
  }

  lemma ConsJoin(a: seq<Id>, b: seq<Id>)
    requires a != []
    ensures [a[0]] + (a[1..] + b) == a + b
  {
  }

  lemma {:induction false} WithoutCounts(s: seq<Id>, r: Id)
    requires r in s
    ensures multiset(s) == multiset(Without(s, r)) + multiset{r}
  {
    assert s == [s[0]] + s[1..];
    if s[0] != r {
      WithoutCounts(s[1..], r);
    }
  }

  /** What a work still has to deal with is among what it took, each once. */
  lemma TodoIs(w: Work)
    requires InOrder(w)
    ensures NoDup(w.todo) && forall r :: r in w.todo ==> r in w.taken && r !in w.off && r !in w.done
  {
    RestIs(w.taken, w.off);
    var all := w.done + w.todo;
    assert forall i :: 0 <= i < |w.todo| ==> all[|w.done| + i] == w.todo[i];
    assert forall r :: r in w.todo ==> r in all;
    forall i, j | 0 <= i < |w.done| && 0 <= j < |w.todo| ensures w.done[i] != w.todo[j] {
      assert all[i] != all[|w.done| + j];
    }
  }

  lemma TakenOffInOrder(w: Work, r: Id)
    requires InOrder(w) && Holds(w, r)
    ensures InOrder(TakenOff(w, r)) && multiset(w.todo) == multiset(TakenOff(w, r).todo) + multiset{r}
    ensures forall x :: x in TakenOff(w, r).todo <==> x in w.todo && x != r
  {
    TodoIs(w);
    RestMinus(w.taken, w.off, r);
    WithoutLater(w.done, w.todo, r);
    WithoutCounts(w.todo, r);
    WithoutIs(w.todo, r);
  }

  /** No two clearings hold a receiver. */
  lemma OneHolder(info: Id -> Info, works: seq<Work>, i: nat, j: nat, r: Id)
    requires Apart(info, works) && AllInOrder(works) && i < |works| && j < |works| && i != j
    ensures !Holds(works[i], r) || !Holds(works[j], r)
  {
    TodoIs(works[i]);
    TodoIs(works[j]);
    if i < j {
      assert Holds(works[i], r) ==> Ends(info, works[i], r);
    } else {
      assert Holds(works[j], r) ==> Ends(info, works[j], r);
    }
  }

  /** When a clearing lets go of a receiver, nobody holds it. */
  lemma LetGo(s: State, t: State, info: Id -> Info, i: nat, r: Id)
    requires HeldIsListed(s) && Apart(info, s.works) && AllInOrder(s.works) && i < |s.works| == |t.works|
             && Holds(s.works[i], r)
    requires t.works == s.works[i := t.works[i]] && t.g.held == s.g.held - {r} && !t.works[i].emission
    requires forall x :: x in t.works[i].todo <==> x in s.works[i].todo && x != r
    ensures HeldIsListed(t)
  {
    forall x ensures x in t.g.held <==> exists j :: 0 <= j < |t.works| && Holds(t.works[j], x) {
      if x == r {
        forall j | 0 <= j < |t.works| ensures !Holds(t.works[j], x) {
          if j != i {
            OneHolder(info, s.works, i, j, r);
          }
        }
      } else {
        forall j | 0 <= j < |t.works| ensures Holds(t.works[j], x) <==> Holds(s.works[j], x) {
        }
      }
    }
  }

  /** No receiver whose subscription was ended comes back. */
  lemma GoneStays(s: State, t: State, info: Id -> Info)
    requires Gone(s, info) && t.works == s.works && s.g.owned <= t.g.owned
    requires forall r :: r in Members(t.g, info) ==> r in Members(s.g, info) || r !in s.g.owned
    ensures Gone(t, info)
  {
    hide Members; hide Ends;
  }

  lemma SubKeeps(s: State, info: Id -> Info, r: Id)
    requires Inv(s, info)
    ensures Inv(Next(s, info, Sub(r)).value, info)
  {
    if Subscribe(s.g, info, r).Some? {
      SubscribeKeeps(s.g, info, r);
      SubscribeFails(s.g, info, r);
      var t := Next(s, info, Sub(r)).value;
      hide Members; hide Sound; hide AllInOrder; hide Apart; hide Waiting; hide Holds;
      assert Members(t.g, info) == Members(s.g, info) + {r};
      assert Conserved(t, info);
      assert HeldIsListed(t);
      hide Conserved; hide Gone; hide HeldIsListed;
      GoneStays(s, t, info);
    }
  }

  lemma HeldHasHolder(s: State, r: Id)
    requires HeldIsListed(s)
    ensures r in s.g.held <==> Holder(s.works, r) < |s.works|
  {
    hide Holds;
    if r in s.g.held {
      var i :| 0 <= i < |s.works| && Holds(s.works[i], r);
    }
  }

  lemma UnsubKeeps(s: State, info: Id -> Info, r: Id)
    requires Inv(s, info)
    ensures Inv(Next(s, info, Unsub(r)).value, info)
  {
    hide Members; hide Unsubscribe; hide Holder;
    UnsubscribeFails(s.g, info, r);
    if r in Members(s.g, info) {
      MemberKeeps(s, info, r);
    } else if Mistaken(s.g, info, r) {
      MistakenKeeps(s, info, r);
    }
  }

  lemma MemberKeeps(s: State, info: Id -> Info, r: Id)
    requires Inv(s, info) && r in Members(s.g, info) && Unsubscribe(s.g, info, r).Some?
    ensures Inv(Next(s, info, Unsub(r)).value, info)
  {
    EraseKeeps(s.g, info, r);
    assert Ring(s.g, info, info(r).name);
    HeldHasHolder(s, r);
    var t := Next(s, info, Unsub(r)).value;
    assert t.g == Erase(s.g, info(r).name, r) && t.g.owned == s.g.owned && t.g.held == s.g.held && t.works == s.works;
    hide Members; hide Sound; hide AllInOrder; hide Apart; hide Waiting; hide Erase; hide Unsubscribe; hide Holds;
    assert Members(t.g, info) == Members(s.g, info) - {r};
    assert Conserved(t, info);
    assert HeldIsListed(t);
    hide Conserved; hide Gone; hide HeldIsListed;
    GoneStays(s, t, info);
  }

  /** A mistaken unsubscription drops the reference that the clearing would have dropped. */
  lemma MistakenKeeps(s: State, info: Id -> Info, r: Id)
    requires Inv(s, info) && Mistaken(s.g, info, r) && Unsubscribe(s.g, info, r).Some?
    ensures Inv(Next(s, info, Unsub(r)).value, info)
  {
    MistakenDrifts(s.g, info, r);
    HeldHasHolder(s, r);
    var i, t := Holder(s.works, r), Next(s, info, Unsub(r)).value;
    hide Members; hide Sound; hide Apart; hide Waiting; hide Unsubscribe; hide Holder; hide Gone;
    assert InOrder(s.works[i]);
    TakenOffInOrder(s.works[i], r);
    assert t.works == s.works[i := TakenOff(s.works[i], r)] && t.g.owned == s.g.owned;
    WaitingDrops(s.works, i, r, t.works[i]);
    DealGone(s, t, info, i);
    LetGo(s, t, info, i, r);
    assert AllInOrder(t.works);
    hide AllInOrder; hide InOrder; hide HeldIsListed; hide Mistaken;
    assert s.refs == multiset(Members(s.g, info)) + Waiting(t.works) + multiset{r};
  }

  /** A work that takes members and ends the subscriptions it should. */
  lemma TakesKeep(s: State, t: State, info: Id -> Info, w: Work)
    requires Gone(s, info) && Apart(info, s.works) && AllInOrder(s.works) && InOrder(w)
    requires t.works == s.works + [w] && t.g.owned == s.g.owned
    requires forall r :: r in Members(t.g, info) ==> r in Members(s.g, info)
    requires forall r :: r in w.taken ==> r in Members(s.g, info)
    requires forall r :: Ends(info, w, r) ==> r !in Members(t.g, info)
    ensures Gone(t, info) && Apart(info, t.works) && AllInOrder(t.works)
  {
    forall r | Ends(info, w, r) ensures r in s.g.owned {
      assert r in Members(s.g, info);
    }
    hide Members; hide Ends; hide InOrder;
  }

  lemma EmissionListed(s: State, t: State, w: Work)
    requires HeldIsListed(s) && t.g.held == s.g.held && t.works == s.works + [w] && w.emission
    ensures HeldIsListed(t)
  {
    forall r ensures r in t.g.held <==> exists i :: 0 <= i < |t.works| && Holds(t.works[i], r) {
      assert forall i :: 0 <= i < |s.works| ==> t.works[i] == s.works[i];
      if r in s.g.held {
        var i :| 0 <= i < |s.works| && Holds(s.works[i], r);
        assert Holds(t.works[i], r);
      }
    }
  }

  lemma ClearingListed(s: State, t: State, w: Work)
    requires HeldIsListed(s) && t.works == s.works + [w] && !w.emission && t.g.held == s.g.held + SetOf(w.todo)
    ensures HeldIsListed(t)
  {
    forall r ensures r in t.g.held <==> exists i :: 0 <= i < |t.works| && Holds(t.works[i], r) {
      assert forall i :: 0 <= i < |s.works| ==> t.works[i] == s.works[i];
      if r in s.g.held {
        var i :| 0 <= i < |s.works| && Holds(s.works[i], r);
        assert Holds(t.works[i], r);
      } else if r in w.todo {
        assert Holds(t.works[|s.works|], r);
      }
    }
  }

  /** References after an emission has taken its receivers. */
  lemma EmitConserves(s: State, t: State, info: Id -> Info, picked: seq<Id>)
    requires Conserved(s, info) && NoDup(picked)
    requires forall r :: r in picked ==> r in Members(s.g, info)
    requires forall r :: r in Members(t.g, info) <==> r in Members(s.g, info) && !(r in picked && info(r).oneshot)
    requires t.refs == s.refs + Added(info, picked) && Waiting(t.works) == Waiting(s.works) + multiset(picked)
    ensures Conserved(t, info)
  {
    hide Members; hide Waiting; hide Added;
    forall r ensures t.refs[r] == (multiset(Members(t.g, info)) + Waiting(t.works))[r] {
      AddedIs(info, picked, r);
      DistinctOne(picked, r);
    }
    assert t.refs == multiset(Members(t.g, info)) + Waiting(t.works);
  }

  lemma NewInOrder(emission: bool, taken: seq<Id>)
    requires NoDup(taken)
    ensures InOrder(Work(emission, taken, [], taken, {}))
  {
    RestOfAll(taken);
    assert [] + taken == taken;
  }

  lemma EmitLockedKeeps(s: State, info: Id -> Info, name: Key, accept: set<Id>)
    requires Inv(s, info)
    ensures Inv(Next(s, info, EmitLocked(name, accept)).value, info)
  {
    EmitKeeps(s.g, info, name, accept);
    var picked := Emit(s.g, info, name, accept).1;
    var w := Work(true, picked, [], picked, {});
    var t := Next(s, info, EmitLocked(name, accept)).value;
    assert t.g.owned == s.g.owned && t.g.held == s.g.held && t.works == s.works + [w];
    WaitingAdds(s.works, w);
    MembersSplit(s.g, info, name);
    NewInOrder(true, picked);
    assert forall r :: Ends(info, w, r) <==> r in picked && info(r).oneshot;
    hide Members; hide Emit; hide Sound; hide Waiting; hide Others; hide Takes; hide Gone; hide Apart;
    hide AllInOrder; hide InOrder;
    hide Conserved; hide HeldIsListed; hide Added; hide Ends; hide NoDup;
    TakesKeep(s, t, info, w);
    EmissionListed(s, t, w);
    EmitConserves(s, t, info, picked);
  }

  lemma ClearIs(g: Registry, info: Id -> Info)
    requires Sound(g, info)
    ensures var h := Clear(g, info); Sound(h, info) && Members(h, info) == {} && Drift(h, info) == Drift(g, info)
  {
    var h := Clear(g, info);
    assert Members(h, info) == {};
    assert forall k :: Ring(h, info, k);
    forall r | r in Members(g, info) ensures r !in g.stale {
      assert Ring(g, info, info(r).name);
    }
  }

  lemma ClearConserves(s: State, t: State, info: Id -> Info, order: seq<Id>)
    requires Conserved(s, info) && NoDup(order) && SetOf(order) == Members(s.g, info) && Members(t.g, info) == {}
    requires t.refs == s.refs && Waiting(t.works) == Waiting(s.works) + multiset(order)
    ensures Conserved(t, info)
  {
    assert forall r :: r in order <==> r in SetOf(order);
    hide Members; hide Waiting; hide SetOf;
    forall r ensures t.refs[r] == (multiset(Members(t.g, info)) + Waiting(t.works))[r] {
      DistinctOne(order, r);
    }
    assert t.refs == multiset(Members(t.g, info)) + Waiting(t.works);
  }

  lemma ClearLockedKeeps(s: State, info: Id -> Info, order: seq<Id>)
    requires Inv(s, info) && Next(s, info, ClearLocked(order)).Some?
    ensures Inv(Next(s, info, ClearLocked(order)).value, info)
  {
    var w := Work(false, order, [], order, {});
    var t := Next(s, info, ClearLocked(order)).value;
    ClearIs(s.g, info);
    assert forall r :: r in order <==> r in SetOf(order);
    assert t.g.owned == s.g.owned && t.g.held == s.g.held + SetOf(order);
    WaitingAdds(s.works, w);
    NewInOrder(false, order);
    hide Members; hide Waiting; hide Gone; hide Apart; hide AllInOrder; hide Sound; hide HeldIsListed;
    hide Conserved; hide InOrder;
    hide Ends; hide NoDup; hide SetOf; hide Clear;
    TakesKeep(s, t, info, w);
    ClearingListed(s, t, w);
    ClearConserves(s, t, info, order);
  }

  lemma DealGone(s: State, t: State, info: Id -> Info, i: nat)
    requires i < |s.works| == |t.works| && Gone(s, info) && Apart(info, s.works)
    requires t.g.owned == s.g.owned && Members(t.g, info) == Members(s.g, info)
    requires t.works == s.works[i := t.works[i]]
    requires t.works[i].taken == s.works[i].taken && t.works[i].emission == s.works[i].emission
    ensures Gone(t, info) && Apart(info, t.works)
  {
    assert forall j, r :: 0 <= j < |t.works| ==> Ends(info, t.works[j], r) == Ends(info, s.works[j], r);
    assert forall j :: 0 <= j < |t.works| ==> t.works[j].taken == s.works[j].taken;
    hide Members; hide Ends;
  }

  /** Releasing a receiver that is held leaves the registry as it is. */
  lemma ReleaseKeeps(g: Registry, info: Id -> Info, r: Id)
    requires Sound(g, info)
    ensures var h := g.(held := g.held - {r});
            Sound(h, info) && Members(h, info) == Members(g, info)
            && Drift(h, info) == Drift(g, info)
  {
    var h := g.(held := g.held - {r});
    forall k ensures Ring(h, info, k) {
      assert Ring(g, info, k);
    }
    assert Members(h, info) == Members(g, info);
  }

  lemma DealtInOrder(w: Work)
    requires InOrder(w) && w.todo != []
    ensures var x := w.(done := w.done + [w.todo[0]], todo := w.todo[1..]);
            && InOrder(x) && multiset(w.todo) == multiset(x.todo) + multiset{w.todo[0]}
            && forall r :: r in x.todo <==> r in w.todo && r != w.todo[0]
  {
    var x := w.(done := w.done + [w.todo[0]], todo := w.todo[1..]);
    assert w.todo == [w.todo[0]] + x.todo;
    assert x.done + x.todo == w.done + w.todo;
    TodoIs(w);
    Tail(w.todo);
  }

  lemma DealKeeps(s: State, info: Id -> Info, i: nat)
    requires Inv(s, info) && Next(s, info, Deal(i)).Some?
    ensures Inv(Next(s, info, Deal(i)).value, info)
  {
    hide Members; hide Sound; hide Waiting; hide Apart; hide Gone;
    var t := Next(s, info, Deal(i)).value;
    var w, x := s.works[i], t.works[i];
    var r := w.todo[0];
    assert InOrder(w);
    DealtInOrder(w);
    ReleaseKeeps(s.g, info, r);
    WaitingDrops(s.works, i, r, x);
    DealGone(s, t, info, i);
    if w.emission {
      StillListed(s, t, i);
    } else {
      LetGo(s, t, info, i, r);
    }
    assert AllInOrder(t.works);
    hide AllInOrder; hide InOrder; hide HeldIsListed;
    assert s.refs == multiset(Members(s.g, info)) + Waiting(t.works) + multiset{r};
  }

  lemma StillListed(s: State, t: State, i: nat)
    requires HeldIsListed(s) && t.g == s.g && i < |s.works| == |t.works| && t.works == s.works[i := t.works[i]]
    requires s.works[i].emission && t.works[i].emission
    ensures HeldIsListed(t)
  {
    forall j, r | 0 <= j < |t.works| ensures Holds(t.works[j], r) <==> Holds(s.works[j], r) {
    }
    forall r ensures r in t.g.held <==> exists j :: 0 <= j < |t.works| && Holds(t.works[j], r) {
      hide Holds;
      if r in s.g.held {
        var j :| 0 <= j < |s.works| && Holds(s.works[j], r);
        assert Holds(t.works[j], r);
      }
    }
  }

  lemma StepKeeps(s: State, info: Id -> Info, e: Event)
    requires Inv(s, info) && Next(s, info, e).Some?
    ensures Inv(Next(s, info, e).value, info)
  {
    hide Next; hide Inv;
    match e
    case Sub(r) => SubKeeps(s, info, r);
    case Unsub(r) => UnsubKeeps(s, info, r);
    case EmitLocked(name, accept) => EmitLockedKeeps(s, info, name, accept);
    case ClearLocked(order) => ClearLockedKeeps(s, info, order);
    case Deal(i) => DealKeeps(s, info, i);
  }

  lemma {:induction false} RunKeeps(s: State, info: Id -> Info, events: seq<Event>)
    requires Inv(s, info)
    ensures Inv(Run(s, info, events), info)
    decreases |events|
  {
    hide Next; hide Inv;
    if events != [] {
      var n := Next(s, info, events[0]);
      if n.Some? {
        StepKeeps(s, info, events[0]);
      }
      RunKeeps(if n.Some? then n.value else s, info, events[1..]);
    }
  }

  lemma StartKeeps(info: Id -> Info)
    ensures Inv(START, info) && Drift(EMPTY, info) == 0
  {
    assert Members(EMPTY, info) == {};
    assert forall k :: Ring(EMPTY, info, k);
  }

  /** A step changes how far the count is off only if it is a mistaken unsubscription. */
  lemma StepDrifts(s: State, info: Id -> Info, e: Event)
    requires Inv(s, info) && Next(s, info, e).Some?
    ensures Drift(Next(s, info, e).value.g, info)
         == Drift(s.g, info) - if e.Unsub? && Mistaken(s.g, info, e.r) then 1 else 0
  {
    hide Members; hide Drift; hide Subscribe; hide Unsubscribe; hide Erase; hide Emit; hide Clear; hide Holder;
    hide Waiting; hide Gone;
    hide Apart; hide AllInOrder; hide HeldIsListed; hide Mistaken;
    match e
    case Sub(r) => if Subscribe(s.g, info, r).Some? { SubscribeKeeps(s.g, info, r); }
    case Unsub(r) => UnsubDrifts(s, info, r);
    case EmitLocked(name, accept) => EmitKeeps(s.g, info, name, accept);
    case ClearLocked(order) => ClearIs(s.g, info);
    case Deal(i) => ReleaseKeeps(s.g, info, s.works[i].todo[0]);
  }

  lemma UnsubDrifts(s: State, info: Id -> Info, r: Id)
    requires Inv(s, info)
    ensures Drift(Next(s, info, Unsub(r)).value.g, info) == Drift(s.g, info) - if Mistaken(s.g, info, r) then 1 else 0
  {
    UnsubscribeFails(s.g, info, r);
    assert Ring(s.g, info, info(r).name);
    if r in Members(s.g, info) {
      EraseKeeps(s.g, info, r);
    } else if Mistaken(s.g, info, r) {
      MistakenDrifts(s.g, info, r);
    }
  }

  lemma {:induction false} RunDrifts(s: State, info: Id -> Info, events: seq<Event>)
    requires Inv(s, info)
    ensures Drift(Run(s, info, events).g, info) == Drift(s.g, info) - Mistakes(s, info, events)
    decreases |events|
  {
    hide Next; hide Inv; hide Drift; hide Mistaken;
    if events != [] {
      var n := Next(s, info, events[0]);
      if n.Some? {
        StepKeeps(s, info, events[0]);
        StepDrifts(s, info, events[0]);
      } else {
        UnsubGoes(s, info, events[0]);
      }
      RunDrifts(if n.Some? then n.value else s, info, events[1..]);
    }
  }

  lemma UnsubGoes(s: State, info: Id -> Info, e: Event)
    ensures e.Unsub? ==> Next(s, info, e).Some?
  {
  }

  /**
    In every interleaving each receiver is in the ring of its name once, and the
    count falls short of the number of receivers by the number of mistaken
    unsubscriptions: it is exact if and only if there was none.
   */
  lemma CountIsExact(info: Id -> Info, events: seq<Event>)
    ensures var s := Run(START, info, events);
            && Sound(s.g, info) && s.g.count == |Members(s.g, info)| - Mistakes(START, info, events)
            && (Multimap(s.g, info) <==> Mistakes(START, info, events) == 0)
  {
    StartKeeps(info);
    RunKeeps(START, info, events);
    RunDrifts(START, info, events);
    hide Run; hide Mistakes; hide Sound; hide Members;
  }

  /** A receiver is cleared; before it is released two more of its name subscribe, and it is unsubscribed. */
  const MISTAKE := [Sub(0), ClearLocked([0]), Sub(1), Sub(2), Unsub(0)]

  /** The state after the first n steps of the mistake. */
  function MistakeState(info: Id -> Info, n: nat): State
    requires n <= 5
  {
    var k, w := info(0).name, Work(false, [0], [], [0], {});
    if n == 0 then START
    else if n == 1 then State(Registry(map[k := [0]], 1, {0}, {}, {}), multiset{0}, [])
    else if n == 2 then State(Registry(map[], 0, {0}, {}, {0}), multiset{0}, [w])
    else if n == 3 then State(Registry(map[k := [1]], 1, {0, 1}, {}, {0}), multiset{0, 1}, [w])
    else if n == 4 then State(Registry(map[k := [1, 2]], 2, {0, 1, 2}, {}, {0}), multiset{0, 1, 2}, [w])
    else State(Registry(map[k := [1, 2]], 1, {0, 1, 2}, {}, {}), multiset{1, 2}, [TakenOff(w, 0)])
  }

  /** Then two receivers are subscribed and the count is one. */
  lemma CountGoesWrong(info: Id -> Info)
    requires info(0).name == info(1).name == info(2).name
    ensures var s := Run(START, info, MISTAKE); Members(s.g, info) == {1, 2} && s.g.count == 1
  {
    hide Run; hide Members; hide MistakeState;
    MistakeRuns(info, 5);
    assert MISTAKE[..5] == MISTAKE;
    LastState(info);
    TwoMembers(info, MistakeState(info, 5).g);
  }

  lemma {:induction false} MistakeRuns(info: Id -> Info, n: nat)
    requires n <= 5 && info(0).name == info(1).name == info(2).name
    ensures Run(START, info, MISTAKE[..n]) == MistakeState(info, n)
  {
    hide Next; hide MistakeState;
    if n == 0 {
      StartState(info);
    } else {
      MistakeRuns(info, n - 1);
      MistakeStep(info, n - 1);
      assert MISTAKE[..n] == MISTAKE[..n - 1] + [MISTAKE[n - 1]];
      RunJoins(START, info, MISTAKE[..n - 1], MISTAKE[n - 1]);
    }
  }

  lemma LastState(info: Id -> Info)
    ensures var g := MistakeState(info, 5).g;
            g.owned == {0, 1, 2} && g.groups == map[info(0).name := [1, 2]]
            && g.count == 1
  {
  }

  lemma StartState(info: Id -> Info)
    ensures MistakeState(info, 0) == START
  {
  }

  /** A run and one more step. */
  lemma {:induction false} RunJoins(s: State, info: Id -> Info, events: seq<Event>, e: Event)
    ensures var t := Run(s, info, events);
            Run(s, info, events + [e]) == var n := Next(t, info, e); if n.Some? then n.value else t
    decreases |events|
  {
    hide Next;
    if events == [] {
      assert events + [e] == [e] && [e][1..] == [];
    } else {
      var n := Next(s, info, events[0]);
      assert (events + [e])[1..] == events[1..] + [e];
      RunJoins(if n.Some? then n.value else s, info, events[1..], e);
    }
  }

  lemma MistakeStep(info: Id -> Info, n: nat)
    requires n < 5 && info(0).name == info(1).name == info(2).name
    ensures Next(MistakeState(info, n), info, MISTAKE[n]) == Some(MistakeState(info, n + 1))
  {
    hide Next; hide MistakeState;
    match n
    case 0 => FirstSub(info);
    case 1 => OneClearing(info);
    case 2 => SecondSub(info);
    case 3 => ThirdSub(info);
    case 4 => LastUnsub(info);
  }

  lemma FirstSub(info: Id -> Info)
    ensures Next(MistakeState(info, 0), info, Sub(0)) == Some(MistakeState(info, 1))
  {
    hide Next;
    SubAlone(info, START, 0);
    assert {} + {0} == {0} && multiset{} + multiset{0} == multiset{0};
  }

  lemma OneClearing(info: Id -> Info)
    ensures Next(MistakeState(info, 1), info, ClearLocked([0])) == Some(MistakeState(info, 2))
  {
    hide Next;
    ClearAlone(info, MistakeState(info, 1).g, Work(false, [0], [], [0], {}));
  }

  lemma SecondSub(info: Id -> Info)
    requires info(0).name == info(1).name
    ensures Next(MistakeState(info, 2), info, Sub(1)) == Some(MistakeState(info, 3))
  {
    hide Next;
    SubAlone(info, MistakeState(info, 2), 1);
    assert {0} + {1} == {0, 1} && multiset{0} + multiset{1} == multiset{0, 1};
  }

  lemma ThirdSub(info: Id -> Info)
    requires info(0).name == info(1).name == info(2).name
    ensures Next(MistakeState(info, 3), info, Sub(2)) == Some(MistakeState(info, 4))
  {
    hide Next;
    SubSecond(info, MistakeState(info, 3));
    assert multiset{0, 1} + multiset{2} == multiset{0, 1, 2};
  }

  lemma LastUnsub(info: Id -> Info)
    requires info(0).name == info(1).name
    ensures Next(MistakeState(info, 4), info, Unsub(0)) == Some(MistakeState(info, 5))
  {
    hide Next; hide TakenOff;
    UnsubHeld(info, MistakeState(info, 4), Work(false, [0], [], [0], {}));
    assert multiset{0, 1, 2} - multiset{0} == multiset{1, 2};
  }

  lemma TwoMembers(info: Id -> Info, g: Registry)
    requires info(0).name == info(1).name == info(2).name && g.owned == {0, 1, 2}
             && g.groups == map[info(0).name := [1, 2]]
    ensures Members(g, info) == {1, 2}
  {
    assert 1 in [1, 2] && 2 in [1, 2] && 0 !in [1, 2];
    forall r ensures r in Members(g, info) <==> r in {1, 2} {
    }
  }

  /** The first receiver of a name. */
  lemma SubAlone(info: Id -> Info, s: State, r: Id)
    requires s.g.groups == map[] && r !in s.g.owned && r !in s.g.stale && r !in s.g.held
    ensures Next(s, info, Sub(r))
            == Some(State(Registry(map[info(r).name := [r]], s.g.count + 1, s.g.owned + {r}, s.g.stale, s.g.held),
                                                s.refs + multiset{r}, s.works))
  {
    assert [] + [r] == [r];
  }

  lemma ClearAlone(info: Id -> Info, g: Registry, w: Work)
    requires g == Registry(map[info(0).name := [0]], 1, {0}, {}, {}) && w == Work(false, [0], [], [0], {})
    ensures Next(State(g, multiset{0}, []), info, ClearLocked([0]))
         == Some(State(Registry(map[], 0, {0}, {}, {0}), multiset{0}, [w]))
  {
    assert Members(g, info) == {0};
    assert SetOf([0]) == {0} && NoDup([0]);
    assert {} + {0} == {0};
    assert Clear(g, info) == Registry(map[], 0, {0}, {}, {0});
    assert [] + [w] == [w];
  }

  lemma SubSecond(info: Id -> Info, s: State)
    requires info(1).name == info(2).name && s.g == Registry(map[info(1).name := [1]], 1, {0, 1}, {}, {0})
    ensures Next(s, info, Sub(2)) == Some(State(Registry(map[info(1).name := [1, 2]], 2, {0, 1, 2}, {}, {0}),
                                                s.refs + multiset{2}, s.works))
  {
    var k := info(1).name;
    assert [1] + [2] == [1, 2];
    assert {0, 1} + {2} == {0, 1, 2};
    assert map[k := [1]][k := [1, 2]] == map[k := [1, 2]];
    assert Subscribe(s.g, info, 2) == Some(Registry(map[k := [1, 2]], 2, {0, 1, 2}, {}, {0}));
  }

  lemma UnsubHeld(info: Id -> Info, s: State, w: Work)
    requires w == Work(false, [0], [], [0], {}) && s.works == [w]
    requires s.g == Registry(map[info(0).name := [1, 2]], 2, {0, 1, 2}, {}, {0}) && info(1).name == info(0).name
    ensures Next(s, info, Unsub(0)) == Some(State(Registry(map[info(0).name := [1, 2]], 1, {0, 1, 2}, {}, {}),
                                                  s.refs - multiset{0}, [TakenOff(w, 0)]))
  {
    assert {0} - {0} == {};
    assert Holder([w], 0) == 0;
    assert Unsubscribe(s.g, info, 0) == Some(Registry(map[info(0).name := [1, 2]], 1, {0, 1, 2}, {}, {}));
    assert [w][0 := TakenOff(w, 0)] == [TakenOff(w, 0)];
  }

  /**
    References are conserved: one for each subscription and one for each call or release to come, so none is
    dropped early.
   */
  lemma ReferencesConserved(info: Id -> Info, events: seq<Event>)
    ensures var s := Run(START, info, events); s.refs == multiset(Members(s.g, info)) + Waiting(s.works)
  {
    StartKeeps(info);
    RunKeeps(START, info, events);
    hide Run;
  }

  /**
    An emission calls each receiver it took once and in order. A clearing releases
    each one once and in order, except those that mistaken unsubscriptions have
    taken off its list, which it never sees; it returns how many it released.
   */
  lemma DealtOnce(info: Id -> Info, events: seq<Event>, i: nat)
    ensures var s := Run(START, info, events);
            i < |s.works| ==>
              var w := s.works[i];
              && NoDup(w.taken) && w.off <= SetOf(w.taken) && (w.emission ==> w.off == {})
              && w.done + w.todo == Rest(w.taken, w.off)
              && |w.done| + |w.todo| + |w.off| == |w.taken|
              && (w.off == {} ==> w.done <= w.taken && (w.todo == [] ==> w.done == w.taken))
  {
    StartKeeps(info);
    RunKeeps(START, info, events);
    var s := Run(START, info, events);
    hide Run;
    if i < |s.works| {
      var w := s.works[i];
      assert InOrder(w);
      RestLength(w.taken, w.off);
      if w.off == {} {
        RestOfAll(w.taken);
      }
    }
  }

  lemma {:induction false} RestLength(s: seq<Id>, off: set<Id>)
    requires NoDup(s) && off <= SetOf(s)
    ensures |Rest(s, off)| + |off| == |s|
  {
    if s != [] {
      var r, t := s[0], s[1..];
      Tail(s);
      FirstOff(s, off);
      RestLength(t, off - {r});
      if r in off {
        RestSame(t, off - {r}, r);
      }
    }
  }

  lemma FirstOff(s: seq<Id>, off: set<Id>)
    requires s != [] && off <= SetOf(s)
    ensures off - {s[0]} <= SetOf(s[1..])
    ensures if s[0] in off then off - {s[0]} + {s[0]} == off && |off - {s[0]}| == |off| - 1 else off - {s[0]} == off
  {
    assert s == [s[0]] + s[1..];
  }

  /** A one-shot is called by at most one emission of the whole run, and nobody is called after a clearing took it. */
  lemma OneShotOnce(info: Id -> Info, events: seq<Event>, i: nat, j: nat, r: Id)
    ensures var s := Run(START, info, events);
            i < j < |s.works| && r in s.works[i].taken && r in s.works[j].taken ==>
              !info(r).oneshot && s.works[i].emission
  {
    StartKeeps(info);
    RunKeeps(START, info, events);
    var s := Run(START, info, events);
    hide Run;
    if i < j < |s.works| && Ends(info, s.works[i], r) {
      assert r !in s.works[j].taken;
    }
  }
}
