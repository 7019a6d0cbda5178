/** ecs/AEvent.cpp with name keys: the registry of receivers and what each operation does to it. */
module Events {
  import opened Wrappers

  type Id = nat
  type Key = string

  /** The fields of a receiver that stay as they are while it is subscribed. */
  datatype Info = Info(name: Key, oneshot: bool, preproc: bool)

  /**
    The registry. A group is the ring of one name, the node in the map first.
    `owned` are the receivers whose _manager is set, which nothing clears;
    `stale` are those whose _map_node is not cleared though they have left; `held`
    are those that a clearing has linked into a list of its own and not yet released.
   */
  datatype Registry = Registry(groups: map<Key, seq<Id>>, count: int, owned: set<Id>, stale: set<Id>, held: set<Id>)

  const EMPTY := Registry(map[], 0, {}, {}, {})

  predicate NoDup(s: seq<Id>) {
    forall i, j :: 0 <= i < j < |s| ==> s[i] != s[j]
  }

  predicate Linked(g: Registry, info: Id -> Info, r: Id) {
    info(r).name in g.groups && r in g.groups[info(r).name]
  }

  /** The receivers that are subscribed. */
  function Members(g: Registry, info: Id -> Info): set<Id> {
    set r | r in g.owned && Linked(g, info, r)
  }

  /** The receivers of one name. */
  function Group(g: Registry, k: Key): seq<Id> {
    if k in g.groups then g.groups[k] else []
  }

  /** A group is a ring of distinct receivers of its name that have not left. */
  ghost predicate Ring(g: Registry, info: Id -> Info, k: Key) {
    NoDup(Group(g, k)) && forall r :: r in Group(g, k) ==>
        info(r).name == k && r in g.owned && r !in g.stale
        && r !in g.held
  }

  /** A multimap from names to receivers, with its count. */
  ghost predicate Multimap(g: Registry, info: Id -> Info) {
    Sound(g, info) && Drift(g, info) == 0
  }

  /** By how much the count is off. */
  function Drift(g: Registry, info: Id -> Info): int {
    g.count - |Members(g, info)|
  }

  ghost predicate Sound(g: Registry, info: Id -> Info) {
    && (forall k :: k in g.groups ==> g.groups[k] != []) && (forall k :: Ring(g, info, k))
    && g.stale <= g.owned && g.held <= g.owned && g.stale !! g.held
  }

  /** RB_EMPTY_NODE and empty() of a receiver, both negated. */
  predicate HasNode(g: Registry, info: Id -> Info, r: Id) {
    r in g.stale || (Linked(g, info, r) && g.groups[info(r).name][0] == r)
  }

  predicate InRing(g: Registry, info: Id -> Info, r: Id) {
    (Linked(g, info, r) && |g.groups[info(r).name]| > 1) || r in g.held
  }

  /**
    An unsubscription of this receiver would pass every check of EM_unsubscribe
    though a clearing has ended the subscription: the clearing still holds it, and
    at least two others are subscribed under its name.
   */
  predicate Mistaken(g: Registry, info: Id -> Info, r: Id) {
    r in g.held && |Group(g, info(r).name)| >= 2
  }

  function Without(s: seq<Id>, r: Id): seq<Id> {
    if s == [] then [] else if s[0] == r then s[1..] else [s[0]] + Without(s[1..], r)
  }

  /** _erase: a follower leaves the ring, the last receiver leaves the map, and a leader hands its node on. */
  function Erase(g: Registry, k: Key, r: Id): Registry
    requires k in g.groups && g.groups[k] != []
  {
    var s := g.groups[k];
    if s[0] != r then g.(groups := g.groups[k := Without(s, r)], count := g.count - 1)
    else if |s| == 1 then g.(groups := g.groups - {k}, count := g.count - 1)
    else g.(groups := g.groups[k := s[1..]], count := g.count - 1, stale := g.stale + {r})
  }

  /** EM_subscribe. None is a failed assert. */
  function Subscribe(g: Registry, info: Id -> Info, r: Id): Option<Registry> {
    if r in g.owned || HasNode(g, info, r) || InRing(g, info, r) then None
    else
      var k := info(r).name;
      var s := if k in g.groups then g.groups[k] else [];
      Some(Registry(g.groups[k := s + [r]], g.count + 1, g.owned + {r}, g.stale, g.held))
  }

  /** EM_unsubscribe with the asserts of _erase. A receiver that a clearing holds leaves that clearing's list. */
  function Unsubscribe(g: Registry, info: Id -> Info, r: Id): Option<Registry> {
    var k := info(r).name;
    if r !in g.owned || !(HasNode(g, info, r) || InRing(g, info, r)) then None
    else if k !in g.groups || g.groups[k] == [] then None
    else
      var first := g.groups[k][0];
      if first != r && !(InRing(g, info, first) && InRing(g, info, r) && HasNode(g, info, first)
          && !HasNode(g, info, r))
      then None
      else if r in g.held then Some(g.(held := g.held - {r}, count := g.count - 1))
      else Some(Erase(g, k, r))
  }

  /** The receiver is called by this emission. */
  predicate Takes(info: Id -> Info, accept: set<Id>, r: Id) {
    info(r).preproc ==> r in accept
  }

  /** Those of some receivers that are called. */
  function Picked(info: Id -> Info, accept: set<Id>, s: seq<Id>): seq<Id> {
    if s == [] then [] else (if Takes(info, accept, s[0]) then [s[0]] else []) + Picked(info, accept, s[1..])
  }

  /** A receiver that is called once leaves with the call. */
  predicate Leaves(info: Id -> Info, accept: set<Id>, r: Id) {
    Takes(info, accept, r) && info(r).oneshot
  }

  /** Those of some receivers that stay. */
  function Kept(info: Id -> Info, accept: set<Id>, s: seq<Id>): seq<Id> {
    if s == [] then [] else (if Leaves(info, accept, s[0]) then [] else [s[0]]) + Kept(info, accept, s[1..])
  }

  /** The order of an emission: round the ring, the node in the map last. */
  function Order(s: seq<Id>): seq<Id> {
    if s == [] then [] else s[1..] + [s[0]]
  }

  /** What the locked part of EM_emit_event does: the registry after it and the receivers to call, in order. */
  function Emit(g: Registry, info: Id -> Info, k: Key, accept: set<Id>): (Registry, seq<Id>) {
    if k !in g.groups || g.groups[k] == [] then (g, [])
    else
      var s := g.groups[k];
      var rest := Kept(info, accept, s);
      var stale := if rest != [] && Leaves(info, accept, s[0]) then {s[0]} else {};
      (g.(groups := if rest == [] then g.groups - {k} else g.groups[k := rest], count := g.count - (|s| - |rest|),
          stale := g.stale + stale),
       Picked(info, accept, Order(s)))
  }

  /**
    The locked part of EM_clear_sub_map: nobody is left, no leader hands its node on, and the clearing holds them
    all.
   */
  function Clear(g: Registry, info: Id -> Info): Registry {
    Registry(map[], Drift(g, info), g.owned, g.stale, g.held + Members(g, info))
  }

  lemma {:induction false} WithoutIs(s: seq<Id>, r: Id)
    requires NoDup(s) && r in s
    ensures NoDup(Without(s, r)) && |Without(s, r)| == |s| - 1
    ensures forall x :: x in Without(s, r) <==> x in s && x != r
    ensures s[0] != r ==> Without(s, r) != [] && Without(s, r)[0] == s[0]
  {
    var rest := s[1..];
    assert s == [s[0]] + rest;
    Tail(s);
    if s[0] != r {
      WithoutIs(rest, r);
      Head(s[0], Without(rest, r));
    }
  }

  lemma Tail(s: seq<Id>)
    requires NoDup(s) && s != []
    ensures NoDup(s[1..]) && s[0] !in s[1..]
  {
  }

  lemma Head(r: Id, s: seq<Id>)
    requires NoDup(s) && r !in s
    ensures NoDup([r] + s)
  {
  }

  lemma {:induction false} KeptIs(info: Id -> Info, accept: set<Id>, s: seq<Id>)
    requires NoDup(s)
    ensures var t := Kept(info, accept, s); NoDup(t) && forall r :: r in t <==> r in s && !Leaves(info, accept, r)
  {
    if s != [] {
      assert s == [s[0]] + s[1..];
      Tail(s);
      hide Leaves;
      KeptIs(info, accept, s[1..]);
      var t := Kept(info, accept, s[1..]);
      assert s[0] !in t;
      Head(s[0], t);
    }
  }

  lemma {:induction false} PickedIs(info: Id -> Info, accept: set<Id>, s: seq<Id>)
    requires NoDup(s)
    ensures var t := Picked(info, accept, s); NoDup(t) && forall r :: r in t <==> r in s && Takes(info, accept, r)
  {
    if s != [] {
      assert s == [s[0]] + s[1..];
      Tail(s);
      hide Takes;
      PickedIs(info, accept, s[1..]);
      var t := Picked(info, accept, s[1..]);
      assert s[0] !in t;
      Head(s[0], t);
    }
  }

  function SetOf(s: seq<Id>): set<Id> {
    set r | r in s
  }

  lemma {:induction false} DistinctCount(s: seq<Id>)
    requires NoDup(s)
    ensures |SetOf(s)| == |s|
  {
    if s != [] {
      var n := |s| - 1;
      DistinctCount(s[..n]);
      assert SetOf(s) == SetOf(s[..n]) + {s[n]};
    }
  }

  function Others(g: Registry, info: Id -> Info, k: Key): set<Id> {
    set r | r in Members(g, info) && info(r).name != k
  }

  /** The members are those of a group and the others. */
  lemma MembersSplit(g: Registry, info: Id -> Info, k: Key)
    requires Sound(g, info)
    ensures forall r :: r in Members(g, info) <==> r in Others(g, info, k) || r in Group(g, k)
    ensures |Members(g, info)| == |Others(g, info, k)| + |Group(g, k)|
  {
    assert Ring(g, info, k);
    DistinctCount(Group(g, k));
    var s := SetOf(Group(g, k));
    assert Members(g, info) == Others(g, info, k) + s;
    assert Others(g, info, k) * s == {};
  }

  /** Nothing but one group changes, and receivers that are not in any group. */
  lemma Regroup(g: Registry, h: Registry, info: Id -> Info, k: Key)
    requires Sound(g, info) && Ring(h, info, k) && (k in h.groups ==> h.groups[k] != [])
    requires forall x :: x != k ==> (x in g.groups <==> x in h.groups) && Group(g, x) == Group(h, x)
    requires g.owned <= h.owned && h.stale <= h.owned && h.held <= g.held && h.stale !! h.held
    requires forall r :: r in h.stale && r !in g.stale ==> info(r).name == k
    ensures Sound(h, info) && Others(h, info, k) == Others(g, info, k)
  {
    forall x ensures Ring(h, info, x) {
      assert Ring(g, info, x);
    }
    forall r | info(r).name != k ensures r in Members(h, info) <==> r in Members(g, info) {
      assert Ring(g, info, info(r).name);
      assert Group(g, info(r).name) == Group(h, info(r).name);
    }
  }

  /** A subscription fails exactly when the receiver has been subscribed before. */
  lemma SubscribeFails(g: Registry, info: Id -> Info, r: Id)
    requires Sound(g, info)
    ensures Subscribe(g, info, r).None? <==> r in g.owned
  {
    assert Ring(g, info, info(r).name);
  }

  /**
    An unsubscription fails exactly when the receiver is not subscribed, stale nodes
    or not, and is not taken for a subscribed one either.
   */
  lemma UnsubscribeFails(g: Registry, info: Id -> Info, r: Id)
    requires Sound(g, info)
    ensures Unsubscribe(g, info, r).None? <==> r !in Members(g, info) && !Mistaken(g, info, r)
  {
    var k := info(r).name;
    assert Ring(g, info, k);
    if r in Members(g, info) {
      var s := g.groups[k];
      var i :| 0 <= i < |s| && s[i] == r;
      assert s[0] in s;
    } else if Mistaken(g, info, r) {
      assert g.groups[k][0] in g.groups[k];
    }
  }

  /** A mistaken unsubscription takes one off the count, and nobody out of the registry. */
  lemma MistakenDrifts(g: Registry, info: Id -> Info, r: Id)
    requires Sound(g, info) && Mistaken(g, info, r)
    ensures Unsubscribe(g, info, r) == Some(g.(held := g.held - {r}, count := g.count - 1))
    ensures var h := Unsubscribe(g, info, r).value;
            Sound(h, info) && Members(h, info) == Members(g, info) && Drift(h, info) == Drift(g, info) - 1
  {
    UnsubscribeFails(g, info, r);
    var h := Unsubscribe(g, info, r).value;
    forall k ensures Ring(h, info, k) {
      assert Ring(g, info, k);
    }
    assert Members(h, info) == Members(g, info);
  }

  lemma SubscribeKeeps(g: Registry, info: Id -> Info, r: Id)
    requires Sound(g, info) && Subscribe(g, info, r).Some?
    ensures var h := Subscribe(g, info, r).value;
            && Sound(h, info) && Drift(h, info) == Drift(g, info) && r !in Members(g, info)
            && forall x :: x in Members(h, info) <==> x == r || x in Members(g, info)
  {
    var k, h := info(r).name, Subscribe(g, info, r).value;
    assert Ring(g, info, k);
    hide Members; hide Others;
    Regroup(g, h, info, k);
    MembersSplit(g, info, k);
    MembersSplit(h, info, k);
    assert r !in Others(g, info, k) by { NotOther(g, info, k, r); }
  }

  lemma NotOther(g: Registry, info: Id -> Info, k: Key, r: Id)
    requires info(r).name == k
    ensures r !in Others(g, info, k)
  {
  }

  lemma EraseKeeps(g: Registry, info: Id -> Info, r: Id)
    requires Sound(g, info) && r in Group(g, info(r).name)
    ensures var h := Erase(g, info(r).name, r);
            && Sound(h, info) && Drift(h, info) == Drift(g, info)
            && forall x :: x in Members(h, info) <==> x != r && x in Members(g, info)
  {
    var k := info(r).name;
    var s, h := g.groups[k], Erase(g, k, r);
    assert Ring(g, info, k);
    WithoutIs(s, r);
    NotOther(g, info, k, r);
    hide Members; hide Others;
    assert Ring(h, info, k);
    Regroup(g, h, info, k);
    MembersSplit(g, info, k);
    MembersSplit(h, info, k);
  }

  lemma OrderIs(s: seq<Id>)
    requires NoDup(s)
    ensures NoDup(Order(s)) && forall r :: r in Order(s) <==> r in s
  {
    if s != [] {
      assert s == [s[0]] + s[1..];
    }
  }

  /** Those called are the receivers of the name that take the event, each once; the one-shots among them leave. */
  lemma EmitKeeps(g: Registry, info: Id -> Info, k: Key, accept: set<Id>)
    requires Sound(g, info)
    ensures var h := Emit(g, info, k, accept).0; var picked := Emit(g, info, k, accept).1;
            && Sound(h, info) && Drift(h, info) == Drift(g, info) && NoDup(picked)
            && (forall r :: r in picked <==> r in Group(g, k) && Takes(info, accept, r))
            && (forall r :: r in Members(h, info) <==> r in Members(g, info) && !(r in picked && info(r).oneshot))
  {
    if k in g.groups {
      var s, h := g.groups[k], Emit(g, info, k, accept).0;
      assert Ring(g, info, k);
      OrderIs(s);
      PickedIs(info, accept, Order(s));
      KeptIs(info, accept, s);
      hide Members; hide Others; hide Kept; hide Picked;
      assert Ring(h, info, k);
      Regroup(g, h, info, k);
      MembersSplit(g, info, k);
      MembersSplit(h, info, k);
    }
  }
}
