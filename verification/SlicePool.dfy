/** base/buf_util.h: APool, the chunked queue that an emission collects its receivers in. */
module SlicePool {
  import opened Wrappers

  /** ASlice: `items` is what lies between _bgn and _end. Chunks are not shared, so they are values. */
  datatype Slice<T> = Slice(size: nat, bgn: nat, items: seq<T>) {
    function Left(): int {
      size - bgn - |items|
    }

    function Reset(): Slice<T> {
      Slice(size, 0, [])
    }
  }

  predicate Fresh<T(==)>(s: Slice<T>) {
    s.size > 0 && s.bgn == 0 && s.items == []
  }

  function Items<T>(slices: seq<Slice<T>>): seq<T> {
    if slices == [] then [] else slices[0].items + Items(slices[1..])
  }

  function Room<T>(slices: seq<Slice<T>>): int {
    if slices == [] then 0 else slices[0].Left() + Room(slices[1..])
  }

  lemma {:induction false} Splits<T>(a: seq<Slice<T>>, b: seq<Slice<T>>)
    ensures Items(a + b) == Items(a) + Items(b) && Room(a + b) == Room(a) + Room(b)
  {
    if a == [] {
      assert a + b == b;
    } else {
      assert (a + b)[1..] == a[1..] + b;
      Splits(a[1..], b);
    }
  }

  lemma SplitsAt<T>(slices: seq<Slice<T>>, p: nat, s: Slice<T>)
    requires p < |slices|
    ensures Items(slices[p := s]) == Items(slices[..p]) + s.items + Items(slices[p + 1..])
    ensures Room(slices[p := s]) == Room(slices[..p]) + s.Left() + Room(slices[p + 1..])
  {
    var t := slices[p := s];
    assert t == slices[..p] + ([s] + slices[p + 1..]);
    Splits(slices[..p], [s] + slices[p + 1..]);
    assert ([s] + slices[p + 1..])[1..] == slices[p + 1..];
  }

  lemma {:induction false} NoItems<T>(slices: seq<Slice<T>>)
    requires forall i :: 0 <= i < |slices| ==> slices[i].items == []
    ensures Items(slices) == []
  {
    if slices != [] {
      NoItems(slices[1..]);
    }
  }

  lemma {:induction false} NoRoom<T>(slices: seq<Slice<T>>)
    requires forall i :: 0 <= i < |slices| ==> slices[i].Left() == 0
    ensures Room(slices) == 0
  {
    if slices != [] {
      NoRoom(slices[1..]);
    }
  }

  /** Full chunks with items, then the chunk being filled, then chunks never used. */
  ghost predicate Shape<T>(slices: seq<Slice<T>>, push: Option<nat>) {
    var p := if push.Some? then push.value else |slices|;
    (push.Some? ==> p < |slices| && slices[p].Left() > 0) &&
    (forall i :: 0 <= i < |slices| && i < p ==> slices[i].Left() == 0 && slices[i].items != []) &&
    (forall i :: p < i < |slices| ==> Fresh(slices[i]))
  }

  lemma ShapeRoom<T>(slices: seq<Slice<T>>, push: Option<nat>)
    requires Shape(slices, push)
    ensures push.None? ==> Room(slices) == 0
    ensures push.Some? ==> Items(slices) == Items(slices[..push.value]) + slices[push.value].items
  {
    if push.None? {
      NoRoom(slices);
    } else {
      var p := push.value;
      SplitsAt(slices, p, slices[p]);
      NoItems(slices[p + 1..]);
      assert slices[p := slices[p]] == slices;
    }
  }

  /** A pool without items has only the chunk being filled and chunks never used. */
  lemma EmptyShape<T>(slices: seq<Slice<T>>, push: Option<nat>)
    requires Shape(slices, push) && Items(slices) == []
    ensures slices == [] || push == Some(0)
  {
    if slices != [] {
      assert |slices[0].items| <= |Items(slices)|;
    }
  }

  /** Items put into the chunk being filled come after all others. */
  lemma FillKeeps<T>(slices: seq<Slice<T>>, p: nat, t: Slice<T>, items: seq<T>)
    requires p < |slices| && Shape(slices, Some(p)) && 0 < |items| <= slices[p].Left()
    requires t == Slice(slices[p].size, slices[p].bgn, slices[p].items + items)
    ensures var next := slices[p := t];
            Items(next) == Items(slices) + items && Room(next) == Room(slices) - |items| &&
            Shape(next, if t.Left() > 0 then Some(p) else if p == |slices| - 1 then None else Some(p + 1))
  {
    SplitsAt(slices, p, slices[p]);
    SplitsAt(slices, p, t);
    assert slices[p := slices[p]] == slices;
    NoItems(slices[p + 1..]);
  }

  class Pool<T(==)> {
    var slices: seq<Slice<T>>
    var push: Option<nat>
    var sliceCount: int
    var itemCount: int
    var itemLeft: int
    const chunk: nat

    ghost predicate Valid()
      reads this
    {
      chunk > 0 && Shape(slices, push) &&
      sliceCount == |slices| && itemCount == |Items(slices)| && itemLeft == Room(slices)
    }

    ghost function Contents(): seq<T>
      reads this
    {
      Items(slices)
    }

    /** init, with the default chunk for zero. */
    constructor (chunk: nat)
      ensures Valid() && Contents() == [] && slices == [] && (chunk > 0 ==> this.chunk == chunk)
    {
      slices, push, sliceCount, itemCount, itemLeft := [], None, 0, 0, 0;
      this.chunk := if chunk > 0 then chunk else 512;
    }

    /** _join of a chunk that has just been made or reset. */
    method Join(s: Slice<T>)
      requires Valid() && Fresh(s)
      modifies this
      ensures Valid() && Contents() == old(Contents()) && slices == old(slices) + [s]
              && itemLeft == old(itemLeft) + s.size
    {
      Splits(slices, [s]);
      ShapeRoom(slices, push);
      slices := slices + [s];
      if push.None? && s.Left() != 0 {
        push := Some(|slices| - 1);
      }
      sliceCount := sliceCount + 1;
      itemCount := itemCount + |s.items|;
      itemLeft := itemLeft + s.Left();
    }

    method Reserve(count: nat)
      requires Valid()
      modifies this
      ensures Valid() && Contents() == old(Contents()) && itemLeft >= count
    {
      while count > itemLeft
        invariant Valid() && Contents() == old(Contents())
        decreases count - itemLeft
      {
        Join(Slice(chunk, 0, []));
      }
    }

    /** mempush into the chunk being filled, then _move_push. */
    method Fill(items: seq<T>)
      requires Valid() && push.Some? && 0 < |items| <= slices[push.value].Left()
      modifies this
      ensures Valid() && Contents() == old(Contents()) + items && itemLeft == old(itemLeft) - |items|
    {
      var p := push.value;
      var s := slices[p];
      var t := Slice(s.size, s.bgn, s.items + items);
      FillKeeps(slices, p, t, items);
      hide Shape; hide Items; hide Room;
      slices := slices[p := t];
      if t.Left() == 0 {
        push := if p == |slices| - 1 then None else Some(p + 1);
      }
      itemCount := itemCount + |items|;
      itemLeft := itemLeft - |items|;
    }

    method Push(items: seq<T>)
      requires Valid()
      modifies this
      ensures Valid() && Contents() == old(Contents()) + items
    {
      Reserve(|items|);
      var i := 0;
      while i < |items|
        invariant 0 <= i <= |items| && Valid() && itemLeft >= |items| - i
        invariant Contents() == old(Contents()) + items[..i]
      {
        ShapeRoom(slices, push);
        var left := slices[push.value].Left();
        var n := if |items| - i < left then |items| - i else left;
        Fill(items[i..i + n]);
        assert items[..i + n] == items[..i] + items[i..i + n];
        i := i + n;
      }
      assert items[..|items|] == items;
    }

    /** The head chunk has an item when the pool has one. */
    lemma HeadHasItem()
      requires Valid() && itemCount != 0
      ensures slices != [] && slices[0].items != [] && Contents()[0] == slices[0].items[0]
    {
      ShapeRoom(slices, push);
      if push.Some? && push.value == 0 {
        assert slices[..0] == [];
      }
    }

    method Front() returns (x: T)
      requires Valid() && itemCount != 0
      ensures x == Contents()[0]
    {
      HeadHasItem();
      return slices[0].items[0];
    }

    /** pop_front and _move_pop: an emptied chunk that is not being filled leaves the pool, reset for another use. */
    method PopFront(count: nat) returns (freed: seq<Slice<T>>)
      requires Valid() && slices != [] && count <= |slices[0].items|
      modifies this
      ensures Valid() && Contents() == old(Contents())[count..]
      ensures forall i :: 0 <= i < |freed| ==> Fresh(freed[i])
    {
      var s := slices[0];
      var t := Slice(s.size, s.bgn + count, s.items[count..]);
      assert slices[0 := t][1..] == slices[1..];
      assert (s.items + Items(slices[1..]))[count..] == t.items + Items(slices[1..]);
      freed := [];
      itemCount := itemCount - count;
      if t.items != [] {
        slices := slices[0 := t];
      } else if push == Some(0) {
        slices := slices[0 := t];
        assert slices[0].Left() != 0;
      } else {
        freed := [t.Reset()];
        slices := slices[1..];
        push := if push.Some? then Some(push.value - 1) else None;
        sliceCount := sliceCount - 1;
      }
    }

    /** reset of a pool that has been emptied: every chunk is as new. */
    method Reset()
      requires Valid() && itemCount == 0
      modifies this
      ensures Valid() && forall i :: 0 <= i < |slices| ==> Fresh(slices[i])
    {
      EmptyShape(slices, push);
      if push.Some? {
        SplitsAt(slices, 0, slices[0]);
        SplitsAt(slices, 0, slices[0].Reset());
        assert slices[0 := slices[0]] == slices;
        itemLeft := itemLeft + slices[0].bgn;
        slices := slices[0 := slices[0].Reset()];
      }
    }
  }
}
