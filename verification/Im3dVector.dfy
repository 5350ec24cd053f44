/**
 im3d's growing vector: its storage is replaced when it is full, and an element of the
 vector itself may be what is appended.
 */
module Im3dVector {
  const MIN_CAPACITY: nat := 8

  class Vector<T(0)> {
    var data: array<T>
    var size: nat
    var capacity: nat
    // How many elements have been moved to new storage so far.
    ghost var moved: nat

    ghost predicate Valid()
      reads this
    {
      && size <= capacity == data.Length
      && (capacity == 0 || capacity >= MIN_CAPACITY)
    }

    ghost function Contents(): (s: seq<T>)
      requires Valid()
      reads this, data
      ensures |s| == size
    {
      data[..size]
    }

    // A vector that has only ever been pushed to.
    ghost predicate OnlyPushed()
      reads this
    {
      capacity == Capacity(size) && moved == Moved(size)
    }

    constructor ()
      ensures Valid() && Contents() == [] && capacity == 0 && moved == 0 && fresh(data)
      ensures OnlyPushed()
    {
      data := new T[0];
      size, capacity, moved := 0, 0, 0;
    }

    // Never shrinks, and never makes room for fewer than eight elements.
    method Reserve(wanted: nat)
      requires Valid()
      modifies this
      ensures Valid() && Contents() == old(Contents())
      ensures capacity == if wanted < MIN_CAPACITY && old(capacity) < MIN_CAPACITY then MIN_CAPACITY
                          else if wanted <= old(capacity) then old(capacity) else wanted
      ensures data == old(data) || fresh(data)
      ensures capacity == old(capacity) <==> data == old(data)
      ensures moved == old(moved) + if capacity == old(capacity) then 0 else size
    {
      var c := if wanted < MIN_CAPACITY then MIN_CAPACITY else wanted;
      if c <= capacity { return; }
      var bigger := new T[c];
      forall i | 0 <= i < size { bigger[i] := data[i]; }
      assert bigger[..size] == data[..size];
      data, capacity, moved := bigger, c, moved + size;
    }

    // The room is enlarged by half, which always is enough for one more.
    method Grow()
      requires Valid() && size == capacity
      modifies this
      ensures Valid() && Contents() == old(Contents()) && size < capacity
      ensures fresh(data) && capacity == if old(capacity) == 0 then MIN_CAPACITY else old(capacity) + old(capacity) / 2
      ensures moved == old(moved) + size
    {
      Reserve(capacity + capacity / 2);
    }

    method PushBack(v: T)
      requires Valid()
      modifies this, data
      ensures Valid() && Contents() == old(Contents()) + [v]
      ensures data == old(data) || fresh(data)
      ensures moved == old(moved) + if old(size) < old(capacity) then 0 else old(size)
      ensures old(OnlyPushed()) ==> OnlyPushed() && 2 * moved <= 9 * size
    {
      MovesPaidFor(size + 1);
      var tmp := v;
      if size == capacity { Grow(); }
      data[size] := tmp;
      size := size + 1;
    }

    // The argument is a reference to an element: it is copied before the storage can move.
    method PushBackElement(i: nat)
      requires Valid() && i < size
      modifies this, data
      ensures Valid() && Contents() == old(Contents()) + [old(Contents()[i])]
      ensures data == old(data) || fresh(data)
      ensures old(OnlyPushed()) ==> OnlyPushed() && 2 * moved <= 9 * size
    {
      PushBack(data[i]);
    }

    method PopBack()
      requires Valid() && size > 0
      modifies `size
      ensures Valid() && Contents() == old(Contents()[..size - 1])
    {
      size := size - 1;
    }

    method Append(vs: seq<T>)
      requires Valid()
      modifies this, data
      ensures Valid() && Contents() == old(Contents()) + vs
      ensures data == old(data) || fresh(data)
    {
      if |vs| == 0 { return; }
      var sz := size + |vs|;
      Reserve(sz);
      forall i | 0 <= i < |vs| { data[size + i] := vs[i]; }
      size := sz;
      assert data[..size] == old(data[..size]) + vs;
    }
  }

  // The capacity after n pushes into an empty vector.
  function Capacity(n: nat): (c: nat)
    ensures n <= c && (n == 0 <==> c == 0) && (n > 0 ==> c >= MIN_CAPACITY)
  {
    if n == 0 then 0
    else
      var before := Capacity(n - 1);
      if n - 1 < before then before else if before == 0 then MIN_CAPACITY else before + before / 2
  }

  // The elements that the first n pushes have moved to new storage.
  function Moved(n: nat): nat {
    if n == 0 then 0 else Moved(n - 1) + if n - 1 == Capacity(n - 1) then n - 1 else 0
  }

  // Growing by half keeps the cost of a push constant: n pushes move at most 4.5 n elements.
  lemma {:induction false} MovesPaidFor(n: nat)
    ensures 2 * Moved(n) <= 9 * n
    ensures n > 0 ==> Moved(n) <= 3 * Capacity(n) - 3 * MIN_CAPACITY
    ensures 2 * Capacity(n) <= 3 * n + 2 * MIN_CAPACITY
  {
    if n > 0 {
      MovesPaidFor(n - 1);
    }
  }
}
