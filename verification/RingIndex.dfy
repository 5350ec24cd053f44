/**
 The circular block index of a producer: the slot arithmetic a consumer uses to find
 the block of a claimed element, and the growth of the ring.

 Indices are 64-bit and wrap; the mask is a bitwise and.
 */
module RingIndex {
  import opened Words

  const BLOCK_SIZE: int := 0x1_0000
  const TWO_48: int := 0x1_0000_0000_0000

  function Abs(x: int): nat { if x < 0 then -x else x }

  function Pow2(k: nat): nat { if k == 0 then 1 else 2 * Pow2(k - 1) }

  function BitAnd(x: nat, y: nat): nat {
    if x == 0 || y == 0 then 0 else 2 * BitAnd(x / 2, y / 2) + (x % 2) * (y % 2)
  }

  // Masking with size - 1 is the remainder, for a size that is a power of two.
  lemma {:induction false} MaskIsRemainder(x: nat, k: nat)
    ensures Pow2(k) > 0 && BitAnd(x, Pow2(k) - 1) == x % Pow2(k)
  {
    if k == 0 {
    } else if x == 0 {
      MaskIsRemainder(0, k - 1);
      SmallRemainder(0, Pow2(k));
    } else {
      MaskIsRemainder(x / 2, k - 1);
      MaskHalves(x, Pow2(k - 1));
      HalvesRemainder(x, Pow2(k - 1));
    }
  }

  lemma MaskHalves(x: nat, p: nat)
    requires x > 0 && p > 0
    ensures BitAnd(x, 2 * p - 1) == 2 * BitAnd(x / 2, p - 1) + x % 2
  {
    assert (2 * p - 1) / 2 == p - 1 && (2 * p - 1) % 2 == 1;
  }

  lemma SmallRemainder(x: nat, n: nat)
    requires x < n
    ensures x % n == x
  {
  }

  lemma RemainderIs(x: int, n: int, q: int, r: int)
    requires n > 0 && x == n * q + r && 0 <= r < n
    ensures x % n == r && x / n == q
  {
    var d := q - x / n;
    assert n * d == x % n - r;
    if d >= 1 { AtLeastOnce(n, d); }
    if d <= -1 { AtLeastOnce(n, -d); }
  }

  lemma AtLeastOnce(n: int, d: int)
    requires n > 0 && d >= 1
    ensures n * d >= n
  {
  }

  lemma HalvesRemainder(x: nat, p: nat)
    requires p > 0
    ensures x % (2 * p) == 2 * (x / 2 % p) + x % 2
  {
    var h := x / 2;
    assert h == p * (h / p) + h % p;
    calc {
      x;
      2 * (p * (h / p) + h % p) + x % 2;
      (2 * p) * (h / p) + (2 * (h % p) + x % 2);
    }
    RemainderIs(x, 2 * p, h / p, 2 * (h % p) + x % 2);
  }

  lemma {:induction false} Pow2Monotone(j: nat, k: nat)
    requires j <= k
    ensures Pow2(j) <= Pow2(k) && Pow2(k) == Pow2(j) * Pow2(k - j)
  {
    if j < k {
      Pow2Monotone(j, k - 1);
      calc {
        Pow2(k);
        2 * (Pow2(j) * Pow2(k - 1 - j));
        Pow2(j) * (2 * Pow2(k - 1 - j));
        Pow2(j) * Pow2(k - j);
      }
    }
  }

  lemma Pow2Values()
    ensures Pow2(16) == BLOCK_SIZE && Pow2(48) == TWO_48
  {
    assert Pow2(8) == 256;
    Pow2Monotone(8, 16);
    Pow2Monotone(16, 32);
    Pow2Monotone(32, 48);
  }

  // The distance in blocks from the newest block to the claimed one. The cast to a
  // signed difference is undone by the unsigned block size it is divided by.
  function Offset(firstBase: nat, headBase: nat): nat {
    Wrap64(firstBase - headBase) / BLOCK_SIZE
  }

  function Slot(front: nat, firstBase: nat, headBase: nat, size: nat): nat
    requires size > 0
  {
    BitAnd(Wrap64(front + Offset(firstBase, headBase)), size - 1)
  }

  // The slot of the entry k places before the front of a ring.
  function Before(front: nat, k: nat, size: nat): nat
    requires size > 0
  {
    (front - k) % size
  }

  // A block k places before the newest is at distance 2^48 - k: one lap of every ring
  // no larger than that, minus k.
  lemma OffsetIs(firstBase: nat, headBase: nat, k: nat)
    requires headBase < TWO_64 && k < TWO_48 && firstBase == headBase - k * BLOCK_SIZE
    ensures Offset(firstBase, headBase) == if k == 0 then 0 else TWO_48 - k
  {
    if k > 0 { assert Wrap64(firstBase - headBase) == TWO_64 - k * BLOCK_SIZE; }
  }

  lemma SlotIs(front: nat, firstBase: nat, headBase: nat, k: nat, e: nat)
    requires headBase < TWO_64 && k < Pow2(e) && e <= 48 && front < Pow2(e) && firstBase == headBase - k * BLOCK_SIZE
    ensures Slot(front, firstBase, headBase, Pow2(e)) == Before(front, k, Pow2(e))
  {
    Pow2Values();
    Pow2Monotone(e, 48);
    OffsetIs(firstBase, headBase, k);
    SlotAfterOffset(front, Offset(firstBase, headBase), k, e);
  }

  lemma NoWrap(x: nat)
    requires x < 2 * TWO_48
    ensures Wrap64(x) == x
  {
  }

  lemma SlotAfterOffset(front: nat, offset: nat, k: nat, e: nat)
    requires e <= 48 && k < Pow2(e) && front < Pow2(e) <= TWO_48
    requires Pow2(e) * Pow2(48 - e) == TWO_48
    requires offset == if k == 0 then 0 else TWO_48 - k
    ensures BitAnd(Wrap64(front + offset), Pow2(e) - 1) == Before(front, k, Pow2(e))
  {
    hide BitAnd, Pow2, Wrap64;
    NoWrap(front + offset);
    MaskIsRemainder(front + offset, e);
    if k > 0 { AddMultiple(front - k, Pow2(e), Pow2(48 - e)); }
  }

  lemma AddMultiple(x: int, n: int, q: int)
    requires n > 0
    ensures (x + n * q) % n == x % n
  {
    assert x + n * q == n * (x / n + q) + x % n by {
      assert n * (x / n + q) == n * (x / n) + n * q;
    }
    RemainderIs(x + n * q, n, x / n + q, x % n);
  }

  predicate FindsEntry(front: nat, k: nat, headBase: nat, size: nat)
    requires size > 0
  {
    k * BLOCK_SIZE <= headBase ==>
      Slot(front, headBase - k * BLOCK_SIZE, headBase, size) == Before(front, k, size)
  }

  // The arithmetic finds every entry of a ring exactly when the ring has at most 2^48 slots.
  lemma FindsEveryEntryIff(e: nat)
    requires e < 64
    ensures Pow2(e) > 0
    ensures (forall front: nat, k: nat, headBase: nat ::
               front < Pow2(e) && k < Pow2(e) && headBase < TWO_64 ==> FindsEntry(front, k, headBase, Pow2(e)))
            <==> Pow2(e) <= TWO_48
  {
    Pow2Values();
    MaskIsRemainder(0, e);
    if e <= 48 {
      Pow2Monotone(e, 48);
      forall front: nat, k: nat, headBase: nat | front < Pow2(e) && k < Pow2(e) && headBase < TWO_64
        ensures FindsEntry(front, k, headBase, Pow2(e))
      {
        if k * BLOCK_SIZE <= headBase { SlotIs(front, headBase - k * BLOCK_SIZE, headBase, k, e); }
      }
    } else {
      Pow2Monotone(49, e);
      MissesEntry(e);
      assert !FindsEntry(0, 1, BLOCK_SIZE, Pow2(e));
    }
  }

  lemma MissesEntry(e: nat)
    requires Pow2(e) > TWO_48
    ensures Pow2(e) > 1 && !FindsEntry(0, 1, BLOCK_SIZE, Pow2(e))
  {
    OffsetIs(0, BLOCK_SIZE, 1);
    MaskIsRemainder(TWO_48 - 1, e);
    hide Pow2, BitAnd;
    var n := Pow2(e);
    SmallRemainder(TWO_48 - 1, n);
    RemainderIs(-1, n, -1, n - 1);
    assert Wrap64(0 + Offset(0, BLOCK_SIZE)) == TWO_48 - 1;
  }

  // ------------------------------------------------------------ growing the ring

  lemma {:induction false} DividesTwo64(e: nat)
    requires e <= 64
    ensures Pow2(e) > 0 && Pow2(e) * Pow2(64 - e) == TWO_64
  {
    Pow2Values();
    Pow2Monotone(48, 64);
    Pow2Monotone(e, 64);
    MaskIsRemainder(0, e);
    assert Pow2(64) == TWO_64;
  }

  // Masking a wrapped, possibly negative, difference is its remainder.
  lemma MaskOfWrapped(x: int, e: nat)
    requires e <= 64
    ensures Pow2(e) > 0 && BitAnd(Wrap64(x), Pow2(e) - 1) == x % Pow2(e)
  {
    DividesTwo64(e);
    MaskIsRemainder(Wrap64(x), e);
    var q := x / TWO_64;
    AddMultiple(Wrap64(x), Pow2(e), Pow2(64 - e) * q);
    assert x == Wrap64(x) + TWO_64 * q;
    Associate(Pow2(e), Pow2(64 - e), q);
  }

  lemma Associate(a: int, b: int, c: int)
    ensures a * (b * c) == (a * b) * c
  {
  }

  lemma RemainderOfSum(x: int, y: int, n: int)
    requires n > 0
    ensures (x % n + y) % n == (x + y) % n
  {
    AddMultiple(x % n + y, n, x / n);
    assert x + y == x % n + y + n * (x / n);
  }

  // Two places of a ring that are less than a lap apart are different slots.
  lemma SlotsDiffer(x: int, d: int, n: int)
    requires 0 < d < n
    ensures (x + d) % n != x % n
  {
    if (x + d) % n == x % n {
      var q := (x + d) / n - x / n;
      assert d == n * q by {
        assert x + d == n * ((x + d) / n) + (x + d) % n;
        assert x == n * (x / n) + x % n;
      }
      if q >= 1 { AtLeastOnce(n, q); }
      if q <= -1 { AtLeastOnce(n, -q); }
    }
  }

  // The entries of a ring in chronological order: the last `used` slots before `front`.
  function Unrolled<E>(entries: seq<E>, front: nat, used: nat): (r: seq<E>)
    requires used <= |entries| && |entries| > 0
    ensures |r| == used
    ensures forall i :: 0 <= i < used ==> r[i] == entries[(front - used + i) % |entries|]
  {
    seq(used, i requires 0 <= i < used => entries[(front - used + i) % |entries|])
  }

  // The slot k places before the front holds the k-th newest entry.
  lemma LookBack<E>(entries: seq<E>, front: nat, used: nat, k: nat)
    requires k < used <= |entries|
    ensures Unrolled(entries, front, used)[used - 1 - k] == entries[Before((front - 1) % |entries|, k, |entries|)]
  {
    RemainderOfSum(front - 1, 0 - k, |entries|);
  }

  // The slot after another.
  function After(front: nat, size: nat): (r: nat)
    requires size > 0
    ensures r < size
  {
    (front + 1) % size
  }

  // Writing at the front drops the oldest entry of a window and appends the new one.
  lemma WriteAtFront<E>(entries: seq<E>, front: nat, used: nat, entry: E)
    requires 0 < used <= |entries| && front < |entries|
    ensures Unrolled(entries[front := entry], After(front, |entries|), used)
            == Unrolled(entries, front, used)[1..] + [entry]
  {
    var n := |entries|;
    var left := Unrolled(entries[front := entry], After(front, n), used);
    var right := Unrolled(entries, front, used)[1..] + [entry];
    forall i | 0 <= i < used
      ensures left[i] == right[i]
    {
      RemainderOfSum(front + 1, i - used, n);
      SmallRemainder(front, n);
      if i < used - 1 { SlotsDiffer(front - used + i + 1, used - 1 - i, n); }
    }
  }

  ghost predicate IsRingSize(n: nat) { exists e: nat :: e < 62 && n == Pow2(e) }

  class ProducerIndex<E(0)> {
    var entries: array<E>       // the current ring
    var size: nat               // its slots
    var slotsUsed: nat          // how many of them hold live entries
    var front: nat              // the next slot to write
    var exposed: nat            // the newest slot, as consumers see it

    ghost predicate Valid()
      reads this
    {
      IsRingSize(size) && slotsUsed <= size && front < size && (slotsUsed > 0 ==> entries.Length == size)
    }

    ghost function Chronological(): seq<E>
      reads this, entries
      requires Valid()
    {
      if slotsUsed == 0 then [] else Unrolled(entries[..], front, slotsUsed)
    }

    // Copies the live entries to the start of a larger ring in chronological order,
    // walking the old ring once round from the oldest entry.
    method CopyEntries(to: array<E>) returns (j: nat)
      requires Valid() && slotsUsed > 0 && to.Length > size && to != entries
      modifies to
      ensures j == slotsUsed && to[..j] == old(Chronological())
    {
      ghost var e: nat :| e < 62 && size == Pow2(e);
      MaskOfWrapped(front - slotsUsed, e);
      var i := BitAnd(Wrap64(front - slotsUsed), size - 1);
      var again := true;
      j := 0;
      while again
        invariant 0 <= j <= slotsUsed && i == (front - slotsUsed + j) % size
        invariant again == (j < slotsUsed)
        invariant forall k :: 0 <= k < j ==> to[k] == Chronological()[k]
        decreases slotsUsed - j
      {
        to[j] := entries[i];
        j := j + 1;
        NextSlot(front, slotsUsed, j, e);
        i := BitAnd(i + 1, size - 1);
        again := i != front;
      }
    }

    // Doubles the ring, turning any rotation of the live entries into chronological order.
    method NewBlockIndex()
      requires Valid() && size < TWO_48
      modifies this
      ensures fresh(entries) && size == 2 * old(size) && entries.Length == size && slotsUsed == old(slotsUsed)
      ensures front == slotsUsed && exposed == Wrap64(slotsUsed - 1)
      ensures Valid() && Chronological() == old(Chronological()) == entries[..slotsUsed]
    {
      SizeDoubles(size);
      var newEntries := new E[2 * size];
      var j := 0;
      if slotsUsed != 0 { j := CopyEntries(newEntries); }
      size := 2 * size;
      entries, front, exposed := newEntries, j, Wrap64(slotsUsed - 1);
      if slotsUsed != 0 { StartsAtZero(entries[..], slotsUsed); }
    }

    // Exposes an entry at the front: a further one while the ring has room, or in place
    // of the oldest when its block is used again.
    method AddEntry(entry: E, reuse: bool)
      requires Valid() && entries.Length == size && (if reuse then slotsUsed > 0 else slotsUsed < size)
      modifies this, entries
      ensures Valid() && entries == old(entries) && size == old(size) && exposed == old(front)
      ensures Chronological() == old(Chronological())[if reuse then 1 else 0..] + [entry]
    {
      ghost var e: nat :| e < 62 && size == Pow2(e);
      ghost var ring := entries[..];
      hide BitAnd, Pow2, IsRingSize, Unrolled, After;
      if !reuse { slotsUsed := slotsUsed + 1; }
      entries[front] := entry;
      exposed := front;
      NextFront(front, size, e);
      front := BitAnd(front + 1, size - 1);
      assert entries[..] == ring[old(front) := entry];
      WriteAtFront(ring, old(front), slotsUsed, entry);
      if !reuse { Grown(ring, old(front), old(slotsUsed)); }
    }
  }

  lemma NextFront(front: nat, size: nat, e: nat)
    requires size == Pow2(e) && size > 0
    ensures BitAnd(front + 1, size - 1) == After(front, size) < size
  {
    MaskIsRemainder(front + 1, e);
  }

  // The step of the copying walk: the slot after the j-th from the oldest.
  lemma NextSlot(front: nat, used: nat, j: nat, e: nat)
    requires 0 < j <= used <= Pow2(e) && front < Pow2(e)
    ensures BitAnd((front - used + j - 1) % Pow2(e) + 1, Pow2(e) - 1) == (front - used + j) % Pow2(e)
    ensures (front - used + j) % Pow2(e) != front <==> j < used
  {
    var n := Pow2(e);
    MaskIsRemainder((front - used + j - 1) % n + 1, e);
    hide BitAnd, Pow2;
    RemainderOfSum(front - used + j - 1, 1, n);
    SmallRemainder(front, n);
    if j < used { SlotsDiffer(front - used + j, used - j, n); }
  }

  lemma StartsAtZero<E>(entries: seq<E>, used: nat)
    requires used < |entries|
    ensures Unrolled(entries, used, used) == entries[..used]
  {
    forall i | 0 <= i < used
      ensures Unrolled(entries, used, used)[i] == entries[i]
    {
      SmallRemainder(i, |entries|);
    }
  }

  lemma SizeDoubles(n: nat)
    requires IsRingSize(n) && n < TWO_48
    ensures IsRingSize(2 * n)
  {
    var e: nat :| e < 62 && n == Pow2(e);
    Pow2Values();
    if e > 48 { Pow2Monotone(48, e); }
    assert Pow2(e + 1) == 2 * n;
  }

  lemma Grown<E>(entries: seq<E>, front: nat, used: nat)
    requires used < |entries|
    ensures Unrolled(entries, front, used + 1)[1..] == Unrolled(entries, front, used)
  {
  }
}
