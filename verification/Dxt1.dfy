/**
 Tracy's DXT1 compression without vector instructions: a block of 16 pixels becomes two
 16-bit colours and a 2-bit index for each pixel.
 */
module Dxt1 {
  type Byte = b: int | 0 <= b < 256

  // A block: 16 pixels of four bytes, row by row.
  type Block = s: seq<Byte> | |s| == 64 witness seq(64, i => 0)

  // Channel j of pixel i.
  function Channel(s: Block, i: nat, j: nat): Byte
    requires i < 16 && j < 4
  {
    s[4 * i + j]
  }

  // ---------- Colours of 16 bits ----------

  // The colour of three bytes, with the low bits dropped.
  function To565(r: int, g: int, b: int): int {
    r / 8 * 2048 + g / 4 * 32 + b / 8
  }

  // As the source computes it, from three bytes or from the word that they begin.
  function Of565(r: bv32, g: bv32, b: bv32): bv32 {
    ((r & 0xF8) << 8) | ((g & 0xFC) << 3) | (b >> 3)
  }

  function WordOf565(c: bv32): bv32 {
    ((c & 0xF80000) >> 19) | ((c & 0x00FC00) >> 5) | ((c & 0x0000F8) << 8)
  }

  lemma FormsAgree(r: bv32, g: bv32, b: bv32)
    requires r < 256 && g < 256 && b < 256
    ensures WordOf565(r | (g << 8) | (b << 16)) == Of565(r, g, b)
  {
  }

  // Both stand for the number To565.
  lemma FormIsTo565(r: bv32, g: bv32, b: bv32)
    requires r < 256 && g < 256 && b < 256
    ensures Of565(r, g, b) as int == To565(r as int, g as int, b as int)
  {
    hide Of565, Fields;
    FieldsAdd(r, g, b);
    Quotients(r);
    Quotients(g);
    Quotients(b);
    NumberOfFields(r / 8, g / 4, b / 8);
  }

  function Fields(x: bv32, y: bv32, z: bv32): bv32 {
    x * 2048 + y * 32 + z
  }

  lemma FieldsAdd(r: bv32, g: bv32, b: bv32)
    requires r < 256 && g < 256 && b < 256
    ensures Of565(r, g, b) == Fields(r / 8, g / 4, b / 8)
    ensures r / 8 < 32 && g / 4 < 64 && b / 8 < 32
  {
  }

  lemma Quotients(x: bv32)
    requires x < 256
    ensures (x / 8) as int == x as int / 8 && (x / 4) as int == x as int / 4
  {
  }

  lemma NumberOfFields(x: bv32, y: bv32, z: bv32)
    requires x < 32 && y < 64 && z < 32
    ensures Fields(x, y, z) as int == x as int * 2048 + y as int * 32 + z as int
  {
    SumOfFields(x, y, z);
  }

  lemma SumOfFields(x: bv32, y: bv32, z: bv32)
    requires x < 32 && y < 64 && z < 32
    ensures (x * 2048 + y * 32 + z) as int == x as int * 2048 + y as int * 32 + z as int
  {
  }

  // The 16-bit colour of a pixel.
  function Colour(s: Block, i: nat): int
    requires i < 16
  {
    To565(Channel(s, i, 0), Channel(s, i, 1), Channel(s, i, 2))
  }

  // ---------- The range of a block ----------

  function Lowest(s: Block, j: nat, n: nat): Byte
    requires j < 3 && 1 <= n <= 16
  {
    if n == 1 then Channel(s, 0, j)
    else
      var low, c := Lowest(s, j, n - 1), Channel(s, n - 1, j);
      if c < low then c else low
  }

  function Highest(s: Block, j: nat, n: nat): Byte
    requires j < 3 && 1 <= n <= 16
  {
    if n == 1 then Channel(s, 0, j)
    else
      var high, c := Highest(s, j, n - 1), Channel(s, n - 1, j);
      if c > high then c else high
  }

  lemma {:induction false} RangeHolds(s: Block, j: nat, n: nat, i: nat)
    requires j < 3 && i < n <= 16
    ensures Lowest(s, j, n) <= Channel(s, i, j) <= Highest(s, j, n)
  {
    if n > 1 { RangeHolds(s, j, n - 1, if i < n - 1 then i else 0); }
  }

  // Each end of the range is a pixel's.
  lemma {:induction false} RangeIsMet(s: Block, j: nat, n: nat) returns (low: nat, high: nat)
    requires j < 3 && 1 <= n <= 16
    ensures low < n && Channel(s, low, j) == Lowest(s, j, n)
    ensures high < n && Channel(s, high, j) == Highest(s, j, n)
  {
    if n == 1 {
      low, high := 0, 0;
    } else {
      low, high := RangeIsMet(s, j, n - 1);
      if Channel(s, n - 1, j) == Lowest(s, j, n) { low := n - 1; }
      if Channel(s, n - 1, j) == Highest(s, j, n) { high := n - 1; }
    }
  }

  // The pixels differ in no bit that a 16-bit colour keeps.
  predicate Uniform(s: Block) {
    forall i: nat :: i < 16 ==> SamePixel(s, i)
  }

  predicate SamePixel(s: Block, i: nat)
    requires i < 16
  {
    && Channel(s, i, 0) / 8 == Channel(s, 0, 0) / 8
    && Channel(s, i, 1) / 4 == Channel(s, 0, 1) / 4
    && Channel(s, i, 2) / 8 == Channel(s, 0, 2) / 8
  }

  // The same bits of every channel are kept exactly when the 16-bit colours are equal.
  lemma SameColour(r: Byte, g: Byte, b: Byte, r': Byte, g': Byte, b': Byte)
    ensures To565(r, g, b) == To565(r', g', b') <==> r / 8 == r' / 8 && g / 4 == g' / 4 && b / 8 == b' / 8
  {
  }

  // So the comparison of masked pixels finds the blocks whose pixels all get one colour.
  lemma UniformIsOneColour(s: Block)
    ensures Uniform(s) <==> forall i: nat :: i < 16 ==> Colour(s, i) == Colour(s, 0)
  {
    hide To565;
    forall i: nat | i < 16
      ensures SamePixel(s, i) <==> Colour(s, i) == Colour(s, 0)
    {
      SameColour(Channel(s, i, 0), Channel(s, i, 1), Channel(s, i, 2), Channel(s, 0, 0), Channel(s, 0, 1),
                 Channel(s, 0, 2));
    }
  }

  // ---------- Insets ----------

  // The ends of a range are moved towards each other by a sixteenth of it.
  function Inset(low: Byte, high: Byte): int { (high - low) / 16 }

  // They never cross or leave the range of a byte, and if they could be told apart they still can.
  lemma InsetsKeepApart(low: Byte, high: Byte, unit: int)
    requires low <= high && unit in {4, 8}
    ensures low <= low + Inset(low, high) <= high - Inset(low, high) <= high
    ensures low / unit < high / unit ==> (low + Inset(low, high)) / unit < (high - Inset(low, high)) / unit
  {
    if high - low < 16 {
      assert Inset(low, high) == 0;
    } else {
      assert high - Inset(low, high) >= low + Inset(low, high) + 8;
    }
  }

  // ---------- Indices ----------

  // The divisor table, by the formula it was generated with.
  function DivTable(i: nat): nat {
    var range := 262144 / (1 + i);
    if range > 0xFFFF then 0xFFFF else range
  }

  function Scaled(c: nat, range: nat): nat { c * range / 65536 }

  function Index(c: nat, total: nat): nat {
    Scaled(c, DivTable(total))
  }

  // An index always fits into two bits.
  lemma IndexFits(c: nat, total: nat)
    requires c <= total
    ensures Index(c, total) <= 3
  {
    var range := DivTable(total);
    assert range * (1 + total) <= 262144 by {
      assert 262144 / (1 + total) * (1 + total) <= 262144;
    }
    assert c * range <= total * range;
    assert total * range + range == range * (1 + total);
    if range > 0 { assert c * range < 262144; }
  }

  // A brighter pixel never gets a smaller index, and the darkest possible gets 0.
  lemma IndexRises(c: nat, d: nat, total: nat)
    requires c <= d <= total
    ensures Index(c, total) <= Index(d, total) && Index(0, total) == 0
  {
    assert c * DivTable(total) <= d * DivTable(total);
  }

  // A pixel at the upper end of every channel's range gets the last index if the ranges add up to at
  // least 4. Below that the cap of the table gives it one less than their sum: the last index is not
  // used, and with a sum of 1 no index but 0 is.
  lemma TopIndex(total: nat)
    requires 1 <= total <= 765
    ensures Index(total, total) == if total >= 4 then 3 else total - 1
  {
    var range := DivTable(total);
    if total >= 4 {
      TableBounds(total);
      assert total * range == range * (1 + total) - range;
      IndexFits(total, total);
    } else {
      assert range == 0xFFFF by { assert total == 1 || total == 2 || total == 3; }
      assert total * range == 65536 * (total - 1) + (65536 - total);
    }
  }

  lemma Times(q: nat, k: nat, n: nat)
    ensures q >= k ==> q * n >= k * n
    ensures q <= k ==> q * n <= k * n
  {
  }

  lemma TableBounds(total: nat)
    requires 4 <= total <= 765
    ensures 342 <= DivTable(total) <= 52428
    ensures 262144 - total <= DivTable(total) * (1 + total) <= 262144
  {
    var n := 1 + total;
    var q, r := 262144 / n, 262144 % n;
    assert q * n + r == 262144 && 0 <= r < n;
    Times(q, 52429, n);
    Times(q, 341, n);
  }

  // Pixels whose brightness differs by a little more than a quarter of the whole never share an index.
  lemma QuarterApart(c: nat, d: nat, total: nat)
    requires c <= d <= total && 4 <= total <= 765 && 4 * (d - c) >= total + 5
    ensures Index(c, total) < Index(d, total)
  {
    var range, k := DivTable(total), d - c;
    TableBounds(total);
    hide DivTable;
    Times(4 * k, total + 5, range);
    Distribute(total + 1, 4, range);
    FourTimes(k, range);
    Distribute(c, k, range);
  }

  lemma Distribute(a: nat, b: nat, n: nat)
    ensures (a + b) * n == a * n + b * n
  {
  }

  lemma FourTimes(k: nat, n: nat)
    ensures 4 * k * n == 4 * (k * n)
  {
  }

  // ---------- Packing ----------

  function Pow4(n: nat): (r: nat)
    ensures r > 0
  {
    if n == 0 then 1 else 4 * Pow4(n - 1)
  }

  // The value x in field number n.
  function Field(x: nat, n: nat): nat { x * Pow4(n) }

  function BitOr(a: nat, b: nat): nat
    decreases a + b
  {
    if a == 0 then b
    else if b == 0 then a
    else 2 * BitOr(a / 2, b / 2) + (if a % 2 == 1 || b % 2 == 1 then 1 else 0)
  }

  // Or-ing in a field above all that is there is adding it.
  lemma {:induction false} OrAbove(data: nat, x: nat, n: nat)
    requires data < Pow4(n)
    ensures BitOr(data, Field(x, n)) == data + Field(x, n)
  {
    if n > 0 && data > 0 && x > 0 {
      var p := Pow4(n - 1);
      assert Field(x, n) == 4 * (x * p);
      OrAbove(data / 4, x, n - 1);
      OrByFour(data, x * p);
    } else if n == 0 {
      assert data == 0;
    }
  }

  lemma OrByFour(a: nat, b: nat)
    requires BitOr(a / 4, b) == a / 4 + b && a > 0 && b > 0
    ensures BitOr(a, 4 * b) == a + 4 * b
  {
    assert (4 * b) / 2 == 2 * b && (4 * b) % 2 == 0;
    assert (a / 2) / 2 == a / 4 && (2 * b) / 2 == b;
    if a / 2 == 0 {
      assert BitOr(a, 4 * b) == 2 * BitOr(0, 2 * b) + 1;
    } else {
      assert BitOr(a / 2, 2 * b) == 2 * BitOr(a / 4, b) + (a / 2) % 2;
    }
  }

  // The first n indices side by side, the first lowest.
  function Packed(indices: seq<nat>): nat {
    if indices == [] then 0
    else
      var last := |indices| - 1;
      Packed(indices[..last]) + Field(indices[last], last)
  }

  predicate AreIndices(indices: seq<nat>) { forall i :: 0 <= i < |indices| ==> indices[i] <= 3 }

  lemma {:induction false} PackedFits(indices: seq<nat>)
    requires AreIndices(indices)
    ensures Packed(indices) < Pow4(|indices|)
  {
    if indices != [] {
      var last := |indices| - 1;
      PackedFits(indices[..last]);
      assert Field(indices[last], last) <= 3 * Pow4(last);
    }
  }

  function Unpacked(data: nat, n: nat): seq<nat> {
    if n == 0 then [] else [data % 4] + Unpacked(data / 4, n - 1)
  }

  lemma {:induction false} PackedFront(x: nat, rest: seq<nat>)
    ensures Packed([x] + rest) == x + 4 * Packed(rest)
  {
    var all, last := [x] + rest, |rest| - 1;
    if rest == [] {
      assert all[..0] == [];
      assert Packed(all) == Packed(all[..0]) + Field(x, 0);
    } else {
      PackedFront(x, rest[..last]);
      assert all[..|rest|] == [x] + rest[..last];
      FieldAbove(rest[last], last);
    }
  }

  lemma FieldAbove(x: nat, n: nat)
    ensures Field(x, n + 1) == 4 * Field(x, n)
  {
  }

  // The fields do not overlap: every index can be read back.
  lemma {:induction false} RoundTrip(indices: seq<nat>)
    requires AreIndices(indices)
    ensures Unpacked(Packed(indices), |indices|) == indices
  {
    if indices != [] {
      var x, rest := indices[0], indices[1..];
      RoundTrip(rest);
      assert indices == [x] + rest;
      PackedFront(x, rest);
    }
  }

  // ---------- One block ----------

  function Total(s: Block): int {
    (Highest(s, 0, 16) - Lowest(s, 0, 16)) + (Highest(s, 1, 16) - Lowest(s, 1, 16))
    + (Highest(s, 2, 16) - Lowest(s, 2, 16))
  }

  // How far a pixel is above the darkest one there could be.
  function Above(s: Block, i: nat): int
    requires i < 16
  {
    Channel(s, i, 0) + Channel(s, i, 1) + Channel(s, i, 2)
    - (Lowest(s, 0, 16) + Lowest(s, 1, 16) + Lowest(s, 2, 16))
  }

  lemma AboveInRange(s: Block, i: nat)
    requires i < 16
    ensures 0 <= Above(s, i) <= Total(s)
  {
    RangeHolds(s, 0, 16, i);
    RangeHolds(s, 1, 16, i);
    RangeHolds(s, 2, 16, i);
  }

  function IndexOf(s: Block, i: nat): (r: nat)
    requires i < 16
    ensures r <= 3
  {
    AboveInRange(s, i);
    IndexFits(Above(s, i), Total(s));
    Index(Above(s, i), Total(s))
  }

  function Indices(s: Block, n: nat): (r: seq<nat>)
    requires n <= 16
    ensures |r| == n && AreIndices(r) && forall i :: 0 <= i < n ==> r[i] == IndexOf(s, i)
  {
    if n == 0 then [] else Indices(s, n - 1) + [IndexOf(s, n - 1)]
  }

  // A compressed block: the colour that index 3 stands for, the colour that index 0 stands for,
  // and the packed indices.
  datatype Compressed = Compressed(first: int, second: int, indices: nat)

  function End(s: Block, j: nat, high: bool): int
    requires j < 3
  {
    var low, top := Lowest(s, j, 16), Highest(s, j, 16);
    if high then top - Inset(low, top) else low + Inset(low, top)
  }

  function Compress(s: Block): Compressed {
    if Uniform(s) then Compressed(0, Colour(s, 0), 0)
    else Compressed(To565(End(s, 0, true), End(s, 1, true), End(s, 2, true)),
                    To565(End(s, 0, false), End(s, 1, false), End(s, 2, false)),
                    Packed(Indices(s, 16)))
  }

  lemma EndsInRange(s: Block, j: nat)
    requires j < 3
    ensures 0 <= End(s, j, false) <= End(s, j, true) < 256
    ensures forall unit | unit in {4, 8} ::
              Lowest(s, j, 16) / unit < Highest(s, j, 16) / unit ==> End(s, j, false) / unit < End(s, j, true) / unit
  {
    RangeHolds(s, j, 16, 0);
    InsetsKeepApart(Lowest(s, j, 16), Highest(s, j, 16), 4);
    InsetsKeepApart(Lowest(s, j, 16), Highest(s, j, 16), 8);
  }

  // If two pixels differ in a channel, the ends of its range differ.
  lemma DifferentEnds(s: Block, i: nat, j: nat, unit: int)
    requires i < 16 && j < 3 && unit in {4, 8}
    requires Channel(s, i, j) / unit != Channel(s, 0, j) / unit
    ensures Lowest(s, j, 16) / unit < Highest(s, j, 16) / unit
  {
    RangeHolds(s, j, 16, i);
    RangeHolds(s, j, 16, 0);
    hide Lowest, Highest;
    Between(Lowest(s, j, 16), Channel(s, i, j), Channel(s, 0, j), Highest(s, j, 16), unit);
  }

  lemma Between(low: int, a: int, b: int, high: int, unit: int)
    requires low <= a <= high && low <= b <= high && unit in {4, 8} && a / unit != b / unit
    ensures low / unit < high / unit
  {
    if unit == 4 {} else {}
  }

  lemma NotUniformEnds(s: Block)
    requires !Uniform(s)
    ensures Lowest(s, 0, 16) / 8 < Highest(s, 0, 16) / 8 || Lowest(s, 1, 16) / 4 < Highest(s, 1, 16) / 4
            || Lowest(s, 2, 16) / 8 < Highest(s, 2, 16) / 8
  {
    var i: nat :| i < 16 && !SamePixel(s, i);
    if Channel(s, i, 0) / 8 != Channel(s, 0, 0) / 8 { DifferentEnds(s, i, 0, 8); }
    else if Channel(s, i, 1) / 4 != Channel(s, 0, 1) / 4 { DifferentEnds(s, i, 1, 4); }
    else { DifferentEnds(s, i, 2, 8); }
  }

  lemma To565Rises(r: int, g: int, b: int, r': int, g': int, b': int)
    requires 0 <= r <= r' < 256 && 0 <= g <= g' < 256 && 0 <= b <= b' < 256
    requires r / 8 < r' / 8 || g / 4 < g' / 4 || b / 8 < b' / 8
    ensures To565(r, g, b) < To565(r', g', b')
  {
  }

  // Main result: of two different colours the first is the greater; a block of one colour has its
  // colour second, after zero. So the first is at least the second exactly when the block has more
  // than one colour or its one colour is zero.
  lemma FirstIsGreaterIff(s: Block)
    ensures !Uniform(s) ==> Compress(s).first > Compress(s).second
    ensures Compress(s).first >= Compress(s).second
            <==> !Uniform(s) || Colour(s, 0) == 0
  {
    if !Uniform(s) {
      NotUniformEnds(s);
      EndsInRange(s, 0);
      EndsInRange(s, 1);
      EndsInRange(s, 2);
      To565Rises(End(s, 0, false), End(s, 1, false), End(s, 2, false), End(s, 0, true), End(s, 1, true),
                 End(s, 2, true));
    }
  }

  // In a white block the first end is the smaller one.
  lemma WhiteBlock()
    ensures var s: Block := seq(64, i => 255);
            Compress(s).first == 0 && Compress(s).second == 0xFFFF
  {
    var s: Block := seq(64, i => 255);
    assert forall i: nat, j: nat :: i < 16 && j < 4 ==> Channel(s, i, j) == 255;
  }

  // A block of two colours whose channel ranges add up to 1: every index is 0, so one colour is lost.
  lemma NarrowBlock()
    ensures var s: Block := seq(64, i => if i == 0 then 8 else if i % 4 == 0 then 7 else 0);
            !Uniform(s) && Total(s) == 1 && forall i: nat :: i < 16 ==> IndexOf(s, i) == 0
  {
    var s: Block := seq(64, i => if i == 0 then 8 else if i % 4 == 0 then 7 else 0);
    assert Channel(s, 0, 0) == 8 && forall i: nat :: 0 < i < 16 ==> Channel(s, i, 0) == 7;
    assert forall i: nat, j: nat :: i < 16 && 0 < j < 4 ==> Channel(s, i, j) == 0;
    assert !SamePixel(s, 1);
    RangeIs(s, 0, 1, 0);
    RangeIs(s, 1, 1, 0);
    RangeIs(s, 2, 1, 0);
    TopIndex(1);
    forall i: nat | i < 16
      ensures IndexOf(s, i) == 0
    {
      AboveInRange(s, i);
      IndexRises(Above(s, i), 1, 1);
    }
  }

  // Pixels that no other goes below or above in a channel have the ends of its range.
  lemma RangeIs(s: Block, j: nat, a: nat, b: nat)
    requires j < 3 && a < 16 && b < 16
    requires forall i: nat :: i < 16 ==> Channel(s, a, j) <= Channel(s, i, j) <= Channel(s, b, j)
    ensures Lowest(s, j, 16) == Channel(s, a, j) && Highest(s, j, 16) == Channel(s, b, j)
  {
    hide Lowest, Highest;
    RangeHolds(s, j, 16, a);
    RangeHolds(s, j, 16, b);
    var lowest, highest := RangeIsMet(s, j, 16);
  }

  // The red, green and blue fields of the two endpoints are those of the ends of the channels' ranges,
  // moved inwards by a sixteenth: the upper ends in the first endpoint, the lower in the second.
  lemma EndpointFields(s: Block)
    requires !Uniform(s)
    ensures var low := (j: nat) requires j < 3 =>
              Lowest(s, j, 16) + (Highest(s, j, 16) - Lowest(s, j, 16)) / 16;
            var high := (j: nat) requires j < 3 =>
              Highest(s, j, 16) - (Highest(s, j, 16) - Lowest(s, j, 16)) / 16;
            var c := Compress(s);
            && c.first / 2048 == high(0) / 8 && c.first / 32 % 64 == high(1) / 4 && c.first % 32 == high(2) / 8
            && c.second / 2048 == low(0) / 8 && c.second / 32 % 64 == low(1) / 4 && c.second % 32 == low(2) / 8
  {
    EndsInRange(s, 0);
    EndsInRange(s, 1);
    EndsInRange(s, 2);
    FieldsOf565(End(s, 0, true), End(s, 1, true), End(s, 2, true));
    FieldsOf565(End(s, 0, false), End(s, 1, false), End(s, 2, false));
    hide To565, Lowest, Highest, Uniform;
  }

  // ... and of a block of one colour those of its pixels.
  lemma UniformFields(s: Block, i: nat)
    requires Uniform(s) && i < 16
    ensures var c := Compress(s);
            && c.first == 0 && c.indices == 0
            && c.second / 2048 == Channel(s, i, 0) / 8 && c.second / 32 % 64 == Channel(s, i, 1) / 4
            && c.second % 32 == Channel(s, i, 2) / 8
  {
    assert SamePixel(s, i);
    FieldsOf565(Channel(s, 0, 0), Channel(s, 0, 1), Channel(s, 0, 2));
  }

  lemma FieldsOf565(r: int, g: int, b: int)
    requires 0 <= r < 256 && 0 <= g < 256 && 0 <= b < 256
    ensures var c := To565(r, g, b);
            c / 2048 == r / 8 && c / 32 % 64 == g / 4 && c % 32 == b / 8
  {
    FieldsApart(r / 8, g / 4, b / 8);
  }

  lemma FieldsApart(x: nat, y: nat, z: nat)
    requires x < 32 && y < 64 && z < 32
    ensures var c := x * 2048 + y * 32 + z;
            c / 2048 == x && c / 32 % 64 == y && c % 32 == z
  {
    var c := x * 2048 + y * 32 + z;
    assert c / 32 == x * 64 + y;
  }

  function Brightness(s: Block, i: nat): int
    requires i < 16
  {
    Channel(s, i, 0) + Channel(s, i, 1) + Channel(s, i, 2)
  }

  // Every index of a block of several colours can be read back, and orders the pixels by brightness.
  lemma IndicesKept(s: Block)
    requires !Uniform(s)
    ensures Unpacked(Compress(s).indices, 16) == Indices(s, 16)
    ensures forall i: nat, k: nat | i < 16 && k < 16 && Brightness(s, i) <= Brightness(s, k) ::
              Indices(s, 16)[i] <= Indices(s, 16)[k]
  {
    RoundTrip(Indices(s, 16));
    forall i: nat, k: nat | i < 16 && k < 16 && Brightness(s, i) <= Brightness(s, k)
      ensures Indices(s, 16)[i] <= Indices(s, 16)[k]
    {
      AboveInRange(s, i);
      AboveInRange(s, k);
      IndexRises(Above(s, i), Above(s, k), Total(s));
    }
  }

  // A pixel as dark as the range gets 0, one as bright as the range gets the last index if the
  // channels' ranges add up to at least 4, and the indices of two pixels differ if their brightness
  // differs by a little more than a quarter of that sum.
  lemma IndicesSpread(s: Block, i: nat, k: nat)
    requires !Uniform(s) && i < 16 && k < 16
    ensures var total := Total(s);
            && 1 <= total <= 765
            && ((forall j: nat :: j < 3 ==> Channel(s, i, j) == Lowest(s, j, 16)) ==> IndexOf(s, i) == 0)
            && ((forall j: nat :: j < 3 ==> Channel(s, i, j) == Highest(s, j, 16)) ==>
                  IndexOf(s, i) == if total >= 4 then 3 else total - 1)
            && (total >= 4 && 4 * (Brightness(s, k) - Brightness(s, i)) >= total + 5 ==> IndexOf(s, i) < IndexOf(s, k))
  {
    NotUniformEnds(s);
    RangeHolds(s, 0, 16, 0);
    RangeHolds(s, 1, 16, 0);
    RangeHolds(s, 2, 16, 0);
    AboveInRange(s, i);
    AboveInRange(s, k);
    var a, b, total := Above(s, i), Above(s, k), Total(s);
    assert b - a == Brightness(s, k) - Brightness(s, i);
    hide Lowest, Highest, Uniform, Index;
    IndexRises(0, total, total);
    TopIndex(total);
    if total >= 4 && 4 * (b - a) >= total + 5 { QuarterApart(a, b, total); }
    assert (forall j: nat :: j < 3 ==> Channel(s, i, j) == Lowest(s, j, 16)) ==> a == 0;
    assert (forall j: nat :: j < 3 ==> Channel(s, i, j) == Highest(s, j, 16)) ==> a == total;
  }

  // The pixels are compared by the bits that are kept.
  method IsUniform(src: Block) returns (uniform: bool)
    ensures uniform == Uniform(src)
  {
    var i := 1;
    while i < 16
      invariant 1 <= i <= 16
      invariant forall k: nat :: k < i ==> SamePixel(src, k)
    {
      if src[4 * i] / 8 != src[0] / 8 || src[4 * i + 1] / 4 != src[1] / 4 || src[4 * i + 2] / 8 != src[2] / 8 {
        assert !SamePixel(src, i);
        return false;
      }
      i := i + 1;
    }
    return true;
  }

  method Range(src: Block) returns (min: seq<Byte>, max: seq<Byte>)
    ensures min == [Lowest(src, 0, 16), Lowest(src, 1, 16), Lowest(src, 2, 16)]
    ensures max == [Highest(src, 0, 16), Highest(src, 1, 16), Highest(src, 2, 16)]
  {
    min, max := [src[0], src[1], src[2]], [src[0], src[1], src[2]];
    for i := 1 to 16
      invariant min == [Lowest(src, 0, i), Lowest(src, 1, i), Lowest(src, 2, i)]
      invariant max == [Highest(src, 0, i), Highest(src, 1, i), Highest(src, 2, i)]
    {
      ghost var was, was' := min, max;
      for j := 0 to 3
        invariant |min| == |max| == 3
        invariant forall k: nat :: k < j ==> min[k] == Lowest(src, k, i + 1) && max[k] == Highest(src, k, i + 1)
        invariant forall k: nat :: j <= k < 3 ==> min[k] == Lowest(src, k, i) && max[k] == Highest(src, k, i)
      {
        RangeHolds(src, j, i, 0);
        if src[4 * i + j] < min[j] {
          min := min[j := src[4 * i + j]];
        } else if src[4 * i + j] > max[j] {
          max := max[j := src[4 * i + j]];
        }
      }
    }
  }

  method Ends(src: Block, min: seq<Byte>, max: seq<Byte>) returns (low: seq<int>, high: seq<int>)
    requires min == [Lowest(src, 0, 16), Lowest(src, 1, 16), Lowest(src, 2, 16)]
    requires max == [Highest(src, 0, 16), Highest(src, 1, 16), Highest(src, 2, 16)]
    ensures low == [End(src, 0, false), End(src, 1, false), End(src, 2, false)]
    ensures high == [End(src, 0, true), End(src, 1, true), End(src, 2, true)]
  {
    low, high := min, max;
    for i := 0 to 3
      invariant |low| == |high| == 3
      invariant forall k: nat :: k < i ==> low[k] == End(src, k, false) && high[k] == End(src, k, true)
      invariant forall k: nat :: i <= k < 3 ==> low[k] == min[k] && high[k] == max[k]
    {
      var inset := Inset(min[i], max[i]);
      low, high := low[i := low[i] + inset], high[i := high[i] - inset];
    }
  }

  method Pack(src: Block, min: seq<Byte>, max: seq<Byte>) returns (data: nat)
    requires min == [Lowest(src, 0, 16), Lowest(src, 1, 16), Lowest(src, 2, 16)]
    requires max == [Highest(src, 0, 16), Highest(src, 1, 16), Highest(src, 2, 16)]
    ensures data == Packed(Indices(src, 16))
  {
    var total: int := max[0] as int - min[0] as int + max[1] as int - min[1] as int + max[2] as int - min[2] as int;
    assert total == Total(src);
    AboveInRange(src, 0);
    var range := DivTable(total);
    var rmin: int := min[0] as int + min[1] as int + min[2] as int;
    hide Lowest, Highest, Total, Above, DivTable, Packed, BitOr, Field, Scaled, IndexOf, Indices;
    data := 0;
    NothingPacked(src);
    for i := 0 to 16
      invariant data == Packed(Indices(src, i))
    {
      AboveIs(src, i, rmin);
      var c: nat := src[4 * i] as int + src[4 * i + 1] as int + src[4 * i + 2] as int - rmin;
      IndexIs(src, i, c, range);
      var idx := Scaled(c, range);
      PackedFits(Indices(src, i));
      OrAbove(data, idx, i);
      PackedMore(src, i);
      data := BitOr(data, Field(idx, i));
    }
  }

  lemma NothingPacked(src: Block)
    ensures Packed(Indices(src, 0)) == 0
  {
  }

  lemma AboveIs(src: Block, i: nat, rmin: int)
    requires i < 16 && rmin == Lowest(src, 0, 16) + Lowest(src, 1, 16) + Lowest(src, 2, 16)
    ensures src[4 * i] as int + src[4 * i + 1] as int + src[4 * i + 2] as int - rmin == Above(src, i) >= 0
  {
    AboveInRange(src, i);
  }

  lemma IndexIs(src: Block, i: nat, c: nat, range: nat)
    requires i < 16 && c == Above(src, i) && Total(src) >= 0 && range == DivTable(Total(src))
    ensures Scaled(c, range) == IndexOf(src, i)
  {
    hide Scaled, DivTable, Above, Total;
  }

  lemma PackedMore(src: Block, i: nat)
    requires i < 16
    ensures Packed(Indices(src, i + 1)) == Packed(Indices(src, i)) + Field(IndexOf(src, i), i)
  {
    assert Indices(src, i + 1)[..i] == Indices(src, i);
  }

  method ProcessRGB(src: Block) returns (c: Compressed)
    ensures c == Compress(src)
  {
    var uniform := IsUniform(src);
    if uniform {
      return Compressed(0, To565(src[0], src[1], src[2]), 0);
    }
    var min, max := Range(src);
    var low, high := Ends(src, min, max);
    var data := Pack(src, min, max);
    c := Compressed(To565(high[0], high[1], high[2]), To565(low[0], low[1], low[2]), data);
  }

  // ---------- The walk over an image ----------

  // An image of 4*w by 4*h pixels holds w by h blocks. Its lines are 16*w bytes long.
  predicate IsImage(image: seq<Byte>, w: nat, h: nat) { w > 0 && h > 0 && |image| == 64 * w * h }

  // Where the first line of a block starts.
  function BlockStart(w: nat, row: nat, col: nat): nat { 64 * w * row + 16 * col }

  lemma BlockFits(w: nat, h: nat, row: nat, col: nat)
    requires row < h && col < w
    ensures BlockStart(w, row, col) + 48 * w + 16 <= 64 * w * h
  {
    assert 64 * w * (row + 1) <= 64 * w * h;
    assert 64 * w * (row + 1) == 64 * w * row + 64 * w;
  }

  // The bytes of four lines of 16 that start there.
  function BlockAt(image: seq<Byte>, w: nat, start: nat): Block
    requires start + 48 * w + 16 <= |image|
  {
    image[start..start + 16] + image[start + 16 * w..start + 16 * w + 16]
    + image[start + 32 * w..start + 32 * w + 16] + image[start + 48 * w..start + 48 * w + 16]
  }

  // The block in a row and column of blocks.
  function ImageBlock(image: seq<Byte>, w: nat, h: nat, row: nat, col: nat): Block
    requires IsImage(image, w, h) && row < h && col < w
  {
    BlockFits(w, h, row, col);
    BlockAt(image, w, BlockStart(w, row, col))
  }

  // Byte j of the pixel at x, y of a block, in an image whose lines are 4 * w pixels long.
  function PixelAt(w: nat, row: nat, col: nat, x: nat, y: nat, j: nat): nat {
    ((4 * row + y) * (4 * w) + (4 * col + x)) * 4 + j
  }

  lemma FourLines(a: seq<Byte>, b: seq<Byte>, c: seq<Byte>, d: seq<Byte>, y: nat, k: nat)
    requires |a| == |b| == |c| == |d| == 16 && y < 4 && k < 16
    ensures (a + b + c + d)[16 * y + k] == (if y == 0 then a else if y == 1 then b else if y == 2 then c else d)[k]
  {
  }

  // Byte k of line y of a block.
  lemma LineOfBlock(image: seq<Byte>, w: nat, start: nat, y: nat, k: nat)
    requires start + 48 * w + 16 <= |image| && y < 4 && k < 16
    ensures 16 * w * y <= 48 * w && BlockAt(image, w, start)[16 * y + k] == image[start + 16 * w * y + k]
  {
    FourLines(image[start..start + 16], image[start + 16 * w..start + 16 * w + 16],
              image[start + 32 * w..start + 32 * w + 16], image[start + 48 * w..start + 48 * w + 16], y, k);
    assert 16 * w * y == if y == 0 then 0 else if y == 1 then 16 * w else if y == 2 then 32 * w else 48 * w;
  }

  lemma LinePixel(w: nat, row: nat, col: nat, x: nat, y: nat, j: nat)
    requires y < 4
    ensures PixelAt(w, row, col, x, y, j) == BlockStart(w, row, col) + 16 * w * y + 4 * x + j
  {
    assert (4 * row + y) * (4 * w) == 16 * (w * row) + 4 * (w * y);
  }

  // Pixel x, y of that block is the pixel of the image that lies there.
  lemma BlockPixel(image: seq<Byte>, w: nat, h: nat, row: nat, col: nat, x: nat, y: nat, j: nat)
    requires IsImage(image, w, h) && row < h && col < w && x < 4 && y < 4 && j < 4
    ensures var at := PixelAt(w, row, col, x, y, j);
            at < |image| && Channel(ImageBlock(image, w, h, row, col), 4 * y + x, j) == image[at]
  {
    BlockFits(w, h, row, col);
    LinePixel(w, row, col, x, y, j);
    LineOfBlock(image, w, BlockStart(w, row, col), y, 4 * x + j);
  }

  function Blocks(w: nat, h: nat): nat { w * h }

  // Where a block's result goes: row by row.
  function Slot(w: nat, row: nat, col: nat): nat { w * row + col }

  // The results so far are those of the blocks before a row and column.
  ghost predicate Done(image: seq<Byte>, w: nat, h: nat, row: nat, col: nat, dst: seq<Compressed>)
    requires IsImage(image, w, h)
  {
    && |dst| == Slot(w, row, col)
    && forall r: nat, c: nat :: r < h && c < w && (r < row || (r == row && c < col)) ==>
         Slot(w, r, c) < |dst| && dst[Slot(w, r, c)] == Compress(ImageBlock(image, w, h, r, c))
  }

  // Every block's result is in its slot, and there are no other slots.
  ghost predicate AllCompressed(image: seq<Byte>, w: nat, h: nat, dst: seq<Compressed>)
    requires IsImage(image, w, h)
  {
    && |dst| == w * h
    && forall r: nat, c: nat :: r < h && c < w ==>
         Slot(w, r, c) < |dst| && dst[Slot(w, r, c)] == Compress(ImageBlock(image, w, h, r, c))
  }

  lemma SlotOrder(w: nat, r: nat, c: nat, row: nat, col: nat)
    requires c < w && (r < row || (r == row && c < col))
    ensures Slot(w, r, c) < Slot(w, row, col)
  {
    if r < row {
      assert w * (r + 1) <= w * row;
      assert w * (r + 1) == w * r + w;
    }
  }

  lemma NextDone(image: seq<Byte>, w: nat, h: nat, row: nat, col: nat, dst: seq<Compressed>, c: Compressed)
    requires IsImage(image, w, h) && row < h && col < w && Done(image, w, h, row, col, dst)
    requires c == Compress(ImageBlock(image, w, h, row, col))
    ensures Done(image, w, h, row, col + 1, dst + [c])
  {
    hide Compress, ImageBlock;
    forall r: nat, k: nat | r < h && k < w && (r < row || (r == row && k < col + 1))
      ensures Slot(w, r, k) < |dst| + 1
      ensures (dst + [c])[Slot(w, r, k)] == Compress(ImageBlock(image, w, h, r, k))
    {
      SlotOrder(w, r, k, row, col + 1);
      if r < row || k < col { SlotOrder(w, r, k, row, col); }
    }
  }

  lemma NextRow(image: seq<Byte>, w: nat, h: nat, row: nat, dst: seq<Compressed>)
    requires IsImage(image, w, h) && Done(image, w, h, row, w, dst)
    ensures Done(image, w, h, row + 1, 0, dst)
    ensures BlockStart(w, row, w) + 48 * w == BlockStart(w, row + 1, 0)
  {
    hide Compress, ImageBlock;
    assert w * (row + 1) == w * row + w;
  }

  lemma RowsLeft(w: nat, h: nat, row: nat, col: nat)
    requires Slot(w, row, col) < Blocks(w, h) && col < w
    ensures row < h
  {
    assert row >= h ==> w * row >= w * h;
  }

  // Every block is compressed once, into its own slot.
  method CompressImageDxt1(image: seq<Byte>, w: nat, h: nat) returns (dst: seq<Compressed>)
    requires IsImage(image, w, h)
    ensures AllCompressed(image, w, h, dst)
  {
    dst := [];
    AtStart(image, w, h);
    hide IsImage, Blocks, Compress, Done, BlockStart, ImageBlock, BlockAt, Slot, AllCompressed;
    var i, src, blocks, again := 0, 0, Blocks(w, h), true;
    ghost var row, total := 0, Blocks(w, h);
    while again
      invariant 0 <= i < w && 0 <= row && src == BlockStart(w, row, i)
      invariant Done(image, w, h, row, i, dst)
      invariant blocks == total - Slot(w, row, i) >= 0
      invariant again <==> blocks > 0
      decreases blocks
    {
      RowsLeft(w, h, row, i);
      StartsAt(image, w, h, row, i);
      var buf := BlockAt(image, w, src);
      src := src + 16;
      var c := ProcessRGB(buf);
      NextDone(image, w, h, row, i, dst, c);
      dst := dst + [c];
      StartMoves(w, row, i);
      SlotMoves(w, row, i);
      i := i + 1;
      if i == w {
        NextRow(image, w, h, row, dst);
        src := src + 48 * w;
        row, i := row + 1, 0;
      }
      blocks := blocks - 1;
      again := blocks != 0;
    }
    AllDone(image, w, h, row, i, dst);
  }

  lemma AtStart(image: seq<Byte>, w: nat, h: nat)
    requires IsImage(image, w, h)
    ensures Blocks(w, h) > 0 && w > 0
    ensures Done(image, w, h, 0, 0, []) && BlockStart(w, 0, 0) == 0 && Slot(w, 0, 0) == 0
  {
    assert w * h >= w * 1;
  }

  lemma StartsAt(image: seq<Byte>, w: nat, h: nat, row: nat, col: nat)
    requires IsImage(image, w, h) && row < h && col < w
    ensures BlockStart(w, row, col) + 48 * w + 16 <= |image|
    ensures ImageBlock(image, w, h, row, col) == BlockAt(image, w, BlockStart(w, row, col))
  {
    BlockFits(w, h, row, col);
  }

  lemma StartMoves(w: nat, row: nat, i: nat)
    ensures BlockStart(w, row, i) + 16 == BlockStart(w, row, i + 1)
  {
  }

  lemma SlotMoves(w: nat, row: nat, i: nat)
    ensures Slot(w, row, i + 1) == Slot(w, row, i) + 1
    ensures Slot(w, row, w) == Slot(w, row + 1, 0)
  {
    assert w * (row + 1) == w * row + w;
  }

  lemma AllDone(image: seq<Byte>, w: nat, h: nat, row: nat, i: nat, dst: seq<Compressed>)
    requires IsImage(image, w, h) && Done(image, w, h, row, i, dst) && i < w && Slot(w, row, i) == Blocks(w, h)
    ensures AllCompressed(image, w, h, dst)
  {
    hide Compress, ImageBlock;
    assert w * (row + 1) == w * row + w;
    assert row < h ==> w * (row + 1) <= w * h;
  }
}
