/**
 Sorting one of im3d's vertex lists by distance from the viewer, a whole primitive at a time.
 */
module Im3dSort {
  import opened Im3dPrimitives
  import opened Im3dMerge

  datatype Vec3 = Vec3(x: real, y: real, z: real)

  // The key and the index of the first vertex of a primitive.
  datatype SortData = SortData(key: real, start: nat)

  function Length2(v: Vertex, origin: Vec3): real {
    (v.x - origin.x) * (v.x - origin.x) + (v.y - origin.y) * (v.y - origin.y) + (v.z - origin.z) * (v.z - origin.z)
  }

  function TotalLength2(vs: seq<Vertex>, origin: Vec3): real {
    if vs == [] then 0.0 else TotalLength2(vs[..|vs| - 1], origin) + Length2(vs[|vs| - 1], origin)
  }

  // The mean squared distance of the vertices of a primitive from the viewer.
  function Key(prim: seq<Vertex>, origin: Vec3): real
    requires |prim| > 0
  {
    TotalLength2(prim, origin) / |prim| as real
  }

  // For a point, a line and a triangle.
  lemma KeysOfPrimitives(a: Vertex, b: Vertex, c: Vertex, o: Vec3)
    ensures Key([a], o) == Length2(a, o)
    ensures 2.0 * Key([a, b], o) == Length2(a, o) + Length2(b, o)
    ensures 3.0 * Key([a, b, c], o) == Length2(a, o) + Length2(b, o) + Length2(c, o)
  {
    assert [a, b][..1] == [a] && [a, b, c][..2] == [a, b];
    assert TotalLength2([a], o) == Length2(a, o);
    assert TotalLength2([a, b], o) == Length2(a, o) + Length2(b, o);
  }

  // It is the sum of those along the three axes, each the square of a difference.
  lemma Length2Is(v: Vertex, o: Vec3, d: real)
    ensures Length2(v, Vec3(v.x, v.y, o.z)) + Length2(v, Vec3(v.x, o.y, v.z)) + Length2(v, Vec3(o.x, v.y, v.z))
         == Length2(v, o)
    ensures Length2(v, Vec3(v.x - d, v.y, v.z)) == Length2(v, Vec3(v.x, v.y - d, v.z)) == d * d
    ensures Length2(v, Vec3(v.x, v.y, v.z - d)) == d * d
  {
  }

  // The primitives of n vertices that a list is made of.
  function Chunks(list: seq<Vertex>, n: nat): (r: seq<seq<Vertex>>)
    requires n > 0
    ensures forall k :: 0 <= k < |r| ==> |r[k]| == n
  {
    if |list| < n then [] else [list[..n]] + Chunks(list[n..], n)
  }

  function Keys(chunks: seq<seq<Vertex>>, origin: Vec3): (r: seq<real>)
    requires forall k :: 0 <= k < |chunks| ==> |chunks[k]| > 0
    ensures |r| == |chunks| && forall k :: 0 <= k < |r| ==> r[k] == Key(chunks[k], origin)
  {
    seq(|chunks|, k requires 0 <= k < |chunks| => Key(chunks[k], origin))
  }

  // The keys of the three lists of one layer.
  function LayerKeys(lists: seq<seq<Vertex>>, layer: nat, origin: Vec3): (r: seq<seq<real>>)
    requires 3 * layer + 2 < |lists|
    ensures |r| == 3
  {
    [Keys(Chunks(lists[3 * layer], VertsPer(0)), origin),
     Keys(Chunks(lists[3 * layer + 1], VertsPer(1)), origin),
     Keys(Chunks(lists[3 * layer + 2], VertsPer(2)), origin)]
  }

  predicate InList(list: seq<Vertex>, n: nat, a: seq<SortData>) { forall d :: d in a ==> d.start + n <= |list| }

  // The chunks that start at the given places.
  function Picked(list: seq<Vertex>, n: nat, data: seq<SortData>): (r: seq<seq<Vertex>>)
    requires forall d :: d in data ==> d.start + n <= |list|
    ensures |r| == |data| && forall k :: 0 <= k < |r| ==> r[k] == list[data[k].start..data[k].start + n]
  {
    seq(|data|, k requires 0 <= k < |data| => list[data[k].start..data[k].start + n])
  }

  function Concat(chunks: seq<seq<Vertex>>): seq<Vertex> {
    if chunks == [] then [] else Concat(chunks[..|chunks| - 1]) + chunks[|chunks| - 1]
  }

  lemma {:induction false} ConcatFront(chunk: seq<Vertex>, chunks: seq<seq<Vertex>>)
    ensures Concat([chunk] + chunks) == chunk + Concat(chunks)
  {
    var all, last := [chunk] + chunks, |chunks| - 1;
    if chunks == [] {
      assert Concat(all) == Concat([]) + chunk;
    } else {
      ConcatFront(chunk, chunks[..last]);
      assert all[..|all| - 1] == [chunk] + chunks[..last];
      assert Concat(all) == chunk + Concat(chunks[..last]) + chunks[last];
    }
  }

  // Cutting up what was put together gives the same pieces.
  lemma {:induction false} ChunksOfConcat(chunks: seq<seq<Vertex>>, n: nat)
    requires n > 0 && forall k :: 0 <= k < |chunks| ==> |chunks[k]| == n
    ensures Chunks(Concat(chunks), n) == chunks
  {
    if chunks != [] {
      ChunksOfConcat(chunks[1..], n);
      ConcatFront(chunks[0], chunks[1..]);
      assert [chunks[0]] + chunks[1..] == chunks;
      var all := Concat(chunks);
      assert all[..n] == chunks[0] && all[n..] == Concat(chunks[1..]);
    }
  }

  // The number of vertices of a primitive.
  type Arity = n: nat | 1 <= n <= 3 witness 1

  lemma Multiples(v: nat, length: nat, n: Arity)
    requires v % n == 0 && length % n == 0
    ensures (v + n) % n == 0 && (v >= n ==> (v - n) % n == 0)
    ensures v < length ==> v + n <= length
    ensures v < n ==> v == 0
  {
    if n == 1 {} else if n == 2 {} else {}
  }

  lemma {:induction false} ChunksEnd(list: seq<Vertex>, n: Arity, m: nat)
    requires m + n <= |list| && m % n == 0
    ensures Chunks(list[..m + n], n) == Chunks(list[..m], n) + [list[m..m + n]]
    decreases m
  {
    Multiples(m, m, n);
    if m < n {
      assert list[..n][..n] == list[..n] && list[..n][n..] == [];
      assert list[0..n] == list[..n] && list[..0] == [];
    } else {
      ChunksEnd(list[n..], n, m - n);
      assert list[..m + n][n..] == list[n..][..m] && list[..m][n..] == list[n..][..m - n];
      assert list[n..][m - n..m] == list[m..m + n];
      assert list[..m + n][..n] == list[..n] == list[..m][..n];
    }
  }

  // The keys of sort data are those of the primitives it points to.
  predicate Keyed(list: seq<Vertex>, n: nat, origin: Vec3, data: seq<SortData>) {
    forall d :: d in data ==> n > 0 && d.start + n <= |list| && d.key == Key(list[d.start..d.start + n], origin)
  }

  predicate IsDescending(data: seq<SortData>) {
    forall i, j :: 0 <= i < j < |data| ==> data[j].key <= data[i].key
  }

  // The key of the primitive that starts at v, and the vertex after it.
  method MeasureOne(list: seq<Vertex>, n: Arity, origin: Vec3, start: nat) returns (key: real, v: nat)
    requires start + n <= |list|
    ensures v == start + n && key == Key(list[start..v], origin)
  {
    key, v := 0.0, start;
    for j := 0 to n
      invariant v == start + j
      invariant key == TotalLength2(list[start..v], origin)
    {
      assert list[start..v + 1][..v - start] == list[start..v];
      key := key + Length2(list[v], origin);
      v := v + 1;
    }
    key := key / n as real;
  }

  // The sort data of a list, in list order.
  method Measure(list: seq<Vertex>, n: Arity, origin: Vec3) returns (data: seq<SortData>)
    requires |list| % n == 0
    ensures Keyed(list, n, origin, data)
    ensures Picked(list, n, data) == Chunks(list, n)
  {
    hide Chunks, Key;
    data := [];
    var v := 0;
    NoChunks(list, n);
    while v != |list|
      invariant v <= |list| && v % n == 0
      invariant Keyed(list, n, origin, data)
      invariant Picked(list, n, data) == Chunks(list[..v], n)
      decreases |list| - v
    {
      Multiples(v, |list|, n);
      var start := v;
      var key;
      key, v := MeasureOne(list, n, origin, start);
      ChunksEnd(list, n, start);
      PickedEnd(list, n, data, SortData(key, start));
      data := data + [SortData(key, start)];
    }
    assert list[..v] == list;
  }

  lemma NoChunks(list: seq<Vertex>, n: Arity)
    ensures Chunks(list[..0], n) == []
  {
  }

  lemma PickedEnd(list: seq<Vertex>, n: nat, data: seq<SortData>, d: SortData)
    requires d.start + n <= |list| && forall e :: e in data ==> e.start + n <= |list|
    ensures Picked(list, n, data + [d]) == Picked(list, n, data) + [list[d.start..d.start + n]]
  {
  }

  // How many of the entries of descending data come before d, if entries of the same key do.
  method Place(sorted: seq<SortData>, d: SortData) returns (j: nat)
    requires IsDescending(sorted)
    ensures j <= |sorted| && (j < |sorted| ==> sorted[j].key < d.key)
    ensures forall k :: 0 <= k < j ==> d.key <= sorted[k].key
  {
    j := 0;
    while j < |sorted| && d.key <= sorted[j].key
      invariant j <= |sorted|
      invariant forall k :: 0 <= k < j ==> d.key <= sorted[k].key
    {
      j := j + 1;
    }
  }

  // The library's sort: descending by key, in no promised order among equal keys.
  method QSort(data: seq<SortData>) returns (sorted: seq<SortData>)
    ensures IsDescending(sorted) && multiset(sorted) == multiset(data)
  {
    sorted := [];
    for i := 0 to |data|
      invariant IsDescending(sorted) && multiset(sorted) == multiset(data[..i])
    {
      var j := Place(sorted, data[i]);
      Inserted(sorted, j, data[i]);
      hide IsDescending;
      assert data[..i + 1] == data[..i] + [data[i]];
      sorted := sorted[..j] + [data[i]] + sorted[j..];
    }
    assert data[..|data|] == data;
  }

  lemma Inserted(sorted: seq<SortData>, j: nat, d: SortData)
    requires j <= |sorted| && IsDescending(sorted)
    requires forall k :: 0 <= k < j ==> d.key <= sorted[k].key
    requires j < |sorted| ==> sorted[j].key < d.key
    ensures IsDescending(sorted[..j] + [d] + sorted[j..])
    ensures multiset(sorted[..j] + [d] + sorted[j..]) == multiset(sorted) + multiset{d}
  {
    var r := sorted[..j] + [d] + sorted[j..];
    forall a, b | 0 <= a < b < |r|
      ensures r[b].key <= r[a].key
    {
      if a < j && b > j { assert sorted[b - 1].key <= sorted[a].key; }
      if a == j && b > j { assert sorted[b - 1].key <= sorted[j].key; }
    }
    InsertedSame(sorted, j, d);
  }

  lemma InsertedSame<T>(sorted: seq<T>, j: nat, d: T)
    requires j <= |sorted|
    ensures multiset(sorted[..j] + [d] + sorted[j..]) == multiset(sorted) + multiset{d}
  {
    assert sorted == sorted[..j] + sorted[j..];
  }

  lemma Removed<T>(s: seq<T>, j: nat)
    requires j < |s|
    ensures multiset(s) == multiset(s[..j] + s[j + 1..]) + multiset{s[j]}
  {
    assert s == s[..j] + [s[j]] + s[j + 1..];
  }

  lemma ConcatPicked(list: seq<Vertex>, n: nat, data: seq<SortData>, i: nat)
    requires InList(list, n, data) && i < |data| && data[i].start + n <= |list|
    ensures InList(list, n, data[..i]) && InList(list, n, data[..i + 1])
    ensures Concat(Picked(list, n, data[..i + 1]))
         == Concat(Picked(list, n, data[..i])) + list[data[i].start..data[i].start + n]
  {
    assert Picked(list, n, data[..i + 1])[..i] == Picked(list, n, data[..i]);
  }

  // Appends the n vertices from a place on.
  method AppendChunk(before: seq<Vertex>, list: seq<Vertex>, start: nat, n: nat) returns (ret: seq<Vertex>)
    requires start + n <= |list|
    ensures ret == before + list[start..start + n]
  {
    ret := before;
    for j := 0 to n
      invariant ret == before + list[start..start + j]
    {
      ret := ret + [list[start + j]];
    }
  }

  method Reorder(list: seq<Vertex>, data: seq<SortData>, n: nat) returns (ret: seq<Vertex>)
    requires InList(list, n, data)
    ensures ret == Concat(Picked(list, n, data))
  {
    ret := [];
    for i := 0 to |data|
      invariant ret == Concat(Picked(list, n, data[..i]))
    {
      ConcatPicked(list, n, data, i);
      hide Concat, Picked;
      ret := AppendChunk(ret, list, data[i].start, n);
    }
    assert data[..|data|] == data;
  }

  lemma {:induction false} RemovedBoth<T>(a: seq<T>, b: seq<T>, j: nat)
    requires a != [] && j < |b| && b[j] == a[0] && multiset(a) == multiset(b)
    ensures multiset(a[1..]) == multiset(b[..j] + b[j + 1..])
  {
    Removed(b, j);
    assert a == [a[0]] + a[1..];
    assert multiset(a[1..]) == multiset(a) - multiset{a[0]};
    assert multiset(b[..j] + b[j + 1..]) == multiset(b) - multiset{b[j]};
  }

  lemma PutBack<T>(a: seq<T>, b: seq<T>, j: nat)
    requires a != [] && j < |b| && b[j] == a[0] && multiset(a[1..]) == multiset(b[..j] + b[j + 1..])
    ensures multiset(a) == multiset(b)
  {
    Removed(b, j);
    assert a == [a[0]] + a[1..];
  }

  lemma {:induction false} PickedRemoved(list: seq<Vertex>, n: nat, a: seq<SortData>, j: nat)
    requires InList(list, n, a) && j < |a|
    ensures InList(list, n, a[..j] + a[j + 1..])
    ensures Picked(list, n, a[..j] + a[j + 1..]) == Picked(list, n, a)[..j] + Picked(list, n, a)[j + 1..]
  {
  }

  lemma {:induction false} PickedTail(list: seq<Vertex>, n: nat, a: seq<SortData>)
    requires InList(list, n, a) && a != []
    ensures InList(list, n, a[1..]) && Picked(list, n, a[1..]) == Picked(list, n, a)[1..]
  {
  }

  lemma PickedSame(list: seq<Vertex>, n: nat, a: seq<SortData>, b: seq<SortData>, j: nat)
    requires InList(list, n, a) && InList(list, n, b) && a != [] && j < |b| && b[j] == a[0]
    ensures Picked(list, n, b)[j] == Picked(list, n, a)[0]
  {
  }

  lemma {:induction false} PickedPutBack(list: seq<Vertex>, n: nat, a: seq<SortData>, b: seq<SortData>, j: nat)
    requires InList(list, n, a) && InList(list, n, b) && a != [] && j < |b| && b[j] == a[0]
    requires InList(list, n, a[1..]) && InList(list, n, b[..j] + b[j + 1..])
    requires multiset(Picked(list, n, a[1..])) == multiset(Picked(list, n, b[..j] + b[j + 1..]))
    ensures multiset(Picked(list, n, a)) == multiset(Picked(list, n, b))
  {
    hide Picked;
    PickedTail(list, n, a);
    PickedRemoved(list, n, b, j);
    PickedSame(list, n, a, b, j);
    PutBack(Picked(list, n, a), Picked(list, n, b), j);
  }

  // Picking in another order gives the same pieces in another order.
  lemma {:induction false} PickedPermutes(list: seq<Vertex>, n: nat, a: seq<SortData>, b: seq<SortData>)
    requires multiset(a) == multiset(b)
    requires forall d :: d in a ==> d.start + n <= |list|
    ensures forall d :: d in b ==> d.start + n <= |list|
    ensures multiset(Picked(list, n, a)) == multiset(Picked(list, n, b))
  {
    SameMembers(a, b);
    if a != [] {
      assert a[0] in multiset(b);
      var j :| 0 <= j < |b| && b[j] == a[0];
      RemovedBoth(a, b, j);
      var b' := b[..j] + b[j + 1..];
      PickedPermutes(list, n, a[1..], b');
      PickedPutBack(list, n, a, b, j);
    } else {
      assert |b| == |multiset(b)| == |multiset(a)|;
    }
  }

  lemma SameMembers<T>(a: seq<T>, b: seq<T>)
    requires multiset(a) == multiset(b)
    ensures forall d :: d in b <==> d in a
  {
    forall d
      ensures d in b <==> d in a
    {
      assert d in multiset(b) <==> d in multiset(a);
    }
  }

  // One list after sorting: the same primitives, whole, from the farthest to the nearest.
  predicate Sorted(before: seq<Vertex>, after: seq<Vertex>, n: nat, origin: Vec3)
    requires n > 0
  {
    && multiset(Chunks(after, n)) == multiset(Chunks(before, n))
    && after == Concat(Chunks(after, n))
    && Descending(Keys(Chunks(after, n), origin))
  }

  method SortList(list: seq<Vertex>, n: Arity, origin: Vec3) returns (sorted: seq<Vertex>, keys: seq<real>)
    requires |list| % n == 0
    ensures Sorted(list, sorted, n, origin)
    ensures keys == Keys(Chunks(sorted, n), origin)
  {
    hide Chunks, Key, Concat;
    var data := Measure(list, n, origin);
    var ordered := QSort(data);
    PickedPermutes(list, n, data, ordered);
    sorted := Reorder(list, ordered, n);
    ChunksOfConcat(Picked(list, n, ordered), n);
    SameMembers(ordered, data);
    keys := seq(|ordered|, k requires 0 <= k < |ordered| => ordered[k].key);
    var chunks := Chunks(sorted, n);
    forall k | 0 <= k < |keys|
      ensures keys[k] == Key(chunks[k], origin)
    {
      assert ordered[k] in ordered;
    }
    assert keys == Keys(chunks, origin);
  }
}
