/**
 The state of im3d's immediate mode during a frame: where vertices go, what they become,
 and the draw lists that the frame ends with.
 */
module Im3dContext {
  import opened Im3dPrimitives
  import opened Im3dMerge
  import opened Im3dSort

  // The vertex lists of a context: [sorting][layer * 3 + type].
  type Lists = seq<seq<seq<Vertex>>>

  // Every list of every layer holds whole primitives.
  predicate AllWhole(lists: Lists) {
    forall s, i :: 0 <= s < |lists| && 0 <= i < |lists[s]| ==> |lists[s][i]| % VertsPer(i % 3) == 0
  }

  function With(lists: Lists, s: nat, i: nat, list: seq<Vertex>): (r: Lists)
    requires s < |lists| && i < |lists[s]|
    ensures |r| == |lists| && (forall t :: 0 <= t < |r| ==> |r[t]| == |lists[t]|)
    ensures r[s][i] == list
  {
    lists[s := lists[s][i := list]]
  }

  lemma WithNothing(lists: Lists, s: nat, i: nat)
    requires s < |lists| && i < |lists[s]|
    ensures With(lists, s, i, lists[s][i] + []) == lists
  {
    assert lists[s][i] + [] == lists[s][i];
    assert lists[s][i := lists[s][i]] == lists[s];
  }

  lemma Extended(lists: Lists, s: nat, i: nat, a: seq<Vertex>, b: seq<Vertex>)
    requires s < |lists| && i < |lists[s]|
    ensures var was := With(lists, s, i, lists[s][i] + a);
            With(was, s, i, was[s][i] + b) == With(lists, s, i, lists[s][i] + (a + b))
  {
    WithTwice(lists, s, i, lists[s][i] + a, lists[s][i] + (a + b));
    assert lists[s][i] + a + b == lists[s][i] + (a + b);
  }

  lemma WithTwice(lists: Lists, s: nat, i: nat, a: seq<Vertex>, b: seq<Vertex>)
    requires s < |lists| && i < |lists[s]|
    ensures With(With(lists, s, i, a), s, i, b) == With(lists, s, i, b)
  {
    assert lists[s][i := a][i := b] == lists[s][i := b];
  }

  lemma WholeAnd(lists: Lists, s: nat, i: nat, more: seq<Vertex>)
    requires s < |lists| && i < |lists[s]| && AllWhole(lists)
    requires |more| % VertsPer(i % 3) == 0
    ensures AllWhole(With(lists, s, i, lists[s][i] + more))
  {
    assert |lists[s][i]| % VertsPer(i % 3) == 0;
    SumWhole(|lists[s][i]|, |more|, i % 3);
  }

  lemma SumWhole(a: nat, b: nat, p: nat)
    requires a % VertsPer(p) == 0 && b % VertsPer(p) == 0
    ensures (a + b) % VertsPer(p) == 0
  {
  }

  // `lists` is what was there, whole, with `more` after one of the lists.
  predicate Extends(before: Lists, lists: Lists, s: nat, i: nat, more: seq<Vertex>) {
    && |before| == 2 && s < 2 && i < |before[s]|
    && AllWhole(before)
    && lists == With(before, s, i, before[s][i] + more)
  }

  lemma ExtendsMore(before: Lists, lists: Lists, s: nat, i: nat, more: seq<Vertex>, shared: seq<Vertex>, v: Vertex)
    requires Extends(before, lists, s, i, more)
    ensures var middle := With(lists, s, i, lists[s][i] + shared);
            var lists' := With(middle, s, i, middle[s][i] + [v]);
            Extends(before, lists', s, i, more + shared + [v])
  {
    Extended(before, s, i, more, shared);
    Extended(before, s, i, more + shared, [v]);
  }

  // Complete input leaves every list whole.
  lemma CompleteIsWhole(before: Lists, lists: Lists, s: nat, layer: nat, mode: Mode, given: seq<Vertex>)
    requires mode != NoPrimitive && Complete(mode, given)
    requires Extends(before, lists, s, 3 * layer + TypeOf(mode), Expand(mode, given))
    ensures AllWhole(lists)
  {
    var i := 3 * layer + TypeOf(mode);
    Remainder(layer, TypeOf(mode));
    ExpandIsWhole(mode, given);
    hide AllWhole, Expand, Complete, VertsPer;
    WholeAnd(before, s, i, Expand(mode, given));
  }

  // What a primitive adds, and to which of its layer's lists, by its mode.
  predicate AddedBy(mode: Mode, given: seq<Vertex>, before: Lists, lists: Lists, s: nat, layer: nat)
    requires s < |before| && 3 * layer + 2 < |before[s]|
  {
    match mode
    case Points => AddedTo(before, lists, s, 3 * layer + POINTS, given)
    case Lines => AddedTo(before, lists, s, 3 * layer + LINES, given)
    case Triangles => AddedTo(before, lists, s, 3 * layer + TRIANGLES, given)
    case LineStrip =>
      if |given| < 2 then lists == before else AddedTo(before, lists, s, 3 * layer + LINES, Pairs(given))
    case LineLoop =>
      if |given| < 2 then lists == before
      else AddedTo(before, lists, s, 3 * layer + LINES, Pairs(given) + [given[|given| - 1], given[0]])
    case TriangleStrip =>
      if |given| < 3 then lists == before else AddedTo(before, lists, s, 3 * layer + TRIANGLES, Triples(given))
    case NoPrimitive => lists == before
  }

  // One list has grown at its end; all others are as they were.
  predicate AddedTo(before: Lists, lists: Lists, s: nat, i: nat, more: seq<Vertex>)
    requires s < |before| && i < |before[s]|
  {
    && |lists| == |before| && |lists[s]| == |before[s]| && lists[s][i] == before[s][i] + more
    && (forall t :: 0 <= t < |before| && t != s ==> lists[t] == before[t])
    && (forall j :: 0 <= j < |before[s]| && j != i ==> lists[s][j] == before[s][j])
  }

  // A complete primitive adds that.
  lemma CompleteAdds(before: Lists, lists: Lists, s: nat, layer: nat, mode: Mode, given: seq<Vertex>)
    requires mode != NoPrimitive && Complete(mode, given) && s < |before| && 3 * layer + 2 < |before[s]|
    requires Extends(before, lists, s, 3 * layer + TypeOf(mode), Expand(mode, given))
    ensures AddedBy(mode, given, before, lists, s, layer)
  {
    hide AllWhole, Pairs, Triples;
    if Expand(mode, given) == [] { WithNothing(before, s, 3 * layer + TypeOf(mode)); }
  }

  // Whole lists have their triangles in threes and their lines in twos.
  lemma WholeMeans(lists: Lists, s: nat, layer: nat)
    requires AllWhole(lists) && s < |lists| && 3 * layer + 2 < |lists[s]|
    ensures |lists[s][3 * layer + TRIANGLES]| % 3 == 0 && |lists[s][3 * layer + LINES]| % 2 == 0
  {
    Remainder(layer, TRIANGLES);
    Remainder(layer, LINES);
    assert |lists[s][3 * layer + TRIANGLES]| % VertsPer((3 * layer + TRIANGLES) % 3) == 0;
    assert |lists[s][3 * layer + LINES]| % VertsPer((3 * layer + LINES) % 3) == 0;
  }

  // A sorted layer has its triangles sorted in threes, its lines in twos and its points one by one.
  lemma LayerSortedMeans(before: seq<seq<Vertex>>, after: seq<seq<Vertex>>, layer: nat, origin: Vec3)
    requires 3 * layer + 2 < |before| == |after| && LayerSorted(before, after, layer, origin)
    ensures Sorted(before[3 * layer + TRIANGLES], after[3 * layer + TRIANGLES], 3, origin)
    ensures Sorted(before[3 * layer + LINES], after[3 * layer + LINES], 2, origin)
    ensures Sorted(before[3 * layer + POINTS], after[3 * layer + POINTS], 1, origin)
  {
    hide Sorted;
  }

  predicate Distinct(ids: seq<int>) {
    forall i, j :: 0 <= i < j < |ids| ==> ids[i] != ids[j]
  }

  predicate Known(stack: seq<int>, ids: seq<int>) {
    forall id :: id in stack ==> id in ids
  }

  // Where an id stands.
  function PlaceOf(ids: seq<int>, id: int): (place: nat)
    requires id in ids
    ensures place < |ids| && ids[place] == id
  {
    if ids[0] == id then 0 else 1 + PlaceOf(ids[1..], id)
  }

  lemma PlaceOfIsIt(ids: seq<int>, id: int, place: nat)
    requires Distinct(ids) && place < |ids| && ids[place] == id
    ensures PlaceOf(ids, id) == place
  {
  }

  // What was stored in one list can only be found in another if it was nothing.
  lemma ExtendsElsewhere(before: Lists, lists: Lists, s: nat, i: nat, j: nat, more: seq<Vertex>)
    requires Extends(before, lists, s, i, more) && j < |before[s]|
    ensures Extends(before, lists, s, j, more) <==> i == j || more == []
  {
    if i != j && more != [] {
      assert lists[s][i] == before[s][i] + more;
      assert With(before, s, j, before[s][j] + more)[s][i] == before[s][i];
    } else if more == [] {
      WithNothing(before, s, i);
      WithNothing(before, s, j);
    }
  }

  // The unsorted draw lists: one for each list that is not empty, in order.
  function Unsorted(lists: seq<seq<Vertex>>, layerIds: seq<int>): seq<DrawList>
    requires |lists| <= 3 * |layerIds|
  {
    if lists == [] then []
    else
      var last := |lists| - 1;
      Unsorted(lists[..last], layerIds)
      + if lists[last] == [] then []
        else [DrawList(layerIds[last / 3], last % 3, 0, last, 0, |lists[last]|)]
  }

  // They show each list that is not empty once and whole, with its layer's id and its type.
  lemma {:induction false} UnsortedShows(lists: seq<seq<Vertex>>, layerIds: seq<int>)
    requires |lists| <= 3 * |layerIds|
    ensures var u := Unsorted(lists, layerIds);
            && (forall k :: 0 <= k < |u| ==>
                  && u[k].list < |lists| && lists[u[k].list] != []
                  && u[k] == DrawList(layerIds[u[k].list / 3], u[k].list % 3, 0, u[k].list, 0, |lists[u[k].list]|))
            && (forall k, l :: 0 <= k < l < |u| ==> u[k].list < u[l].list)
            && (forall i :: 0 <= i < |lists| && lists[i] != [] ==> exists k :: 0 <= k < |u| && u[k].list == i)
  {
    if lists != [] {
      var last := |lists| - 1;
      UnsortedShows(lists[..last], layerIds);
      var front, u := Unsorted(lists[..last], layerIds), Unsorted(lists, layerIds);
      assert forall k :: 0 <= k < |front| ==> u[k] == front[k];
      forall i | 0 <= i < |lists| && lists[i] != []
        ensures exists k :: 0 <= k < |u| && u[k].list == i
      {
        if i < last {
          assert lists[..last][i] != [];
          var k :| 0 <= k < |front| && front[k].list == i;
          assert u[k].list == i;
        } else {
          assert u[|front|].list == i;
        }
      }
    }
  }

  function Flat(groups: seq<seq<DrawList>>): seq<DrawList> {
    if groups == [] then [] else Flat(groups[..|groups| - 1]) + groups[|groups| - 1]
  }

  predicate SortedIn(before: seq<seq<Vertex>>, after: seq<seq<Vertex>>, layer: nat, t: nat, origin: Vec3)
    requires 3 * layer + t < |before| == |after|
  {
    Sorted(before[3 * layer + t], after[3 * layer + t], VertsPer(t), origin)
  }

  function KeysIn(lists: seq<seq<Vertex>>, layer: nat, t: nat, origin: Vec3): seq<real>
    requires 3 * layer + t < |lists|
  {
    Keys(Chunks(lists[3 * layer + t], VertsPer(t)), origin)
  }

  // Sorts the three lists of one layer.
  method SortLayer(before: seq<seq<Vertex>>, layer: nat, origin: Vec3)
    returns (lists: seq<seq<Vertex>>, keys: seq<seq<real>>)
    requires 3 * layer + 2 < |before|
    requires forall t: nat :: t < 3 ==> |before[3 * layer + t]| % VertsPer(t) == 0
    ensures |lists| == |before|
    ensures forall t: nat :: t < 3 ==> SortedIn(before, lists, layer, t, origin)
    ensures forall t :: 0 <= t < |lists| && !(3 * layer <= t < 3 * layer + 3) ==> lists[t] == before[t]
    ensures keys == LayerKeys(lists, layer, origin)
  {
    hide Sorted, Keys, Chunks;
    lists, keys := before, [];
    for i := 0 to 3
      invariant |lists| == |before| && |keys| == i
      invariant forall t :: 0 <= t < |lists| && !(3 * layer <= t < 3 * layer + i) ==> lists[t] == before[t]
      invariant forall t: nat :: t < i ==> SortedIn(before, lists, layer, t, origin)
      invariant forall t: nat :: t < i ==> keys[t] == KeysIn(lists, layer, t, origin)
    {
      var sorted, k := SortList(lists[3 * layer + i], VertsPer(i), origin);
      ghost var prev := lists;
      lists := lists[3 * layer + i := sorted];
      forall t: nat | t <= i
        ensures SortedIn(before, lists, layer, t, origin)
      {
        if t < i { assert SortedIn(before, prev, layer, t, origin); }
      }
      keys := keys + [k];
    }
  }

  predicate LayerSorted(before: seq<seq<Vertex>>, after: seq<seq<Vertex>>, layer: nat, origin: Vec3)
    requires 3 * layer + 2 < |before| == |after|
  {
    && SortedIn(before, after, layer, 0, origin)
    && SortedIn(before, after, layer, 1, origin)
    && SortedIn(before, after, layer, 2, origin)
  }

  // The first `layers` layers have been sorted, from `before` to `after`.
  predicate LayersSorted(before: seq<seq<Vertex>>, after: seq<seq<Vertex>>, layers: nat, origin: Vec3) {
    && 3 * layers <= |before| == |after|
    && (forall l: nat :: l < layers ==> LayerSorted(before, after, l, origin))
    && (forall i :: 3 * layers <= i < |after| ==> after[i] == before[i])
  }

  // Each group of draw lists shows one layer.
  predicate LayersDrawn(lists: seq<seq<Vertex>>, layerIds: seq<int>, groups: seq<seq<DrawList>>, origin: Vec3) {
    && |groups| <= |layerIds| && 3 * |layerIds| == |lists|
    && forall l :: 0 <= l < |groups| ==> Draws(LayerKeys(lists, l, origin), l, layerIds[l], groups[l])
  }

  lemma SortedInSame(first: seq<seq<Vertex>>, before: seq<seq<Vertex>>, after: seq<seq<Vertex>>,
                     first': seq<seq<Vertex>>, l: nat, t: nat, origin: Vec3)
    requires 3 * l + t < |first| == |before| == |after| == |first'|
    requires SortedIn(first, before, l, t, origin)
    requires after[3 * l + t] == before[3 * l + t] && first'[3 * l + t] == first[3 * l + t]
    ensures SortedIn(first', after, l, t, origin)
  {
    hide Sorted;
  }

  lemma LayerKeysSame(before: seq<seq<Vertex>>, after: seq<seq<Vertex>>, l: nat, origin: Vec3)
    requires 3 * l + 2 < |before| == |after|
    requires forall t :: 3 * l <= t < 3 * l + 3 ==> after[t] == before[t]
    ensures LayerKeys(after, l, origin) == LayerKeys(before, l, origin)
  {
  }

  // A change to a later layer leaves the earlier ones sorted.
  lemma SortedStep(first: seq<seq<Vertex>>, before: seq<seq<Vertex>>, after: seq<seq<Vertex>>, layer: nat, origin: Vec3)
    requires LayersSorted(first, before, layer, origin) && 3 * layer + 3 <= |before| == |after|
    requires forall t: nat :: t < 3 ==> SortedIn(before, after, layer, t, origin)
    requires forall t :: 0 <= t < |after| && !(3 * layer <= t < 3 * layer + 3) ==> after[t] == before[t]
    ensures LayersSorted(first, after, layer + 1, origin)
  {
    hide Sorted;
    forall l: nat | l < layer + 1
      ensures LayerSorted(first, after, l, origin)
    {
      if l < layer {
        assert LayerSorted(first, before, l, origin);
        SortedInSame(first, before, after, first, l, 0, origin);
        SortedInSame(first, before, after, first, l, 1, origin);
        SortedInSame(first, before, after, first, l, 2, origin);
      } else {
        SortedInSame(before, after, after, first, l, 0, origin);
        SortedInSame(before, after, after, first, l, 1, origin);
        SortedInSame(before, after, after, first, l, 2, origin);
      }
    }
  }

  // ... and drawn.
  lemma DrawnStep(before: seq<seq<Vertex>>, after: seq<seq<Vertex>>, layerIds: seq<int>, groups: seq<seq<DrawList>>,
                  runs: seq<DrawList>, origin: Vec3)
    requires LayersDrawn(before, layerIds, groups, origin) && |groups| < |layerIds| && |before| == |after|
    requires forall t :: 0 <= t < 3 * |groups| ==> after[t] == before[t]
    requires Draws(LayerKeys(after, |groups|, origin), |groups|, layerIds[|groups|], runs)
    ensures LayersDrawn(after, layerIds, groups + [runs], origin)
  {
    hide Draws, LayerKeys, Flat;
    var groups' := groups + [runs];
    forall l | 0 <= l < |groups'|
      ensures Draws(LayerKeys(after, l, origin), l, layerIds[l], groups'[l])
    {
      if l < |groups| { LayerKeysSame(before, after, l, origin); }
    }
  }

  lemma FlatNothing()
    ensures Flat([]) == []
  {
  }

  lemma FlatStep(groups: seq<seq<DrawList>>, runs: seq<DrawList>)
    ensures Flat(groups + [runs]) == Flat(groups) + runs
  {
    assert (groups + [runs])[..|groups|] == groups;
  }

  lemma SortedKeysDescend(before: seq<seq<Vertex>>, after: seq<seq<Vertex>>, layer: nat, origin: Vec3)
    requires 3 * layer + 2 < |before| == |after|
    requires forall t: nat :: t < 3 ==> SortedIn(before, after, layer, t, origin)
    ensures forall t: nat :: t < 3 ==> Descending(LayerKeys(after, layer, origin)[t])
  {
    hide Keys, Chunks, Descending;
    assert SortedIn(before, after, layer, 0, origin);
    assert SortedIn(before, after, layer, 1, origin);
    assert SortedIn(before, after, layer, 2, origin);
  }

  // Sorting keeps the length of a list.
  lemma SortedLength(before: seq<Vertex>, after: seq<Vertex>, n: Arity, origin: Vec3)
    requires Sorted(before, after, n, origin) && |before| % n == 0
    ensures |after| == |before|
  {
    ChunksCount(before, n);
    assert |multiset(Chunks(after, n))| == |multiset(Chunks(before, n))|;
    ConcatLength(Chunks(after, n), n);
  }

  lemma {:induction false} ConcatLength(chunks: seq<seq<Vertex>>, n: nat)
    requires n > 0 && forall k :: 0 <= k < |chunks| ==> |chunks[k]| == n
    ensures |Concat(chunks)| == n * |chunks|
  {
    if chunks != [] {
      var last := |chunks| - 1;
      ConcatLength(chunks[..last], n);
      assert n * |chunks| == n * last + n;
    }
  }

  lemma {:induction false} ChunksCount(list: seq<Vertex>, n: Arity)
    requires |list| % n == 0
    ensures |list| == n * |Chunks(list, n)|
  {
    Multiples(|list|, |list|, n);
    if |list| >= n {
      ChunksCount(list[n..], n);
      assert n * |Chunks(list, n)| == n * |Chunks(list[n..], n)| + n;
    }
  }

  // Whole lists stay whole.
  lemma SortedWhole(before: seq<seq<Vertex>>, after: seq<seq<Vertex>>, layers: nat, origin: Vec3, i: nat)
    requires LayersSorted(before, after, layers, origin) && i < |before| == 3 * layers
    requires |before[i]| % VertsPer(i % 3) == 0
    ensures |after[i]| == |before[i]|
  {
    hide Sorted;
    assert LayerSorted(before, after, i / 3, origin);
    assert SortedIn(before, after, i / 3, i % 3, origin) by { assert i % 3 == 0 || i % 3 == 1 || i % 3 == 2; }
    assert i == 3 * (i / 3) + i % 3;
    SortedLength(before[i], after[i], VertsPer(i % 3), origin);
  }

  lemma AllStillWhole(lists: Lists, after: seq<seq<Vertex>>, layers: nat, origin: Vec3)
    requires |lists| == 2 && AllWhole(lists) && |lists[1]| == 3 * layers
    requires LayersSorted(lists[1], after, layers, origin)
    ensures AllWhole(lists[1 := after])
  {
    assert |lists[1]| == |after|;
    forall i | 0 <= i < |after|
      ensures |after[i]| % VertsPer(i % 3) == 0
    {
      assert |lists[1][i]| % VertsPer(i % 3) == 0;
      SortedWhole(lists[1], after, layers, origin, i);
    }
  }

  // The lists of a layer that has not been sorted yet are as they were, so they are whole.
  lemma WholeLayer(lists: seq<seq<Vertex>>, before: seq<seq<Vertex>>, layer: nat)
    requires |lists| == |before| && 3 * layer + 3 <= |lists|
    requires forall i :: 3 * layer <= i < |lists| ==> lists[i] == before[i]
    requires forall i :: 0 <= i < |before| ==> |before[i]| % VertsPer(i % 3) == 0
    ensures forall t: nat :: t < 3 ==> |lists[3 * layer + t]| % VertsPer(t) == 0
  {
    forall t: nat | t < 3
      ensures |lists[3 * layer + t]| % VertsPer(t) == 0
    {
      Remainder(layer, t);
      hide VertsPer;
      assert |before[3 * layer + t]| % VertsPer((3 * layer + t) % 3) == 0;
    }
  }

  lemma Remainder(layer: nat, t: nat)
    requires t < 3
    ensures (3 * layer + t) % 3 == t
  {
  }

  lemma UnsortedStep(lists: seq<seq<Vertex>>, layerIds: seq<int>, i: nat)
    requires i < |lists| <= 3 * |layerIds|
    ensures Unsorted(lists[..i + 1], layerIds) == Unsorted(lists[..i], layerIds)
              + if lists[i] == [] then [] else [DrawList(layerIds[i / 3], i % 3, 0, i, 0, |lists[i]|)]
  {
    assert lists[..i + 1][..i] == lists[..i];
  }

  function Empty(n: nat): (r: seq<seq<Vertex>>)
    ensures |r| == n && forall k :: 0 <= k < n ==> r[k] == []
  {
    seq(n, k => [])
  }

  lemma EmptyIsWhole(n: nat)
    ensures AllWhole([Empty(n), Empty(n)])
  {
    var none: seq<Vertex> := [];
    assert forall p :: |none| % VertsPer(p) == 0;
  }

  method Clear(before: Lists) returns (lists: Lists)
    requires |before| == 2 && |before[0]| == |before[1]|
    ensures lists == [Empty(|before[0]|), Empty(|before[0]|)]
  {
    var n, first, second := |before[0]|, before[0], before[1];
    for i := 0 to n
      invariant |first| == |second| == n
      invariant forall k :: 0 <= k < i ==> first[k] == [] && second[k] == []
    {
      first, second := first[i := []], second[i := []];
    }
    assert first == Empty(n) && second == Empty(n);
    lists := [first, second];
  }

  method DrawUnsorted(lists: seq<seq<Vertex>>, ids: seq<int>, before: seq<DrawList>) returns (drawLists: seq<DrawList>)
    requires |lists| <= 3 * |ids|
    ensures drawLists == before + Unsorted(lists, ids)
  {
    drawLists := before;
    for i := 0 to |lists|
      invariant drawLists == before + Unsorted(lists[..i], ids)
    {
      UnsortedStep(lists, ids, i);
      if |lists[i]| > 0 {
        drawLists := drawLists + [DrawList(ids[i / 3], i % 3, 0, i, 0, |lists[i]|)];
      }
    }
    assert lists[..|lists|] == lists;
  }

  // Sorts and draws every layer in turn.
  method SortLayers(before: seq<seq<Vertex>>, ids: seq<int>, origin: Vec3, drawn: seq<DrawList>)
    returns (lists: seq<seq<Vertex>>, drawLists: seq<DrawList>, ghost groups: seq<seq<DrawList>>)
    requires |before| == 3 * |ids|
    requires forall i :: 0 <= i < |before| ==> |before[i]| % VertsPer(i % 3) == 0
    ensures |lists| == |before| && LayersSorted(before, lists, |ids|, origin)
    ensures |groups| == |ids| && LayersDrawn(lists, ids, groups, origin)
    ensures drawLists == drawn + Flat(groups)
  {
    lists, drawLists, groups := before, drawn, [];
    hide Sorted, Draws, LayerKeys, LayerSorted, SortedIn, Flat, Descending;
    FlatNothing();
    for layer := 0 to |ids|
      invariant |groups| == layer && |lists| == |before|
      invariant LayersSorted(before, lists, layer, origin)
      invariant LayersDrawn(lists, ids, groups, origin)
      invariant drawLists == drawn + Flat(groups)
    {
      WholeLayer(lists, before, layer);
      var sorted, keys := SortLayer(lists, layer, origin);
      SortedKeysDescend(lists, sorted, layer, origin);
      ghost var drawnBefore := drawLists;
      drawLists := Partition(keys, layer, ids[layer], drawLists);
      ghost var runs := drawLists[|drawnBefore|..];
      assert drawLists == drawnBefore + runs;
      SortedStep(before, lists, sorted, layer, origin);
      DrawnStep(lists, sorted, ids, groups, runs, origin);
      FlatStep(groups, runs);
      lists, groups := sorted, groups + [runs];
    }
  }

  class Context {
    var primMode: Mode
    var primType: nat
    var firstVert: nat
    var vertCount: nat
    var vertexData: Lists
    var vertexDataIndex: nat
    var layerIdMap: seq<int>
    var layerIndex: int
    var layerIdStack: seq<int>
    var enableSorting: seq<bool>
    var drawLists: seq<DrawList>
    var sortCalled: bool
    var endFrameCalled: bool
    // The lists as they were at Begin, and the vertices given since.
    ghost var atBegin: Lists
    ghost var given: seq<Vertex>

    // The shape of the state, whatever is being drawn.
    predicate Structure()
      reads this
    {
      && |vertexData| == 2 && |vertexData[0]| == |vertexData[1]| == 3 * |layerIdMap|
      && Distinct(layerIdMap)
      && |layerIdStack| > 0 && |enableSorting| > 0
      && Known(layerIdStack, layerIdMap)
      && 0 <= layerIndex < |layerIdMap| && layerIdMap[layerIndex] == layerIdStack[|layerIdStack| - 1]
      && vertexDataIndex == (if enableSorting[|enableSorting| - 1] then 1 else 0)
    }

    // The list that vertices go to.
    function Current(): nat
      requires Structure()
      reads this
    {
      3 * layerIndex + primType
    }

    // Between primitives every list is whole; inside one, the current list is what it was
    // followed by what the vertices given have become, and the others are as they were.
    ghost predicate Progress()
      requires Structure()
      reads this
    {
      if primMode == NoPrimitive then AllWhole(vertexData)
      else
        && primType == TypeOf(primMode)
        && vertCount == |Open(primMode, given)|
        && Extends(atBegin, vertexData, vertexDataIndex, Current(), Open(primMode, given))
        && firstVert == |atBegin[vertexDataIndex][Current()]|
    }

    ghost predicate Valid()
      reads this
    {
      Structure() && Progress()
    }

    constructor ()
      ensures Valid() && primMode == NoPrimitive
      ensures layerIdMap == [0] && layerIdStack == [0] && enableSorting == [false]
      ensures vertexData == [[[], [], []], [[], [], []]] && drawLists == []
      ensures !sortCalled && !endFrameCalled
    {
      primMode, primType, firstVert, vertCount := NoPrimitive, TYPES, 0, 0;
      sortCalled, endFrameCalled := false, false;
      vertexDataIndex, enableSorting := 0, [false];
      layerIdMap, layerIndex, layerIdStack := [0], 0, [0];
      vertexData := [[[], [], []], [[], [], []]];
      drawLists := [];
      atBegin, given := [], [];
    }

    method Begin(mode: Mode)
      requires Valid() && !endFrameCalled && primMode == NoPrimitive
      requires mode != NoPrimitive
      modifies `primMode, `primType, `vertCount, `firstVert, `atBegin, `given
      ensures Valid()
      ensures primMode == mode && given == [] && atBegin == vertexData
      ensures mode == Points ==> Current() == 3 * layerIndex + POINTS
      ensures mode in {Lines, LineStrip, LineLoop} ==> Current() == 3 * layerIndex + LINES
      ensures mode in {Triangles, TriangleStrip} ==> Current() == 3 * layerIndex + TRIANGLES
    {
      primMode := mode;
      vertCount := 0;
      primType := TypeOf(mode);
      firstVert := |vertexData[vertexDataIndex][Current()]|;
      atBegin, given := vertexData, [];
      WithNothing(vertexData, vertexDataIndex, Current());
    }

    // Appends a vertex to the current list.
    method Push(v: Vertex)
      requires Structure() && primType < 3
      modifies `vertexData
      ensures Structure()
      ensures var i := Current();
              vertexData == With(old(vertexData), vertexDataIndex, i, old(vertexData)[vertexDataIndex][i] + [v])
    {
      var i := Current();
      var lists := vertexData[vertexDataIndex];
      vertexData := vertexData[vertexDataIndex := lists[i := lists[i] + [v]]];
    }

    // The k-th vertex from the end of the current list.
    function FromEnd(k: nat): Vertex
      requires Structure() && primType < 3
      requires 0 < k <= |vertexData[vertexDataIndex][Current()]|
      reads this
    {
      var list := vertexData[vertexDataIndex][Current()];
      list[|list| - k]
    }

    // The vertices that a strip's next primitive shares with the last one are stored again.
    method RepeatLast()
      requires Structure() && primType < 3 && |vertexData[vertexDataIndex][Current()]| >= 1
      modifies `vertexData, `vertCount
      ensures Structure() && vertCount == old(vertCount) + 1
      ensures var i, was := Current(), old(vertexData);
              var list := was[vertexDataIndex][i];
              vertexData == With(was, vertexDataIndex, i, list + [list[|list| - 1]])
    {
      Push(FromEnd(1));
      vertCount := vertCount + 1;
    }

    method RepeatLastTwo()
      requires Structure() && primType < 3 && |vertexData[vertexDataIndex][Current()]| >= 2
      modifies `vertexData, `vertCount
      ensures Structure() && vertCount == old(vertCount) + 2
      ensures var i, was := Current(), old(vertexData);
              var list := was[vertexDataIndex][i];
              vertexData == With(was, vertexDataIndex, i, list + [list[|list| - 2], list[|list| - 1]])
    {
      ghost var was, s, i := vertexData, vertexDataIndex, Current();
      ghost var list := was[s][i];
      hide With;
      var second := FromEnd(2);
      Push(second);
      var last := FromEnd(2);
      Push(last);
      vertCount := vertCount + 2;
      WithTwice(was, s, i, list + [second], list + [second] + [last]);
      assert list + [second] + [last] == list + [second, last];
    }

    // The part of `vertex` before the new vertex itself is stored.
    method RepeatShared()
      requires Valid() && primMode != NoPrimitive
      modifies `vertexData, `vertCount
      ensures Structure() && vertCount == |Open(primMode, given)| + |Shared(primMode, given)|
      ensures vertexData == With(old(vertexData), vertexDataIndex, Current(),
                                 old(vertexData)[vertexDataIndex][Current()] + Shared(primMode, given))
    {
      OpenTail(primMode, given);
      WithNothing(vertexData, vertexDataIndex, Current());
      hide Distinct, Known, With, AllWhole, Open;
      if (primMode == LineStrip || primMode == LineLoop) && vertCount >= 2 {
        assert Shared(primMode, given) == [FromEnd(1)];
        RepeatLast();
      } else if primMode == TriangleStrip && vertCount >= 3 {
        assert Shared(primMode, given) == [FromEnd(2), FromEnd(1)];
        RepeatLastTwo();
      } else {
        assert Shared(primMode, given) == [];
      }
    }

    method AddVertex(v: Vertex)
      requires Valid() && primMode != NoPrimitive
      modifies `vertexData, `vertCount, `given
      ensures Valid()
      ensures given == old(given) + [v]
    {
      ghost var open, shared := Open(primMode, given), Shared(primMode, given);
      OpenStep(primMode, given, v);
      ExtendsMore(atBegin, vertexData, vertexDataIndex, Current(), open, shared, v);
      hide Distinct, Known, With, Extends, Open, Shared;
      RepeatShared();
      Push(v);
      vertCount := vertCount + 1;
      given := given + [v];
    }

    // The part of `end` that closes a loop: its last vertex and its first one.
    method CloseLoop()
      requires Valid() && primMode == LineLoop && vertCount > 0
      modifies `vertexData
      ensures Structure()
      ensures Extends(atBegin, vertexData, vertexDataIndex, Current(),
                      Open(LineLoop, given) + [given[|given| - 1], given[0]])
    {
      ghost var open := Open(LineLoop, given);
      OpenTail(primMode, given);
      var back := FromEnd(1);
      var front := vertexData[vertexDataIndex][Current()][firstVert];
      ExtendsMore(atBegin, vertexData, vertexDataIndex, Current(), open, [back], front);
      assert open + [back] + [front] == open + [given[|given| - 1], given[0]];
      hide Distinct, Known, With, AllWhole, Open, Extends;
      Push(back);
      front := vertexData[vertexDataIndex][Current()][firstVert];
      Push(front);
    }

    lemma AtBeginHasLayer()
      requires Valid() && primMode != NoPrimitive
      ensures vertexDataIndex < |atBegin| && 3 * layerIndex + 2 < |atBegin[vertexDataIndex]|
    {
      hide AllWhole, Open, Distinct, Known;
    }

    method End()
      requires Valid() && primMode != NoPrimitive
      requires EndAssertions(primMode, vertCount)
      modifies `vertexData, `primMode, `primType
      ensures Valid() && primMode == NoPrimitive
      ensures Extends(atBegin, vertexData, vertexDataIndex, old(Current()), Expand(old(primMode), given))
      ensures AddedBy(old(primMode), given, atBegin, vertexData, vertexDataIndex, layerIndex)
    {
      AssertionsAcceptComplete(primMode, given);
      ExpandIs(primMode, given);
      AtBeginHasLayer();
      hide Distinct, Known, With, AllWhole, Extends, Open, Expand, Complete, EndAssertions, AddedBy;
      if vertCount > 0 && primMode == LineLoop {
        CloseLoop();
      }
      CompleteIsWhole(atBegin, vertexData, vertexDataIndex, layerIndex, primMode, given);
      CompleteAdds(atBegin, vertexData, vertexDataIndex, layerIndex, primMode, given);
      primMode := NoPrimitive;
      primType := TYPES;
    }

    method PushEnableSorting(enable: bool)
      requires Valid() && primMode == NoPrimitive
      modifies `vertexDataIndex, `enableSorting
      ensures Valid() && enableSorting == old(enableSorting) + [enable]
    {
      vertexDataIndex := if enable then 1 else 0;
      enableSorting := enableSorting + [enable];
    }

    method PopEnableSorting()
      requires Valid() && primMode == NoPrimitive && |enableSorting| > 1
      modifies `vertexDataIndex, `enableSorting
      ensures Valid() && enableSorting == old(enableSorting[..|enableSorting| - 1])
    {
      enableSorting := enableSorting[..|enableSorting| - 1];
      vertexDataIndex := if enableSorting[|enableSorting| - 1] then 1 else 0;
    }

    method SetEnableSorting(enable: bool)
      requires Valid() && primMode == NoPrimitive
      modifies `vertexDataIndex, `enableSorting
      ensures Valid() && enableSorting == old(enableSorting[..|enableSorting| - 1]) + [enable]
    {
      vertexDataIndex := if enable then 1 else 0;
      enableSorting := enableSorting[|enableSorting| - 1 := enable];
    }

    method FindLayerIndex(id: int) returns (index: int)
      ensures index == -1 ==> id !in layerIdMap
      ensures index != -1 ==> 0 <= index < |layerIdMap| && layerIdMap[index] == id
    {
      for i := 0 to |layerIdMap|
        invariant forall k :: 0 <= k < i ==> layerIdMap[k] != id
      {
        if layerIdMap[i] == id { return i; }
      }
      return -1;
    }

    method PushLayerId(layer: int)
      requires Valid() && primMode == NoPrimitive
      modifies `layerIdMap, `vertexData, `layerIdStack, `layerIndex
      ensures Valid() && layerIdStack == old(layerIdStack) + [layer]
      ensures layer in old(layerIdMap) ==> layerIdMap == old(layerIdMap) && vertexData == old(vertexData)
      ensures layer !in old(layerIdMap) ==>
                && layerIdMap == old(layerIdMap) + [layer]
                && vertexData == [old(vertexData[0]) + [[], [], []], old(vertexData[1]) + [[], [], []]]
    {
      var idx := FindLayerIndex(layer);
      if idx == -1 {
        idx := |layerIdMap|;
        layerIdMap := layerIdMap + [layer];
        var fresh0, fresh1 := vertexData[0], vertexData[1];
        ghost var n := |fresh0|;
        for i := 0 to 3
          invariant |fresh0| == |fresh1| == n + i
          invariant fresh0[..n] == old(vertexData[0]) && fresh1[..n] == old(vertexData[1])
          invariant forall k :: n <= k < n + i ==> fresh0[k] == [] && fresh1[k] == []
        {
          fresh0 := fresh0 + [[]];
          fresh1 := fresh1 + [[]];
        }
        assert fresh0 == fresh0[..n] + fresh0[n..] && fresh1 == fresh1[..n] + fresh1[n..];
        assert fresh0[n..] == [[], [], []] && fresh1[n..] == [[], [], []];
        vertexData := [fresh0, fresh1];
      }
      layerIdStack := layerIdStack + [layer];
      layerIndex := idx;
    }

    // Whether an open primitive survives the loss of the top layer: the layer below is the same
    // one, or nothing has been stored yet and the list there happens to be as long.
    ghost predicate PopIsSafe()
      requires Valid() && |layerIdStack| > 1
      reads this
    {
      var below := layerIdStack[|layerIdStack| - 2];
      || primMode == NoPrimitive
      || below == layerIdStack[|layerIdStack| - 1]
      || (vertCount == 0 && firstVert == |vertexData[vertexDataIndex][3 * PlaceOf(layerIdMap, below) + primType]|)
    }

    // Nothing stops a caller from popping inside a primitive.
    method PopLayerId()
      requires Structure() && |layerIdStack| > 1
      modifies `layerIdStack, `layerIndex
      ensures Structure() && layerIdStack == old(layerIdStack[..|layerIdStack| - 1])
      ensures old(Valid()) ==> (Valid() <==> old(PopIsSafe()))
    {
      ghost var was, list := layerIndex, Current();
      var top := |layerIdStack| - 1;
      PlaceOfIsIt(layerIdMap, layerIdStack[top], was);
      assert layerIdStack[top - 1] in layerIdStack;
      layerIdStack := layerIdStack[..top];
      layerIndex := FindLayerIndex(layerIdStack[|layerIdStack| - 1]);
      PlaceOfIsIt(layerIdMap, layerIdStack[top - 1], layerIndex);
      if old(Valid()) && primMode != NoPrimitive {
        ExtendsElsewhere(atBegin, vertexData, vertexDataIndex, list, Current(), Open(primMode, given));
      }
    }

    // A new frame: the lists are emptied, the layers stay.
    method Reset()
      requires Valid() && primMode == NoPrimitive
      requires |enableSorting| == 1 && |layerIdStack| == 1
      modifies `primType, `vertexData, `drawLists, `sortCalled, `endFrameCalled
      ensures Valid()
      ensures vertexData == [Empty(3 * |layerIdMap|), Empty(3 * |layerIdMap|)]
      ensures drawLists == [] && !sortCalled && !endFrameCalled
    {
      EmptyIsWhole(3 * |layerIdMap|);
      hide Distinct, Known, AllWhole;
      primType := TYPES;
      vertexData := Clear(vertexData);
      drawLists := [];
      sortCalled, endFrameCalled := false, false;
    }

    // Sorts every layer and appends the draw lists of each, one group per layer.
    method Sort(origin: Vec3) returns (ghost groups: seq<seq<DrawList>>)
      requires Structure() && AllWhole(vertexData)
      modifies `vertexData, `drawLists, `sortCalled
      ensures Structure() && AllWhole(vertexData) && sortCalled
      ensures vertexData[0] == old(vertexData[0])
      ensures LayersSorted(old(vertexData[1]), vertexData[1], |layerIdMap|, origin)
      ensures |groups| == |layerIdMap| && LayersDrawn(vertexData[1], layerIdMap, groups, origin)
      ensures drawLists == old(drawLists) + Flat(groups)
    {
      var lists, draws;
      hide Sorted, Draws, LayerKeys, LayersSorted, LayersDrawn;
      lists, draws, groups := SortLayers(vertexData[1], layerIdMap, origin, drawLists);
      AllStillWhole(vertexData, lists, |layerIdMap|, origin);
      vertexData := vertexData[1 := lists];
      drawLists := draws;
      sortCalled := true;
    }

    // The draw lists of a frame: the unsorted lists, then layer by layer the sorted ones.
    method EndFrame(origin: Vec3) returns (ghost groups: seq<seq<DrawList>>)
      requires Structure() && AllWhole(vertexData) && !endFrameCalled
      modifies `vertexData, `drawLists, `sortCalled, `endFrameCalled
      ensures Structure() && AllWhole(vertexData) && sortCalled && endFrameCalled
      ensures vertexData[0] == old(vertexData[0])
      ensures old(sortCalled) ==> vertexData[1] == old(vertexData[1]) && groups == []
      ensures !old(sortCalled) ==>
                && LayersSorted(old(vertexData[1]), vertexData[1], |layerIdMap|, origin)
                && |groups| == |layerIdMap| && LayersDrawn(vertexData[1], layerIdMap, groups, origin)
      ensures drawLists == old(drawLists) + Unsorted(vertexData[0], layerIdMap) + Flat(groups)
    {
      hide LayersSorted, LayersDrawn, AllWhole, Unsorted;
      endFrameCalled := true;
      drawLists := DrawUnsorted(vertexData[0], layerIdMap, drawLists);
      groups := [];
      if !sortCalled {
        groups := Sort(origin);
      }
    }
  }
  // A primitive that does not survive: a layer is popped after its first vertex.
  method PopInsidePrimitive(layer: int, v: Vertex) returns (c: Context)
    requires layer != 0
    ensures fresh(c) && c.Structure() && c.primMode == Lines && !c.Valid()
    ensures c.layerIdMap == [0, layer] && c.Current() == LINES
    ensures c.vertexData[0][LINES] == [] && c.vertexData[0][3 + LINES] == [v]
  {
    c := new Context();
    c.PushLayerId(layer);
    c.Begin(Lines);
    c.AddVertex(v);
    c.PopLayerId();
  }
}
