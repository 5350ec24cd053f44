/**
 How im3d's sort partitions the primitives of one layer into draw lists: three lists of
 primitives, each in descending order of distance, are merged back to front, and every
 maximal run of primitives of one type becomes a draw list.
 */
module Im3dMerge {
  import opened Options
  import opened Im3dPrimitives

  // A contiguous slice of a vertex list: `sorting` and `list` say which list it is.
  datatype DrawList = DrawList(layerId: int, primType: nat, sorting: nat, list: nat, offset: nat, count: nat)

  // A primitive: its type and its position in the sorted list of that type.
  type Primitive = (nat, nat)

  function Upto(n: nat): (r: seq<nat>)
    ensures |r| == n && forall i :: 0 <= i < n ==> r[i] == i
  {
    if n == 0 then [] else Upto(n - 1) + [n - 1]
  }

  // The primitives that a draw list shows, in order.
  function Shows(dl: DrawList): (r: seq<Primitive>)
    ensures |r| == dl.count / VertsPer(dl.primType)
  {
    var n := VertsPer(dl.primType);
    seq(dl.count / n, j => (dl.primType, dl.offset / n + j))
  }

  // The index after the last primitive of a draw list.
  function End(dl: DrawList): int { (dl.offset + dl.count) / VertsPer(dl.primType) }

  predicate IsWhole(dl: DrawList) {
    dl.offset % VertsPer(dl.primType) == 0 && dl.count % VertsPer(dl.primType) == 0
  }

  function Visits(runs: seq<DrawList>): seq<Primitive> {
    if runs == [] then [] else Visits(runs[..|runs| - 1]) + Shows(runs[|runs| - 1])
  }

  // The positions visited in the list of type t, in order.
  function Of(visits: seq<Primitive>, t: nat): seq<nat> {
    if visits == [] then []
    else
      var last := visits[|visits| - 1];
      Of(visits[..|visits| - 1], t) + (if last.0 == t then [last.1] else [])
  }

  predicate InRange(keys: seq<seq<real>>, visits: seq<Primitive>)
    requires |keys| == 3
  {
    forall v :: v in visits ==> v.0 < 3 && v.1 < |keys[v.0]|
  }

  predicate NonIncreasing(keys: seq<seq<real>>, visits: seq<Primitive>)
    requires |keys| == 3 && InRange(keys, visits)
  {
    forall i, j :: 0 <= i < j < |visits| ==>
      keys[visits[j].0][visits[j].1] <= keys[visits[i].0][visits[i].1]
  }

  predicate Descending(keys: seq<real>) {
    forall i, j :: 0 <= i < j < |keys| ==> keys[j] <= keys[i]
  }

  // A non-empty slice of whole primitives of the sorted list of its type in its layer.
  predicate IsSlice(keys: seq<seq<real>>, layer: nat, id: int, dl: DrawList)
    requires |keys| == 3
  {
    && dl.layerId == id && dl.sorting == 1
    && dl.primType < 3 && dl.list == layer * 3 + dl.primType
    && dl.count > 0
    && IsWhole(dl)
    && End(dl) <= |keys[dl.primType]|
  }

  predicate Alternate(runs: seq<DrawList>) {
    forall i :: 0 < i < |runs| ==> runs[i].primType != runs[i - 1].primType
  }

  // The draw lists of one layer, as they should be.
  predicate Draws(keys: seq<seq<real>>, layer: nat, id: int, runs: seq<DrawList>)
    requires |keys| == 3
  {
    && (forall r :: r in runs ==> IsSlice(keys, layer, id, r))
    && Alternate(runs)
    && (forall t: nat :: t < 3 ==> Of(Visits(runs), t) == Upto(|keys[t]|))
    && InRange(keys, Visits(runs))
    && NonIncreasing(keys, Visits(runs))
  }

  lemma {:induction false} CountOf(visits: seq<Primitive>, t: nat, k: nat)
    ensures multiset(visits)[(t, k)] == multiset(Of(visits, t))[k]
  {
    if visits != [] {
      var last := |visits| - 1;
      CountOf(visits[..last], t, k);
      assert visits == visits[..last] + [visits[last]];
    }
  }

  lemma {:induction false} UptoOnce(n: nat, k: nat)
    ensures multiset(Upto(n))[k] == if k < n then 1 else 0
  {
    if n > 0 { UptoOnce(n - 1, k); }
  }

  // Every primitive of the layer is drawn exactly once, and nothing else is drawn.
  lemma {:induction false} EveryPrimitiveOnce(keys: seq<seq<real>>, layer: nat, id: int, runs: seq<DrawList>, t: nat,
                                              k: nat)
    requires |keys| == 3 && Draws(keys, layer, id, runs)
    ensures multiset(Visits(runs))[(t, k)] == if t < 3 && k < |keys[t]| then 1 else 0
  {
    CountOf(Visits(runs), t, k);
    if t < 3 { UptoOnce(|keys[t]|, k); }
    else if (t, k) in Visits(runs) { assert false; }
  }

  // ---------- The merge ----------

  // search is a position per type, None once the list of that type is used up.
  predicate Searching(keys: seq<seq<real>>, pos: seq<nat>, search: seq<Option<nat>>) {
    && |keys| == |pos| == |search| == 3
    && (forall t: nat :: t < 3 ==> pos[t] <= |keys[t]|)
    && (forall t: nat :: t < 3 ==> search[t] == if pos[t] < |keys[t]| then Some(pos[t]) else None)
  }

  function Emptied(search: seq<Option<nat>>): nat
    requires |search| == 3
  {
    (if search[0].None? then 1 else 0) + (if search[1].None? then 1 else 0) + (if search[2].None? then 1 else 0)
  }

  function ModInc(v: nat): nat { (v + 1) % 3 }

  predicate IsMax(keys: seq<seq<real>>, pos: seq<nat>, p: nat)
    requires |keys| == 3 && |pos| == 3
  {
    && p < 3 && pos[p] < |keys[p]|
    && forall t: nat :: t < 3 && pos[t] < |keys[t]| ==> keys[t][pos[t]] <= keys[p][pos[p]]
  }

  // Nothing that has been visited is nearer than what is still to be taken.
  predicate Ahead(keys: seq<seq<real>>, pos: seq<nat>, visits: seq<Primitive>)
    requires |keys| == |pos| == 3 && InRange(keys, visits)
  {
    forall i, t: nat :: 0 <= i < |visits| && t < 3 && pos[t] < |keys[t]| ==>
      keys[t][pos[t]] <= keys[visits[i].0][visits[i].1]
  }

  // What has been visited when `pos` primitives of each type have been taken.
  predicate Visited(keys: seq<seq<real>>, pos: seq<nat>, visits: seq<Primitive>) {
    && |keys| == |pos| == 3
    && InRange(keys, visits)
    && NonIncreasing(keys, visits)
    && Ahead(keys, pos, visits)
    && (forall t: nat :: t < 3 ==> Of(visits, t) == Upto(pos[t]))
  }

  // The draw lists that those visits make up.
  predicate Running(keys: seq<seq<real>>, layer: nat, id: int, pos: seq<nat>, runs: seq<DrawList>) {
    && |keys| == |pos| == 3
    && (forall r :: r in runs ==> IsSlice(keys, layer, id, r))
    && Alternate(runs)
    && (runs != [] ==> var l := runs[|runs| - 1]; l.primType < 3 && End(l) == pos[l.primType])
  }

  lemma {:induction false} OfStep(visits: seq<Primitive>, v: Primitive, t: nat)
    ensures Of(visits + [v], t) == Of(visits, t) + if v.0 == t then [v.1] else []
  {
    assert (visits + [v])[..|visits|] == visits;
  }

  // Taking the primitive with the greatest key keeps everything that has been promised.
  lemma {:induction false} Take(keys: seq<seq<real>>, pos: seq<nat>, visits: seq<Primitive>, p: nat)
    requires Visited(keys, pos, visits)
    requires forall t: nat :: t < 3 ==> Descending(keys[t])
    requires IsMax(keys, pos, p)
    ensures Visited(keys, pos[p := pos[p] + 1], visits + [(p, pos[p])])
  {
    var visits', pos' := visits + [(p, pos[p])], pos[p := pos[p] + 1];
    forall t: nat | t < 3
      ensures Of(visits', t) == Upto(pos'[t])
    {
      OfStep(visits, (p, pos[p]), t);
    }
    TakeKeepsOrder(keys, pos, visits, p);
  }

  lemma {:induction false} TakeKeepsOrder(keys: seq<seq<real>>, pos: seq<nat>, visits: seq<Primitive>, p: nat)
    requires |keys| == |pos| == 3 && InRange(keys, visits)
    requires NonIncreasing(keys, visits) && Ahead(keys, pos, visits)
    requires forall t: nat :: t < 3 ==> Descending(keys[t])
    requires IsMax(keys, pos, p)
    ensures var visits' := visits + [(p, pos[p])];
            && InRange(keys, visits')
            && NonIncreasing(keys, visits')
            && Ahead(keys, pos[p := pos[p] + 1], visits')
  {
    var visits', pos' := visits + [(p, pos[p])], pos[p := pos[p] + 1];
    forall i, t: nat | 0 <= i < |visits'| && t < 3 && pos'[t] < |keys[t]|
      ensures keys[t][pos'[t]] <= keys[visits'[i].0][visits'[i].1]
    {
      assert keys[t][pos'[t]] <= keys[t][pos[t]];
      if i < |visits| { assert keys[t][pos[t]] <= keys[visits[i].0][visits[i].1]; }
    }
  }

  function One(id: int, layer: nat, p: nat, k: nat): DrawList {
    DrawList(id, p, 1, layer * 3 + p, k * VertsPer(p), VertsPer(p))
  }

  lemma {:induction false} ShowsOne(id: int, layer: nat, p: nat, k: nat)
    ensures var dl := One(id, layer, p, k); Shows(dl) == [(p, k)] && End(dl) == k + 1 && IsWhole(dl)
  {
  }

  function More(dl: DrawList): DrawList { dl.(count := dl.count + VertsPer(dl.primType)) }

  lemma {:induction false} ShowsMore(dl: DrawList)
    requires IsWhole(dl)
    ensures Shows(More(dl)) == Shows(dl) + [(dl.primType, End(dl))]
    ensures End(More(dl)) == End(dl) + 1 && IsWhole(More(dl))
  {
  }

  // A new draw list of one primitive.
  lemma {:induction false} StartRun(keys: seq<seq<real>>, layer: nat, id: int, pos: seq<nat>, runs: seq<DrawList>,
                                    p: nat)
    requires Running(keys, layer, id, pos, runs)
    requires IsMax(keys, pos, p)
    requires runs == [] || runs[|runs| - 1].primType != p
    ensures Running(keys, layer, id, pos[p := pos[p] + 1], runs + [One(id, layer, p, pos[p])])
    ensures Visits(runs + [One(id, layer, p, pos[p])]) == Visits(runs) + [(p, pos[p])]
  {
    var runs' := runs + [One(id, layer, p, pos[p])];
    assert runs'[..|runs|] == runs;
    ShowsOne(id, layer, p, pos[p]);
    hide Shows, End, IsWhole, VertsPer;
    var one := One(id, layer, p, pos[p]);
    assert IsSlice(keys, layer, id, one);
    hide One, IsSlice;
    forall r | r in runs'
      ensures IsSlice(keys, layer, id, r)
    {
      assert r in runs || r == one;
    }
  }

  function Grown(runs: seq<DrawList>): seq<DrawList>
    requires runs != []
  {
    runs[..|runs| - 1] + [More(runs[|runs| - 1])]
  }

  // One more primitive of the type of the last draw list.
  lemma {:induction false} GrowRun(keys: seq<seq<real>>, layer: nat, id: int, pos: seq<nat>, runs: seq<DrawList>)
    requires Running(keys, layer, id, pos, runs)
    requires runs != [] && IsMax(keys, pos, runs[|runs| - 1].primType)
    ensures var p := runs[|runs| - 1].primType;
            && Running(keys, layer, id, pos[p := pos[p] + 1], Grown(runs))
            && Visits(Grown(runs)) == Visits(runs) + [(p, pos[p])]
  {
    var last := runs[|runs| - 1];
    assert last in runs && IsSlice(keys, layer, id, last);
    ShowsMore(last);
    hide Shows, End, IsWhole, VertsPer;
    assert IsSlice(keys, layer, id, More(last));
    hide More, IsSlice;
    assert Grown(runs)[..|runs| - 1] == runs[..|runs| - 1];
  }

  // Where to go on from: the current type while it lasts, else the next that is not used up.
  method NextNonEmpty(search: seq<Option<nat>>, start: nat) returns (cprim: nat)
    requires |search| == 3 && start < 3
    requires Emptied(search) != 3
    ensures cprim < 3 && search[cprim].Some?
    ensures search[start].Some? ==> cprim == start
  {
    cprim := start;
    while search[cprim].None?
      invariant cprim < 3
      invariant search[start].Some? ==> cprim == start
      decreases if search[cprim].Some? then 0 else if search[ModInc(cprim)].Some? then 1 else 2
    {
      cprim := ModInc(cprim);
    }
  }

  // The type whose next primitive is farthest; the current type wins a tie.
  method FindMax(keys: seq<seq<real>>, ghost pos: seq<nat>, search: seq<Option<nat>>, cprim: nat) returns (mxprim: nat)
    requires Searching(keys, pos, search)
    requires cprim < 3 && search[cprim].Some?
    ensures IsMax(keys, pos, mxprim) && search[mxprim].Some?
    ensures keys[mxprim][pos[mxprim]] == keys[cprim][pos[cprim]] ==> mxprim == cprim
  {
    var mxkey := keys[cprim][search[cprim].value];
    mxprim := cprim;
    var p := ModInc(cprim);
    ghost var seen := {cprim};
    while p != cprim
      invariant p < 3 && mxprim < 3
      invariant seen == if p == cprim then {0, 1, 2} else if p == ModInc(cprim) then {cprim} else {cprim, ModInc(cprim)}
      invariant search[mxprim].Some? && mxkey == keys[mxprim][pos[mxprim]]
      invariant forall t: nat :: t in seen && pos[t] < |keys[t]| ==> keys[t][pos[t]] <= mxkey
      invariant mxkey == keys[cprim][pos[cprim]] ==> mxprim == cprim
      decreases if p == cprim then 0 else if p == ModInc(cprim) then 2 else 1
    {
      if search[p].Some? && keys[p][search[p].value] > mxkey {
        mxkey := keys[p][search[p].value];
        mxprim := p;
      }
      seen := seen + {p};
      p := ModInc(p);
    }
  }

  // Every search starts at the front of its list.
  method StartSearch(keys: seq<seq<real>>) returns (search: seq<Option<nat>>, emptyCount: nat)
    requires |keys| == 3
    ensures Searching(keys, [0, 0, 0], search) && emptyCount == Emptied(search)
  {
    search, emptyCount := [None, None, None], 0;
    for i := 0 to 3
      invariant |search| == 3
      invariant forall t: nat :: t < i ==> search[t] == if 0 < |keys[t]| then Some(0) else None
      invariant forall t: nat :: i <= t < 3 ==> search[t] == None
      invariant emptyCount + (3 - i) == Emptied(search)
    {
      if keys[i] == [] {
        search := search[i := None];
        emptyCount := emptyCount + 1;
      } else {
        search := search[i := Some(0)];
      }
    }
  }

  method Advance(keys: seq<seq<real>>, ghost pos: seq<nat>, before: seq<Option<nat>>, count: nat, cprim: nat)
    returns (search: seq<Option<nat>>, emptyCount: nat)
    requires Searching(keys, pos, before) && count == Emptied(before)
    requires cprim < 3 && before[cprim].Some?
    ensures Searching(keys, pos[cprim := pos[cprim] + 1], search) && emptyCount == Emptied(search)
  {
    search, emptyCount := before[cprim := Some(before[cprim].value + 1)], count;
    if search[cprim].value == |keys[cprim]| {
      search := search[cprim := None];
      emptyCount := emptyCount + 1;
    }
  }

  // The current type is the type of the last draw list until its primitives run out; the last
  // draw list is of this layer unless there is none yet.
  lemma {:induction false} Continues(keys: seq<seq<real>>, layer: nat, id: int, pos: seq<nat>, runs: seq<DrawList>,
                                     search: seq<Option<nat>>, cprim: nat, mxprim: nat)
    requires Running(keys, layer, id, pos, runs) && Searching(keys, pos, search) && IsMax(keys, pos, mxprim)
    requires runs != [] && cprim < 3
    requires search[runs[|runs| - 1].primType].Some? ==> cprim == runs[|runs| - 1].primType
    ensures runs[|runs| - 1].layerId == id
    ensures runs[|runs| - 1].primType == mxprim ==> cprim == mxprim
  {
    assert runs[|runs| - 1] in runs;
  }

  lemma NothingYet(keys: seq<seq<real>>, layer: nat, id: int)
    requires |keys| == 3
    ensures Running(keys, layer, id, [0, 0, 0], []) && Visited(keys, [0, 0, 0], Visits([]))
  {
  }

  // When every search has ended, everything has been drawn.
  lemma {:induction false} AllTaken(keys: seq<seq<real>>, layer: nat, id: int, pos: seq<nat>, runs: seq<DrawList>,
                                    search: seq<Option<nat>>)
    requires Searching(keys, pos, search) && Emptied(search) == 3
    requires Running(keys, layer, id, pos, runs) && Visited(keys, pos, Visits(runs))
    ensures Draws(keys, layer, id, runs)
  {
    hide Of, Visits, IsSlice;
  }

  lemma UpdateLast<T>(before: seq<T>, runs: seq<T>, x: T, y: T)
    ensures (before + (runs + [x]))[|before| + |runs| := y] == before + (runs + [y])
  {
  }

  // Appends the draw lists of one layer. `keys` are the sort keys of its three lists.
  method Partition(keys: seq<seq<real>>, layer: nat, id: int, before: seq<DrawList>) returns (drawLists: seq<DrawList>)
    requires |keys| == 3 && forall t: nat :: t < 3 ==> Descending(keys[t])
    ensures before <= drawLists && Draws(keys, layer, id, drawLists[|before|..])
  {
    hide Running, Visited, Visits, IsSlice, Draws, VertsPer;
    drawLists := before;
    ghost var runs: seq<DrawList> := [];
    NothingYet(keys, layer, id);
    var cprim := 0;
    var search, emptyCount := StartSearch(keys);
    ghost var pos: seq<nat> := [0, 0, 0];
    var first := true;
    while emptyCount != 3
      invariant Searching(keys, pos, search) && emptyCount == Emptied(search)
      invariant Running(keys, layer, id, pos, runs)
      invariant Visited(keys, pos, Visits(runs))
      invariant drawLists == before + runs
      invariant cprim < 3 && (first <==> runs == [])
      invariant runs != [] ==> cprim == runs[|runs| - 1].primType
      decreases |keys[0]| - pos[0] + |keys[1]| - pos[1] + |keys[2]| - pos[2]
    {
      cprim := NextNonEmpty(search, cprim);
      var mxprim := FindMax(keys, pos, search, cprim);
      Take(keys, pos, Visits(runs), mxprim);
      if !first { Continues(keys, layer, id, pos, runs, search, cprim, mxprim); }
      ghost var head, dl0;
      if first || drawLists[|drawLists| - 1].layerId != id || drawLists[|drawLists| - 1].primType != mxprim {
        StartRun(keys, layer, id, pos, runs, mxprim);
        cprim := mxprim;
        var dl := DrawList(id, cprim, 1, layer * 3 + cprim, search[cprim].value * VertsPer(cprim), 0);
        drawLists := drawLists + [dl];
        first := false;
        head, dl0 := runs, dl;
      } else {
        GrowRun(keys, layer, id, pos, runs);
        head, dl0 := runs[..|runs| - 1], runs[|runs| - 1];
      }
      runs := head + [More(dl0)];
      assert drawLists == before + (head + [dl0]);
      UpdateLast(before, head, dl0, More(dl0));
      var last := |drawLists| - 1;
      drawLists := drawLists[last := drawLists[last].(count := drawLists[last].count + VertsPer(cprim))];
      search, emptyCount := Advance(keys, pos, search, emptyCount, cprim);
      pos := pos[cprim := pos[cprim] + 1];
    }
    AllTaken(keys, layer, id, pos, runs, search);
    assert drawLists[|before|..] == runs;
  }
}
