/**
 How the renderer cuts a list of sprites into draw calls: each takes as many sprites of one
 texture as follow one another, up to the size of the instance buffer.
 */
module SpriteBatches {
  import opened Options

  const MAX_BATCH_SIZE: nat := 1024

  // A sprite: its texture, if it has one, and whatever else is drawn of it.
  datatype Sprite = Sprite(texture: Option<nat>, instance: int)

  // What is drawn for a sprite that has none.
  const MISSING_TEXTURE: int := -1

  function Texture(s: Sprite): int {
    match s.texture
    case Some(t) => t
    case None => MISSING_TEXTURE
  }

  // Sprites share it exactly if they have the same texture or both have none.
  lemma TextureTells(a: Sprite, b: Sprite)
    ensures Texture(a) == Texture(b) <==> a.texture == b.texture
  {
  }

  // A draw call: a texture and the sprites in the instance buffer.
  datatype Batch = Batch(texture: int, sprites: seq<Sprite>)

  predicate ValidBatch(b: Batch) {
    && 1 <= |b.sprites| <= MAX_BATCH_SIZE
    && forall i :: 0 <= i < |b.sprites| ==> Texture(b.sprites[i]) == b.texture
  }

  function Drawn(batches: seq<Batch>): seq<Sprite> {
    if batches == [] then [] else batches[0].sprites + Drawn(batches[1..])
  }

  // Draw calls that draw a list in order within the limits.
  predicate Draws(list: seq<Sprite>, batches: seq<Batch>) {
    && (forall b :: b in batches ==> ValidBatch(b))
    && Drawn(batches) == list
  }

  // How many sprites the first draw call takes, if n are sure to fit.
  predicate IsLongest(list: seq<Sprite>, n: nat) {
    && 1 <= n <= |list| && n <= MAX_BATCH_SIZE
    && (forall i :: 0 <= i < n ==> Texture(list[i]) == Texture(list[0]))
    && (n == MAX_BATCH_SIZE || n == |list| || Texture(list[n]) != Texture(list[0]))
  }

  // Draw calls each of which takes as much as it can.
  predicate Greedy(list: seq<Sprite>, batches: seq<Batch>)
    decreases |batches|
  {
    if batches == [] then list == []
    else
      var n := |batches[0].sprites|;
      && IsLongest(list, n)
      && batches[0] == Batch(Texture(list[0]), list[..n])
      && Greedy(list[n..], batches[1..])
  }

  lemma {:induction false} GreedyDraws(list: seq<Sprite>, batches: seq<Batch>)
    requires Greedy(list, batches)
    ensures Draws(list, batches)
    decreases |batches|
  {
    if batches != [] {
      var n := |batches[0].sprites|;
      GreedyDraws(list[n..], batches[1..]);
      forall b | b in batches
        ensures ValidBatch(b)
      {
        assert b == batches[0] || b in batches[1..];
      }
    }
  }

  // What is left of a list can be drawn in no more calls than the list.
  lemma {:induction false} DrawLess(list: seq<Sprite>, batches: seq<Batch>, d: nat) returns (less: seq<Batch>)
    requires Draws(list, batches) && d <= |list|
    ensures Draws(list[d..], less) && |less| <= |batches|
    decreases |batches|
  {
    if d == 0 {
      assert list[d..] == list;
      less := batches;
    } else {
      var b, n := batches[0], |batches[0].sprites|;
      assert b in batches;
      forall c | c in batches[1..] ensures c in batches {}
      assert list == b.sprites + list[n..];
      assert Draws(list[n..], batches[1..]);
      if d < n {
        less := [Batch(b.texture, b.sprites[d..])] + batches[1..];
        assert less[1..] == batches[1..];
        assert list[d..] == b.sprites[d..] + list[n..];
      } else {
        less := DrawLess(list[n..], batches[1..], d - n);
        assert list[n..][d - n..] == list[d..];
      }
    }
  }

  // Main result: no way to draw the list in order takes fewer draw calls.
  lemma {:induction false} FewestCalls(list: seq<Sprite>, batches: seq<Batch>, others: seq<Batch>)
    requires Greedy(list, batches) && Draws(list, others)
    ensures |batches| <= |others|
    decreases |batches|
  {
    if batches != [] {
      var n := |batches[0].sprites|;
      var b, m := others[0], |others[0].sprites|;
      assert b in others;
      forall c | c in others[1..] ensures c in others {}
      assert list == b.sprites + list[m..];
      FirstIsShorter(list, n, b);
      var rest := DrawLess(list[m..], others[1..], n - m);
      assert list[m..][n - m..] == list[n..];
      FewestCalls(list[n..], batches[1..], rest);
    }
  }

  // Any first draw call takes at most the longest run.
  lemma FirstIsShorter(list: seq<Sprite>, n: nat, b: Batch)
    requires IsLongest(list, n) && ValidBatch(b) && |b.sprites| <= |list| && list[..|b.sprites|] == b.sprites
    ensures |b.sprites| <= n
  {
    assert forall i :: 0 <= i < |b.sprites| ==> list[i] == b.sprites[i];
  }

  // The calls so far draw the list up to an index, each as much as it can.
  ghost predicate GreedyUpTo(list: seq<Sprite>, idx: nat, calls: seq<Batch>)
    requires idx <= |list|
  {
    forall more :: Greedy(list[idx..], more) ==> Greedy(list, calls + more)
  }

  lemma GreedyFromStart(list: seq<Sprite>)
    ensures GreedyUpTo(list, 0, [])
  {
    assert list[0..] == list && forall more: seq<Batch> :: [] + more == more;
  }

  lemma GreedyStep(list: seq<Sprite>, idx: nat, calls: seq<Batch>, n: nat)
    requires idx < |list| && GreedyUpTo(list, idx, calls) && IsLongest(list[idx..], n)
    ensures GreedyUpTo(list, idx + n, calls + [Batch(Texture(list[idx]), list[idx..idx + n])])
  {
    var b := Batch(Texture(list[idx]), list[idx..idx + n]);
    forall more | Greedy(list[idx + n..], more)
      ensures Greedy(list, calls + [b] + more)
    {
      assert list[idx..][n..] == list[idx + n..] && list[idx..][..n] == b.sprites;
      assert ([b] + more)[1..] == more;
      assert Greedy(list[idx..], [b] + more);
      assert calls + ([b] + more) == calls + [b] + more;
    }
  }

  lemma GreedyAtEnd(list: seq<Sprite>, calls: seq<Batch>)
    requires GreedyUpTo(list, |list|, calls)
    ensures Greedy(list, calls)
  {
    assert Greedy(list[|list|..], []);
    assert calls + [] == calls;
  }

  // Fills the instance buffer for one draw call.
  method FillBatch(drawList: seq<Sprite>, start: nat) returns (buffer: seq<Sprite>, spriteIdx: nat)
    requires start < |drawList|
    ensures start < spriteIdx <= |drawList| && buffer == drawList[start..spriteIdx]
    ensures IsLongest(drawList[start..], spriteIdx - start)
  {
    buffer, spriteIdx := [], start;
    var currentTexture := Texture(drawList[start]);
    var again := true;
    while again
      invariant start <= spriteIdx <= |drawList| && spriteIdx - start <= MAX_BATCH_SIZE
      invariant buffer == drawList[start..spriteIdx]
      invariant forall i :: start <= i < spriteIdx ==> Texture(drawList[i]) == currentTexture
      invariant again ==> spriteIdx < |drawList| && spriteIdx - start < MAX_BATCH_SIZE
      invariant !again ==> spriteIdx > start && (spriteIdx - start == MAX_BATCH_SIZE || spriteIdx == |drawList|)
      decreases |drawList| - spriteIdx, again
    {
      var sprite := drawList[spriteIdx];
      if Texture(sprite) != currentTexture { break; }
      buffer := buffer + [sprite];
      spriteIdx := spriteIdx + 1;
      again := |buffer| < MAX_BATCH_SIZE && spriteIdx < |drawList|;
    }
  }

  // The batching loop.
  method Submit(drawList: seq<Sprite>) returns (calls: seq<Batch>, drawcallCount: nat)
    ensures Greedy(drawList, calls) && drawcallCount == |calls|
  {
    hide GreedyUpTo, Greedy, IsLongest;
    calls, drawcallCount := [], 0;
    var spriteIdx := 0;
    GreedyFromStart(drawList);
    while spriteIdx < |drawList|
      invariant 0 <= spriteIdx <= |drawList| && drawcallCount == |calls|
      invariant GreedyUpTo(drawList, spriteIdx, calls)
      decreases |drawList| - spriteIdx
    {
      var currentTexture := Texture(drawList[spriteIdx]);
      var buffer, next := FillBatch(drawList, spriteIdx);
      GreedyStep(drawList, spriteIdx, calls, next - spriteIdx);
      spriteIdx := next;
      calls := calls + [Batch(currentTexture, buffer)];
      drawcallCount := drawcallCount + 1;
    }
    GreedyAtEnd(drawList, calls);
  }
}
