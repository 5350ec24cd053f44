/**
 Tracy's outgoing bytes: a buffer of three frames in which the current frame slides forward,
 and the receiver whose own buffer has to slide in the same way.
 */
module FrameBuffers {
  type Byte = b: int | 0 <= b < 256
  type Frame = seq<Byte>

  const TARGET_FRAME_SIZE: nat := 262144

  function Flat(frames: seq<Frame>): seq<Byte> {
    if frames == [] then [] else Flat(frames[..|frames| - 1]) + frames[|frames| - 1]
  }

  // Where the receiver puts the next frame, after those.
  function ReceiverOffset(frames: seq<Frame>): nat {
    if frames == [] then 0
    else
      var offset := ReceiverOffset(frames[..|frames| - 1]) + |frames[|frames| - 1]|;
      if offset > TARGET_FRAME_SIZE * 2 then 0 else offset
  }

  lemma FlatMore(frames: seq<Frame>, frame: Frame)
    ensures Flat(frames + [frame]) == Flat(frames) + frame
  {
    assert (frames + [frame])[..|frames|] == frames;
  }

  lemma OffsetMore(frames: seq<Frame>, frame: Frame)
    ensures var offset := ReceiverOffset(frames) + |frame|;
            ReceiverOffset(frames + [frame]) == if offset > TARGET_FRAME_SIZE * 2 then 0 else offset
  {
    assert (frames + [frame])[..|frames|] == frames;
  }

  lemma {:induction false} ReceiverHasRoom(frames: seq<Frame>)
    requires forall f :: f in frames ==> |f| <= TARGET_FRAME_SIZE
    ensures ReceiverOffset(frames) + TARGET_FRAME_SIZE <= TARGET_FRAME_SIZE * 3
  {
    if frames != [] { ReceiverHasRoom(frames[..|frames| - 1]); }
  }

  // A frame never lies over the one before it, which the compressor still refers to.
  lemma {:induction false} NextFrameApart(frames: seq<Frame>, i: nat)
    requires (forall f :: f in frames ==> |f| <= TARGET_FRAME_SIZE) && i + 1 < |frames|
    ensures var a, b := ReceiverOffset(frames[..i]), ReceiverOffset(frames[..i + 1]);
            a + |frames[i]| <= b || b + |frames[i + 1]| <= a
  {
    OffsetMore(frames[..i], frames[i]);
    assert frames[..i] + [frames[i]] == frames[..i + 1];
    assert frames[i] in frames && frames[i + 1] in frames;
  }

  // The room that is made for a call stack of some frames: its length in bytes is cut to 16 bits.
  function CallstackRoom(item: nat, frames: nat): nat {
    item + 2 + 8 * frames % 0x1_0000
  }

  predicate Fits(used: nat, len: nat) { used + len <= TARGET_FRAME_SIZE }

  // Room for all of it, whatever the frame being filled holds already.
  ghost predicate RoomSuffices(item: nat, frames: nat) {
    forall used: nat :: Fits(used, CallstackRoom(item, frames)) ==> Fits(used, item + 2 + 8 * frames)
  }

  // That is enough exactly for the stacks whose length the 16 bits can hold.
  lemma CallstackFitsIff(item: nat, frames: nat)
    requires item + 2 + 0xFFFF <= TARGET_FRAME_SIZE
    ensures RoomSuffices(item, frames) <==> frames < 8192
  {
    if frames >= 8192 {
      var used := TARGET_FRAME_SIZE - CallstackRoom(item, frames);
      assert Fits(used, CallstackRoom(item, frames)) && !Fits(used, item + 2 + 8 * frames);
    }
  }

  class FrameBuffer {
    const buffer: array<Byte>
    var bufferOffset: nat
    var bufferStart: nat
    // What has been handed to the socket, and where each frame lay.
    ghost var sent: seq<Frame>
    ghost var starts: seq<nat>

    ghost predicate Valid()
      reads this
    {
      && buffer.Length == TARGET_FRAME_SIZE * 3
      && bufferStart <= TARGET_FRAME_SIZE * 2
      && bufferStart <= bufferOffset <= bufferStart + TARGET_FRAME_SIZE
      && (forall f :: f in sent ==> |f| <= TARGET_FRAME_SIZE)
      // The receiver is always about to write where the sender's frame starts.
      && bufferStart == ReceiverOffset(sent)
      && |starts| == |sent|
      && (forall i :: 0 <= i < |sent| ==> starts[i] == ReceiverOffset(sent[..i]))
    }

    // The frame that is being filled.
    function Pending(): Frame
      requires bufferStart <= bufferOffset <= buffer.Length
      reads this, buffer
    {
      buffer[bufferStart..bufferOffset]
    }

    // Everything appended so far.
    ghost function Stream(): seq<Byte>
      requires bufferStart <= bufferOffset <= buffer.Length
      reads this, buffer
    {
      Flat(sent) + Pending()
    }

    constructor ()
      ensures Valid() && fresh(buffer) && Stream() == [] && sent == []
    {
      buffer := new Byte[TARGET_FRAME_SIZE * 3];
      bufferOffset, bufferStart := 0, 0;
      sent, starts := [], [];
    }

    method SendData(frame: Frame) returns (ok: bool)
      modifies `sent, `starts
      ensures sent == old(sent) + [frame] && starts == old(starts) + [bufferStart]
    {
      sent, starts := sent + [frame], starts + [bufferStart];
      ok := *;
    }

    method CommitData() returns (ok: bool)
      requires Valid()
      modifies this
      ensures Valid() && bufferOffset == bufferStart
      ensures sent == old(sent) + [old(Pending())] && Stream() == old(Stream())
    {
      var frame := buffer[bufferStart..bufferOffset];
      ok := SendData(frame);
      if bufferOffset > TARGET_FRAME_SIZE * 2 { bufferOffset := 0; }
      bufferStart := bufferOffset;
      FlatMore(old(sent), frame);
      OffsetMore(old(sent), frame);
      forall i | 0 <= i < |sent|
        ensures starts[i] == ReceiverOffset(sent[..i])
      {
        if i < |old(sent)| { assert sent[..i] == old(sent)[..i]; } else { assert sent[..i] == old(sent); }
      }
      assert Pending() == [];
    }

    // Makes room for len more bytes; what it sends for that is not empty.
    method NeedDataSize(len: nat) returns (ok: bool)
      requires Valid() && len <= TARGET_FRAME_SIZE
      modifies this
      ensures Valid() && Stream() == old(Stream())
      ensures bufferOffset - bufferStart + len <= TARGET_FRAME_SIZE
      ensures sent == old(sent) || (old(Pending()) != [] && sent == old(sent) + [old(Pending())])
      ensures sent == old(sent) ==> bufferOffset == old(bufferOffset) && bufferStart == old(bufferStart)
    {
      ok := true;
      if bufferOffset - bufferStart + len > TARGET_FRAME_SIZE {
        ok := CommitData();
      }
    }

    method AppendDataUnsafe(data: seq<Byte>)
      requires Valid() && bufferOffset - bufferStart + |data| <= TARGET_FRAME_SIZE
      modifies `bufferOffset, buffer
      ensures Valid() && Stream() == old(Stream()) + data
      ensures bufferOffset == old(bufferOffset) + |data|
    {
      forall i | 0 <= i < |data| {
        buffer[bufferOffset + i] := data[i];
      }
      bufferOffset := bufferOffset + |data|;
      assert buffer[bufferStart..bufferOffset] == old(buffer[bufferStart..bufferOffset]) + data;
      assert Flat(sent) + (old(Pending()) + data) == Flat(sent) + old(Pending()) + data;
    }

    method AppendData(data: seq<Byte>) returns (ok: bool)
      requires Valid() && |data| <= TARGET_FRAME_SIZE
      modifies this, buffer
      ensures Valid() && Stream() == old(Stream()) + data
    {
      ok := NeedDataSize(|data|);
      AppendDataUnsafe(data);
    }

    // An item followed by a text with a 16-bit length: all three parts go into one frame.
    method SendString(item: seq<Byte>, text: seq<Byte>)
      requires Valid() && |text| <= 0xFFFF && |item| + 2 + |text| <= TARGET_FRAME_SIZE
      modifies this, buffer
      ensures Valid() && Stream() == old(Stream()) + item + Little16(|text|) + text
      ensures |sent| <= |old(sent)| + 1
    {
      hide Flat, ReceiverOffset, FrameBuffer.Stream, FrameBuffer.Pending;
      var l16 := |text| % 0x1_0000;
      var ok := NeedDataSize(|item| + 2 + l16);
      AppendDataUnsafe(item);
      AppendDataUnsafe(Little16(l16));
      AppendDataUnsafe(text);
    }
  }

  function Little16(n: nat): (r: seq<Byte>)
    requires n < 0x1_0000
    ensures |r| == 2 && r[0] as int + 256 * (r[1] as int) == n
  {
    [n % 256, n / 256]
  }
}
