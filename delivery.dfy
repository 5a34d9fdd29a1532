/**
 * Delivery (`send_message_in_chunks`): a message longer than the chunk size is
 * cut at raw offsets into consecutive pieces, each sent as its own message.
 */
module Delivery {
  import opened Wrappers

  /** A chat channel, observed through the messages sent to it, oldest first. */
  class Channel {
    var sent: seq<string>

    constructor ()
      ensures sent == []
    {
      sent := [];
    }

    /** `channel.send`. */
    method Send(text: string)
      modifies this
      ensures sent == old(sent) + [text]
    {
      sent := sent + [text];
    }
  }

  /** The chat platform's message limit, the default `chunk_size`. */
  const ChunkSize: nat := 2000


  /** The pieces `message[i:i + size]` for `i` in `range(from, len(message), size)`. */
  function SlicesFrom(message: string, size: nat, from: nat): (ps: seq<string>)
    requires size > 0
    ensures |ps| > 0 <==> from < |message|
    decreases |message| - from
  {
    if from >= |message| then []
    else [message[from..Min(from + size, |message|)]] + SlicesFrom(message, size, from + size)
  }

  /** The messages `send_message_in_chunks` sends, in order. */
  function Chunks(message: string, size: nat): (ps: seq<string>)
    requires size > 0
    ensures |ps| > 0
    ensures |message| <= size <==> |ps| == 1 && ps[0] == message
  {
    if |message| > size then SlicesShape(message, size, 0); SlicesFrom(message, size, 0) else [message]
  }

  /** `send_message_in_chunks(channel, message, chunk_size)`. */
  method SendMessageInChunks(channel: Channel, message: string, chunkSize: nat)
    requires chunkSize > 0
    modifies channel
    ensures channel.sent == old(channel.sent) + Chunks(message, chunkSize)
  {
    if |message| > chunkSize {
      var i := 0;
      while i < |message|
        invariant channel.sent + SlicesFrom(message, chunkSize, i) == old(channel.sent) + SlicesFrom(message, chunkSize, 0)
        decreases |message| - i
      {
        channel.Send(message[i..Min(i + chunkSize, |message|)]);
        i := i + chunkSize;
      }
    } else {
      channel.Send(message);
    }
  }

  function Flatten(pieces: seq<string>): string
  {
    if pieces == [] then "" else pieces[0] + Flatten(pieces[1..])
  }

  lemma {:induction false} SlicesFlatten(message: string, size: nat, from: nat)
    requires size > 0 && from <= |message|
    ensures Flatten(SlicesFrom(message, size, from)) == message[from..]
    decreases |message| - from
  {
    if from < |message| {
      var to := Min(from + size, |message|);
      SlicesFlatten(message, size, to);
      if to < |message| {
        assert SlicesFrom(message, size, from + size) == SlicesFrom(message, size, to);
      }
      assert message[from..] == message[from..to] + message[to..];
    }
  }

  /** The sent pieces, joined in order, are exactly the message. */
  lemma ChunksRebuildMessage(message: string, size: nat)
    requires size > 0
    ensures Flatten(Chunks(message, size)) == message
  {
    if |message| > size {
      SlicesFlatten(message, size, 0);
    } else {
      assert Flatten([message]) == message + Flatten([]);
    }
  }

  lemma {:induction false} SlicesShape(message: string, size: nat, from: nat)
    requires size > 0 && from < |message|
    ensures var ps := SlicesFrom(message, size, from);
      |ps| > 0 &&
      (|ps| - 1) * size < |message| - from <= |ps| * size &&
      (forall k :: 0 <= k < |ps| - 1 ==> |ps[k]| == size) &&
      0 < |ps[|ps| - 1]| <= size
    decreases |message| - from
  {
    var ps := SlicesFrom(message, size, from);
    if from + size < |message| {
      SlicesShape(message, size, from + size);
      var rest := SlicesFrom(message, size, from + size);
      assert ps == [message[from..from + size]] + rest;
      assert (|ps| - 1) * size == (|rest| - 1) * size + size;
      assert |ps| * size == |rest| * size + size;
    } else {
      assert SlicesFrom(message, size, from + size) == [];
      assert ps == [message[from..|message|]];
    }
  }

  /**
   * A message no longer than the chunk size is sent once, whole (the empty
   * message too).  A longer one is sent as `ceil(|message| / size)` non-empty
   * pieces, all of exactly `size` characters but the last, which has at most `size`.
   */
  lemma ChunksShape(message: string, size: nat)
    requires size > 0
    ensures |message| <= size ==> Chunks(message, size) == [message]
    ensures var ps := Chunks(message, size);
      |message| > size ==>
        |ps| >= 2 &&
        (|ps| - 1) * size < |message| <= |ps| * size &&
        (forall k :: 0 <= k < |ps| - 1 ==> |ps[k]| == size) &&
        0 < |ps[|ps| - 1]| <= size
  {
    if |message| > size {
      SlicesShape(message, size, 0);
    }
  }

  /** The 4500-character example: three pieces of 2000, 2000 and 500 characters. */
  lemma ChunksExample(message: string)
    requires |message| == 4500
    ensures var ps := Chunks(message, ChunkSize);
      |ps| == 3 && |ps[0]| == 2000 && |ps[1]| == 2000 && |ps[2]| == 500
  {
    assert SlicesFrom(message, 2000, 6000) == [];
    assert SlicesFrom(message, 2000, 4000) == [message[4000..4500]];
    assert SlicesFrom(message, 2000, 2000) == [message[2000..4000], message[4000..4500]];
    assert Chunks(message, ChunkSize) == [message[0..2000], message[2000..4000], message[4000..4500]];
  }
}
