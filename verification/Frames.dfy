/**
 * Multipart messages on ZeroMQ sockets, and the helpers of zmq_utils that read
 * and write them frame by frame.
 */
module Frames {
  import opened Sequences

  type Byte = b: int | 0 <= b < 256

  type Frame = seq<Byte>

  const EMPTY: Frame := []

  /** One frame on the wire, with ZeroMQ's flag that more frames of its message follow. */
  datatype Part = Part(data: Frame, more: bool)

  /** A message on the wire: every frame but the last is flagged. */
  function Wire(frames: seq<Frame>): (parts: seq<Part>)
    ensures |parts| == |frames|
  {
    if frames == [] then [] else [Part(frames[0], |frames| > 1)] + Wire(frames[1..])
  }

  /** Receiving the first frame of a message leaves the rest of it. */
  lemma WireTail(frames: seq<Frame>, after: seq<Part>)
    requires frames != []
    ensures (Wire(frames) + after)[0] == Part(frames[0], |frames| > 1)
    ensures (Wire(frames) + after)[1..] == Wire(frames[1..]) + after
  {
    var rest := Wire(frames[1..]);
    assert Wire(frames) == [Part(frames[0], |frames| > 1)] + rest;
    hide Wire;
    Assoc([Part(frames[0], |frames| > 1)], rest, after);
  }

  /** The frames sent with the more flag on every one of them. */
  function Flagged(frames: seq<Frame>): (parts: seq<Part>)
    ensures |parts| == |frames|
  {
    if frames == [] then [] else [Part(frames[0], true)] + Flagged(frames[1..])
  }

  /** Flagged frames join the message that follows them. */
  lemma {:induction false} FlaggedJoins(head: seq<Frame>, tail: seq<Frame>)
    requires tail != []
    ensures Flagged(head) + Wire(tail) == Wire(head + tail)
    decreases |head|
  {
    hide Wire, Flagged;
    if head == [] {
      assert head + tail == tail;
      FlaggedNone(Wire(tail));
    } else {
      var f, rest := head[0], head[1..];
      FlaggedJoins(rest, tail);
      WireMore(f, rest + tail);
      FlaggedMore(f, rest);
      Assoc([f], rest, tail);
      Assoc([Part(f, true)], Flagged(rest), Wire(tail));
      assert [f] + rest == head;
    }
  }

  lemma FlaggedNone(parts: seq<Part>)
    ensures Flagged([]) + parts == parts
  {
  }

  lemma FlaggedMore(f: Frame, rest: seq<Frame>)
    ensures Flagged([f] + rest) == [Part(f, true)] + Flagged(rest)
  {
    assert ([f] + rest)[1..] == rest;
  }

  lemma WireMore(f: Frame, rest: seq<Frame>)
    requires rest != []
    ensures Wire([f] + rest) == [Part(f, true)] + Wire(rest)
  {
    assert ([f] + rest)[1..] == rest;
  }

  /** A wire cut into messages by its flags, so no two messages look alike. */
  lemma {:induction false} WireInjective(a: seq<Frame>, b: seq<Frame>, restA: seq<Part>, restB: seq<Part>)
    requires a != [] && b != [] && Wire(a) + restA == Wire(b) + restB
    ensures a == b && restA == restB
    decreases |a|
  {
    WireTail(a, restA);
    WireTail(b, restB);
    assert a == [a[0]] + a[1..] && b == [b[0]] + b[1..];
    if |a| > 1 {
      WireInjective(a[1..], b[1..], restA, restB);
    } else {
      assert Wire(a[1..]) == [] && Wire(b[1..]) == [];
    }
  }

  // ---- Numbers and pointers travel as eight bytes ---------------------------

  const TWO_TO_THE_64 := 0x1_0000_0000_0000_0000

  /** `k` bytes of a number, least significant first. */
  function Encode(n: nat, k: nat): (f: Frame)
    ensures |f| == k
  {
    if k == 0 then [] else [n % 256] + Encode(n / 256, k - 1)
  }

  function Decode(f: Frame): nat {
    if f == [] then 0 else f[0] + 256 * Decode(f[1..])
  }

  function Pow256(k: nat): nat {
    if k == 0 then 1 else 256 * Pow256(k - 1)
  }

  lemma {:induction false} DecodeEncode(n: nat, k: nat)
    requires n < Pow256(k)
    ensures Decode(Encode(n, k)) == n
    decreases k
  {
    if k > 0 {
      DecodeEncode(n / 256, k - 1);
      assert Encode(n, k)[1..] == Encode(n / 256, k - 1);
    }
  }

  function Encode64(n: nat): Frame {
    Encode(n, 8)
  }

  lemma Decode64Encode64(n: nat)
    requires n < TWO_TO_THE_64
    ensures Decode(Encode64(n)) == n && |Encode64(n)| == 8
  {
    assert Pow256(8) == TWO_TO_THE_64 by {
      assert Pow256(2) == 0x1_0000;
      assert Pow256(4) == 0x1_0000_0000;
      assert Pow256(6) == 0x1_0000_0000_0000;
    }
    DecodeEncode(n, 8);
  }

  // ---- Sockets and iterators ------------------------------------------------

  class Socket {
    var incoming: seq<Part>
    var sent: seq<Part>

    constructor ()
      ensures incoming == [] && sent == []
    {
      incoming, sent := [], [];
    }

    /** Receiving on an empty socket blocks, which the model rules out. */
    method Recv() returns (part: Part)
      requires incoming != []
      modifies this`incoming
      ensures part == old(incoming)[0] && incoming == old(incoming)[1..]
    {
      part := incoming[0];
      incoming := incoming[1..];
    }

    method Send(data: Frame, more: bool)
      modifies this`sent
      ensures sent == old(sent) + [Part(data, more)]
    {
      sent := sent + [Part(data, more)];
    }
  }

  /** Reads one message of a socket; the frames it has not read are `left`, what follows is `after`. */
  class MessageIterator {
    const socket: Socket
    var hasMore: bool
    ghost var left: seq<Frame>
    ghost const after: seq<Part>

    ghost predicate Valid()
      reads this, socket
    {
      socket.incoming == Wire(left) + after && (hasMore <==> left != [])
    }

    constructor (socket: Socket, ghost message: seq<Frame>, ghost after: seq<Part>)
      requires message != [] && socket.incoming == Wire(message) + after
      ensures Valid() && this.socket == socket && left == message && this.after == after
    {
      this.socket := socket;
      hasMore := true;
      left := message;
      this.after := after;
    }

    /** Never called past the last frame: the message must have more. */
    method Next() returns (frame: Frame)
      requires Valid() && hasMore
      modifies this, socket`incoming
      ensures Valid() && [frame] + left == old(left)
    {
      WireTail(left, after);
      var part := socket.Recv();
      frame, hasMore := part.data, part.more;
      left := left[1..];
    }

    /** The destructor: whatever was not read is thrown away, so the next message starts clean. */
    method Drain()
      requires Valid()
      modifies this, socket`incoming
      ensures Valid() && left == [] && socket.incoming == after
    {
      while hasMore
        invariant Valid()
        decreases |left|
      {
        var _ := Next();
      }
    }
  }

  /** Forwarding the rest of a message sends exactly its unread frames, as one message. */
  method ForwardMessages(iter: MessageIterator, target: Socket)
    requires iter.Valid() && iter.socket != target
    modifies iter, iter.socket`incoming, target`sent
    ensures iter.Valid() && iter.left == []
    ensures target.sent == old(target.sent) + Wire(old(iter.left))
  {
    ghost var done: seq<Part> := [];
    ghost var all := iter.left;
    while iter.hasMore
      invariant iter.Valid()
      invariant target.sent == old(target.sent) + done
      invariant Wire(all) == done + Wire(iter.left)
      decreases |iter.left|
    {
      ghost var unread := iter.left;
      var frame := iter.Next();
      assert iter.left == unread[1..];
      target.Send(frame, iter.hasMore);
      done := done + [Part(frame, iter.hasMore)];
    }
  }

  /** The data loop of `write_vector_to_socket` with no further flags. */
  method WriteVector(target: Socket, data: seq<Frame>)
    modifies target`sent
    ensures target.sent == old(target.sent) + Wire(data)
  {
    var i := 0;
    ghost var done: seq<Part> := [];
    assert data[0..] == data;
    hide Wire;
    while i < |data|
      invariant 0 <= i <= |data|
      invariant target.sent == old(target.sent) + done
      invariant Wire(data) == done + Wire(data[i..])
    {
      WireAt(data, i);
      Assoc(done, [Part(data[i], i < |data| - 1)], Wire(data[i + 1..]));
      Assoc(old(target.sent), done, [Part(data[i], i < |data| - 1)]);
      target.Send(data[i], i < |data| - 1);
      done := done + [Part(data[i], i < |data| - 1)];
      i := i + 1;
    }
    NoneLeft(data[i..], []);
    Assoc(done, [], []);
  }

  lemma WireAt(data: seq<Frame>, i: nat)
    requires i < |data|
    ensures Wire(data[i..]) == [Part(data[i], i < |data| - 1)] + Wire(data[i + 1..])
  {
    assert data[i..][1..] == data[i + 1..];
  }

  /** Reading a socket into a vector gives back the message written there, and only it. */
  method ReadMessageToVector(socket: Socket, ghost message: seq<Frame>, ghost after: seq<Part>)
    returns (data: seq<Frame>)
    requires message != [] && socket.incoming == Wire(message) + after
    modifies socket`incoming
    ensures data == message && socket.incoming == after
  {
    data := [];
    ghost var left := message;
    hide Wire;
    while true
      invariant left != [] && data + left == message
      invariant socket.incoming == Wire(left) + after
      decreases |left|
    {
      WireTail(left, after);
      NoneLeft(left[1..], after);
      Assoc(data, [left[0]], left[1..]);
      assert [left[0]] + left[1..] == left;
      var part := socket.Recv();
      data := data + [part.data];
      left := left[1..];
      if !part.more {
        break;
      }
    }
  }

  lemma NoneLeft(left: seq<Frame>, after: seq<Part>)
    ensures left == [] ==> Wire(left) + after == after
  {
  }
}
