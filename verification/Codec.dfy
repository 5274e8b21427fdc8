/**
 * How connection addresses and client commands travel to the broker: the
 * variable-length address codec and the command messages of connection.cc and
 * manager.cc.
 */
module Codec {
  import opened Wrappers
  import opened Frames
  import opened Rpc

  // ---- Addresses ------------------------------------------------------------

  /** An address as the program makes them: a 64-bit index, and no sender on a dealer. */
  predicate Address(info: ConnInfo) {
    info.index < TWO_TO_THE_64 && (!info.isRouter ==> info.sender == EMPTY)
  }

  function InfoFrames(info: ConnInfo): (frames: seq<Frame>)
    ensures |frames| == if info.isRouter then 3 else 2
  {
    [[if info.isRouter then 1 else 0], Encode64(info.index)] + if info.isRouter then [info.sender] else []
  }

  /** What reading an address demands of the frames: the sizes it asserts. */
  predicate StartsWithInfo(frames: seq<Frame>) {
    |frames| >= 2 && |frames[0]| == 1 && |frames[1]| == 8 && (frames[0][0] != 0 ==> |frames| >= 3)
  }

  function InfoOf(frames: seq<Frame>): ConnInfo
    requires StartsWithInfo(frames)
  {
    if frames[0][0] == 0 then ConnInfo(false, Decode(frames[1]), EMPTY)
    else ConnInfo(true, Decode(frames[1]), frames[2])
  }

  function InfoLength(frames: seq<Frame>): (n: nat)
    requires StartsWithInfo(frames)
    ensures n <= |frames|
  {
    if frames[0][0] == 0 then 2 else 3
  }

  /** Reading what was written gives the address back and leaves exactly what follows. */
  lemma InfoRoundTrip(info: ConnInfo, rest: seq<Frame>)
    requires Address(info)
    ensures var frames := InfoFrames(info) + rest;
      StartsWithInfo(frames) && InfoOf(frames) == info && frames[InfoLength(frames)..] == rest
  {
    Decode64Encode64(info.index);
    hide Encode64, Decode;
    var frames := InfoFrames(info) + rest;
    assert frames[0] == [if info.isRouter then 1 else 0] && frames[1] == Encode64(info.index);
    assert info.isRouter ==> frames[2] == info.sender;
    assert frames[|InfoFrames(info)|..] == rest;
  }

  lemma Digits(b: Byte, n: nat)
    ensures (b + 256 * n) % 256 == b && (b + 256 * n) / 256 == n
  {
  }

  lemma {:induction false} EncodeDecode(f: Frame)
    ensures Decode(f) < Pow256(|f|) && Encode(Decode(f), |f|) == f
    decreases |f|
  {
    if f != [] {
      var tail := f[1..];
      EncodeDecode(tail);
      Digits(f[0], Decode(tail));
      assert f == [f[0]] + tail;
      assert Encode(Decode(f), |f|) == [f[0]] + Encode(Decode(tail), |tail|);
    }
  }

  /**
   * What is read is always an address, and writing it again gives the same
   * frames if and only if the router flag was 0 or 1: the reader takes any
   * other flag for a router.
   */
  lemma InfoReadThenWritten(frames: seq<Frame>)
    requires StartsWithInfo(frames)
    ensures Address(InfoOf(frames))
    ensures InfoFrames(InfoOf(frames)) == frames[..InfoLength(frames)] <==> frames[0][0] <= 1
  {
    EncodeDecode(frames[1]);
    assert Pow256(8) == TWO_TO_THE_64 by {
      assert Pow256(2) == 0x1_0000;
      assert Pow256(4) == 0x1_0000_0000;
      assert Pow256(6) == 0x1_0000_0000_0000;
    }
    hide Encode, Decode, Pow256;
    var n := InfoLength(frames);
    var again := InfoFrames(InfoOf(frames));
    assert again[0] == [if frames[0][0] == 0 then 0 else 1];
    assert frames[..n][0] == frames[0] && frames[..n][1] == frames[1];
    assert n == 3 ==> frames[..n][2] == frames[2];
    if frames[0][0] <= 1 {
      assert frames[0] == [frames[0][0]];
      assert again == frames[..n];
    } else {
      assert again[0] != frames[..n][0] by { assert again[0][0] == 1; }
    }
  }

  /** Sends a message's frames with the more flag; the last one with `more` only. */
  function Sent(frames: seq<Frame>, more: bool): seq<Part> {
    if more then Flagged(frames) else Wire(frames)
  }

  method WriteConnectionInfo(socket: Socket, info: ConnInfo, more: bool)
    modifies socket`sent
    ensures socket.sent == old(socket.sent) + Sent(InfoFrames(info), more)
  {
    socket.Send([if info.isRouter then 1 else 0], true);
    if info.isRouter {
      socket.Send(Encode64(info.index), true);
      socket.Send(info.sender, more);
      SentThree([1], Encode64(info.index), info.sender, more);
      return;
    }
    socket.Send(Encode64(info.index), more);
    SentTwo([0], Encode64(info.index), more);
  }

  lemma SentMore(f: Frame, rest: seq<Frame>, more: bool)
    requires rest != []
    ensures Sent([f] + rest, more) == [Part(f, true)] + Sent(rest, more)
  {
    assert ([f] + rest)[1..] == rest;
  }

  lemma SentOne(f: Frame, more: bool)
    ensures Sent([f], more) == [Part(f, more)]
  {
    assert |[f][1..]| == 0;
  }

  lemma SentThree(a: Frame, b: Frame, c: Frame, more: bool)
    ensures Sent([a, b] + [c], more) == [Part(a, true), Part(b, true), Part(c, more)]
  {
    SentOne(c, more);
    SentMore(b, [c], more);
    SentMore(a, [b] + [c], more);
    assert [a, b] + [c] == [a] + ([b] + [c]);
  }

  lemma SentTwo(a: Frame, b: Frame, more: bool)
    ensures Sent([a, b] + [], more) == [Part(a, true), Part(b, more)]
  {
    SentOne(b, more);
    SentMore(a, [b], more);
    assert [a, b] + [] == [a] + [b];
  }

  method ReadConnectionInfo(iter: MessageIterator) returns (info: ConnInfo)
    requires iter.Valid() && StartsWithInfo(iter.left)
    modifies iter, iter.socket`incoming
    ensures iter.Valid()
    ensures info == InfoOf(old(iter.left)) && iter.left == old(iter.left)[InfoLength(old(iter.left))..]
  {
    var flag := iter.Next();
    var index := iter.Next();
    info := ConnInfo(flag[0] != 0, Decode(index), EMPTY);
    if !info.isRouter {
      return;
    }
    var sender := iter.Next();
    info := info.(sender := sender);
  }

  // ---- Client commands ------------------------------------------------------

  const K_REQUEST: Byte := 0x01
  const K_CONNECT: Byte := 0x02
  const K_BIND: Byte := 0x03
  const K_UNBIND: Byte := 0x04
  const K_REPLY: Byte := 0x05
  const K_RUN_CLOSURE: Byte := 0x06
  const K_REGISTER_SVC: Byte := 0x07
  const K_QUIT: Byte := 0x0f

  /** What clients ask of the broker; `ptr` and `svc` are addresses of objects in memory. */
  datatype ClientCmd =
    | Request(info: ConnInfo, ptr: nat, data: seq<Frame>)
    | Connect(endpoint: Frame)
    | Bind(endpoint: Frame)
    | Unbind(endpoint: Frame)
    | Reply(info: ConnInfo, data: seq<Frame>)
    | AddClosure(ptr: nat)
    | RegisterService(info: ConnInfo, name: Frame, svc: nat)
    | Quit

  /** Addresses fit eight bytes, and requests and replies carry at least a header. */
  predicate Proper(c: ClientCmd) {
    match c
    case Request(info, ptr, data) => Address(info) && ptr < TWO_TO_THE_64 && data != []
    case Reply(info, data) => Address(info) && data != []
    case AddClosure(ptr) => ptr < TWO_TO_THE_64
    case RegisterService(info, name, svc) => Address(info) && svc < TWO_TO_THE_64
    case _ => true
  }

  function Code(c: ClientCmd): Byte {
    match c
    case Request(_, _, _) => K_REQUEST
    case Connect(_) => K_CONNECT
    case Bind(_) => K_BIND
    case Unbind(_) => K_UNBIND
    case Reply(_, _) => K_REPLY
    case AddClosure(_) => K_RUN_CLOSURE
    case RegisterService(_, _, _) => K_REGISTER_SVC
    case Quit => K_QUIT
  }

  function Operands(c: ClientCmd): seq<Frame> {
    match c
    case Request(info, ptr, data) => InfoFrames(info) + ([Encode64(ptr)] + data)
    case Connect(endpoint) => [endpoint]
    case Bind(endpoint) => [endpoint]
    case Unbind(endpoint) => [endpoint]
    case Reply(info, data) => InfoFrames(info) + data
    case AddClosure(ptr) => [Encode64(ptr)]
    case RegisterService(info, name, svc) => InfoFrames(info) + [name, Encode64(svc)]
    case Quit => []
  }

  /** The message a client sends: an empty delimiter, the command code, the operands. */
  function CmdFrames(c: ClientCmd): seq<Frame> {
    [EMPTY, [Code(c)]] + Operands(c)
  }

  /** What the operands of a message with this code mean, read the way the broker reads them. */
  function Understand(code: Byte, operands: seq<Frame>): Option<ClientCmd> {
    if code == K_QUIT then Some(Quit)
    else if code == K_CONNECT && operands != [] then Some(Connect(operands[0]))
    else if code == K_BIND && operands != [] then Some(Bind(operands[0]))
    else if code == K_UNBIND && operands != [] then Some(Unbind(operands[0]))
    else if code == K_RUN_CLOSURE && operands != [] then Some(AddClosure(Decode(operands[0])))
    else if (code == K_REQUEST || code == K_REPLY || code == K_REGISTER_SVC) && StartsWithInfo(operands) then
      var info, rest := InfoOf(operands), operands[InfoLength(operands)..];
      if code == K_REPLY then Some(Reply(info, rest))
      else if code == K_REQUEST && rest != [] then Some(Request(info, Decode(rest[0]), rest[1..]))
      else if code == K_REGISTER_SVC && |rest| == 2 then Some(RegisterService(info, rest[0], Decode(rest[1])))
      else None
    else None
  }

  /** Whatever command a client sends, the broker understands that command. */
  lemma CommandRoundTrip(c: ClientCmd)
    requires Proper(c)
    ensures Understand(Code(c), Operands(c)) == Some(c)
  {
    match c
    case Request(info, ptr, data) =>
      InfoRoundTrip(info, [Encode64(ptr)] + data);
      Decode64Encode64(ptr);
      hide InfoFrames, Encode64, Decode, InfoOf, InfoLength, StartsWithInfo;
      assert ([Encode64(ptr)] + data)[1..] == data;
    case Reply(info, data) =>
      InfoRoundTrip(info, data);
      hide InfoFrames, InfoOf, InfoLength, StartsWithInfo;
    case RegisterService(info, name, svc) =>
      InfoRoundTrip(info, [name, Encode64(svc)]);
      Decode64Encode64(svc);
      hide InfoFrames, Encode64, Decode, InfoOf, InfoLength, StartsWithInfo;
    case AddClosure(ptr) =>
      Decode64Encode64(ptr);
      hide Encode64, Decode;
    case _ =>
  }

  /** Two commands that look the same on the wire are the same. */
  lemma CommandsDiffer(c: ClientCmd, d: ClientCmd)
    requires Proper(c) && Proper(d) && CmdFrames(c) == CmdFrames(d)
    ensures c == d
  {
    CommandRoundTrip(c);
    CommandRoundTrip(d);
    hide Understand, Operands, Code;
    assert CmdFrames(c)[1] == [Code(c)] && CmdFrames(d)[1] == [Code(d)];
    assert [Code(c)][0] == [Code(d)][0];
    assert CmdFrames(c)[2..] == Operands(c) && CmdFrames(d)[2..] == Operands(d);
  }
}
