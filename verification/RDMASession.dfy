/** The default handlers of `RDMASession` as they run: they refill the registered buffers of
    one channel in place, post work and look descriptors up. Each is proved against the
    transition of `SessionProtocol` it stands for. */
module RDMASession {
  import opened ByteLayout
  import opened Wrappers
  import opened Buffers
  import opened SessionProtocol

  /** Handling `n` completions one after the other, as the polling loop does with a batch. */
  function HandleMany(p: Peer, bases: seq<seq<byte>>): Result<Peer>
    requires |bases| <= |p.cq| && |p.recvBuf| >= DESCRIPTOR_SIZE
    decreases |bases|
  {
    if bases == [] then Ok(p)
    else
      var next :- Handle(p, bases[0]);
      HandlePops(p, bases[0]);
      HandleMany(next, bases[1..])
  }

  lemma OnRecvKeepsQueue(p: Peer, tag: MessageType, base: seq<byte>)
    requires |p.recvBuf| >= DESCRIPTOR_SIZE && OnRecv(p, tag, base).Ok?
    ensures var next := OnRecv(p, tag, base).value; next.cq == p.cq && next.recvBuf == p.recvBuf
  {
  }

  lemma HandlePops(p: Peer, base: seq<byte>)
    requires p.cq != [] && |p.recvBuf| >= DESCRIPTOR_SIZE && Handle(p, base).Ok?
    ensures var next := Handle(p, base).value; next.cq == p.cq[1..] && |next.recvBuf| == |p.recvBuf|
  {
    if p.cq[0].RecvDone? {
      OnRecvKeepsQueue(p.(cq := p.cq[1..]), p.cq[0].tag, base);
    }
  }

  lemma {:induction false} HandleManyStep(p: Peer, bases: seq<seq<byte>>, i: nat)
    requires i < |bases| && |bases| - i <= |p.cq| && |p.recvBuf| >= DESCRIPTOR_SIZE
    ensures var r := Handle(p, bases[i]);
      if r.Ok? then
        && r.value.cq == p.cq[1..] && |r.value.recvBuf| == |p.recvBuf|
        && HandleMany(p, bases[i..]) == HandleMany(r.value, bases[i + 1..])
      else
        HandleMany(p, bases[i..]) == CheckFailed
  {
    if Handle(p, bases[i]).Ok? {
      HandlePops(p, bases[i]);
      assert bases[i..][1..] == bases[i + 1..];
    }
  }

  /** What the handler of REQUEST_EXCHANGE_KEY does: a receive, an answer of the length of the text, and a
      WRITE with notice to the descriptor it has read; the first descriptor inserted is kept. */
  lemma RequestAnswered(p: Peer, base: seq<byte>)
    requires |p.recvBuf| >= DESCRIPTOR_SIZE && OnRecv(p, RequestExchangeKey, base).Ok?
    ensures var r, d := OnRecv(p, RequestExchangeKey, base).value, DecodeDescriptor(p.recvBuf);
      && r.rq == p.rq + 1 && r.sendBuf == p.sendBuf
      && r.peerSink == Some(if p.peerSink.Some? then p.peerSink.value else d)
      && r.sq == p.sq + [Posted(Send(|base|, ResponseExchangeKey), None), Posted(Write(24 + |base|, d, true), None)]
      && r.writeBuf[..24 + |base|] == WriteText(base)
  {
    var r, d := OnRecv(p, RequestExchangeKey, base).value, DecodeDescriptor(p.recvBuf);
    var answer, write := Posted(Send(|base|, ResponseExchangeKey), None), Posted(Write(24 + |base|, d, true), None);
    assert r.sq == (p.sq + [answer]) + [write] == p.sq + [answer, write];
  }

  class RDMAChannel {
    const recvBuffer: RDMABuffer
    const sendBuffer: RDMABuffer
    const readBuffer: RDMABuffer
    const writeBuffer: RDMABuffer
    const sinkBuffer: RDMABuffer
    const sinkDesc: Descriptor      // where the adapter registered `sinkBuffer`
    const fd: nat                   // the field of the descriptor that is never set
    const hello: seq<byte>
    var stage: Stage
    var sq: seq<Posted>
    var acks: seq<Posted>
    var rq: nat
    var cq: seq<Completion>
    var peerSink: Option<Descriptor>
    ghost var sent: seq<MessageType>
    ghost var got: seq<MessageType>
    ghost var lastText: seq<byte>

    ghost predicate Valid() {
      && recvBuffer.data != sendBuffer.data && recvBuffer.data != readBuffer.data
      && recvBuffer.data != writeBuffer.data && recvBuffer.data != sinkBuffer.data
      && sendBuffer.data != readBuffer.data && sendBuffer.data != writeBuffer.data
      && sendBuffer.data != sinkBuffer.data && readBuffer.data != writeBuffer.data
      && readBuffer.data != sinkBuffer.data && writeBuffer.data != sinkBuffer.data
      && recvBuffer.data.Length >= DESCRIPTOR_SIZE
    }

    ghost function State(): Peer
      reads this, recvBuffer.data, sendBuffer.data, readBuffer.data, writeBuffer.data, sinkBuffer.data
    {
      Peer(sinkDesc, fd, hello, stage,
           sendBuffer.data[..], recvBuffer.data[..], writeBuffer.data[..], readBuffer.data[..], sinkBuffer.data[..],
           sq, acks, rq, cq, peerSink, sent, got, lastText)
    }

    /** Allocate and register the five buffers; the adapter chooses address and rkey. */
    constructor (address: nat, rkey: nat, fd: nat, hello: seq<byte>)
      requires address < Pow256(8) && rkey < Pow256(4)
      ensures Valid() && FreshPeer(State())
      ensures sendBuffer.data.Length == recvBuffer.data.Length == 2560
      ensures readBuffer.data.Length == writeBuffer.data.Length == sinkBuffer.data.Length == 10000
      ensures State().desc == Descriptor(address, 10000, rkey) && State().hello == hello
    {
      recvBuffer := new RDMABuffer(256, 10);
      sendBuffer := new RDMABuffer(256, 10);
      readBuffer := new RDMABuffer(1000, 10);
      writeBuffer := new RDMABuffer(1000, 10);
      sinkBuffer := new RDMABuffer(1000, 10);
      sinkDesc := Descriptor(address, SINK_SIZE, rkey);
      this.fd := fd;
      this.hello := hello;
      stage := Fresh;
      sq, acks, rq, cq, peerSink := [], [], 0, [], None;
      sent, got, lastText := [], [], [];
    }

    // ----- posting -----

    method SendRemote(len: nat, tag: MessageType) returns (ok: bool)
      modifies this`sq, this`sent
      ensures var r := SessionProtocol.SendRemote(old(State()), len, tag);
        ok == r.Ok? && (ok ==> State() == r.value)
      ensures ok <==> len <= sendBuffer.data.Length
      ensures ok ==> sq == old(sq) + [Posted(Send(len, tag), None)]
    {
      ok := len <= sendBuffer.data.Length;
      if ok {
        sq := sq + [Posted(Send(len, tag), None)];
        sent := sent + [tag];
      }
    }

    method RecvRemote()
      modifies this`rq
      ensures State() == SessionProtocol.RecvRemote(old(State())) && rq == old(rq) + 1
    {
      rq := rq + 1;
    }

    method WriteRemote(text: seq<byte>, target: Descriptor, notify: bool) returns (ok: bool)
      modifies this`sq, this`lastText
      ensures var r := SessionProtocol.WriteRemote(old(State()), text, target, notify);
        ok == r.Ok? && (ok ==> State() == r.value)
      ensures ok <==> |text| <= writeBuffer.data.Length && |text| <= target.length
      ensures ok ==> sq == old(sq) + [Posted(Write(|text|, target, notify), None)]
    {
      ok := |text| <= writeBuffer.data.Length && |text| <= target.length;
      if ok {
        sq := sq + [Posted(Write(|text|, target, notify), None)];
        lastText := text;
      }
    }

    method ReadRemote(source: Descriptor) returns (ok: bool)
      modifies this`sq
      ensures var r := SessionProtocol.ReadRemote(old(State()), source);
        ok == r.Ok? && (ok ==> State() == r.value)
      ensures ok <==> readBuffer.data.Length <= source.length
      ensures ok ==> sq == old(sq) + [Posted(Read(readBuffer.data.Length, source), None)]
    {
      ok := readBuffer.data.Length <= source.length;
      if ok {
        sq := sq + [Posted(Read(readBuffer.data.Length, source), None)];
      }
    }

    // ----- before the polling loop -----

    /** `default_established_fn` up to its barrier. */
    method EstablishedBeforeSync()
      requires Valid() && stage.Fresh?
      modifies this`stage, this`rq, recvBuffer.data
      ensures State() == Prepare(old(State()))
      ensures rq == old(rq) + 2 && forall i | 0 <= i < recvBuffer.data.Length :: recvBuffer.data[i] == 0
    {
      stage := Ready;
      recvBuffer.Clear();
      RecvRemote();
      RecvRemote();
    }

    /** `default_established_fn` after its barrier. */
    method EstablishedAfterSync() returns (ok: bool)
      requires Valid()
      modifies this`stage, this`sq, this`sent, sendBuffer.data
      ensures var r := Start(old(State())); ok == r.Ok? && (ok ==> State() == r.value)
      ensures ok ==> sq == old(sq) + [Posted(Send(|hello|, TestForSyncData), None)]
      ensures ok ==> |hello| <= sendBuffer.data.Length && sendBuffer.data[..|hello|] == hello
    {
      stage := Running;
      ok := sendBuffer.FillIn(hello);
      if ok {
        ok := SendRemote(|hello|, TestForSyncData);
      }
    }

    // ----- handlers -----

    method ProcessRequest(base: seq<byte>) returns (ok: bool)
      requires Valid()
      modifies this`sq, this`rq, this`peerSink, this`sent, this`got, this`lastText, writeBuffer.data
      ensures var r := OnRecv(old(State()), RequestExchangeKey, base); ok == r.Ok? && (ok ==> State() == r.value)
    {
      got := got + [RequestExchangeKey];
      var remote := DecodeDescriptor(recvBuffer.data[..]);
      if peerSink.None? {
        peerSink := Some(remote);
      }
      RecvRemote();
      ok := SendRemote(|base|, ResponseExchangeKey);
      if ok {
        ok := writeBuffer.FillIn(WriteText(base));
        if ok {
          ok := WriteRemote(WriteText(base), remote, true);
        }
      }
    }

    method ProcessSync(base: seq<byte>) returns (ok: bool)
      requires Valid()
      modifies this`sq, this`rq, this`sent, this`got, sendBuffer.data
      ensures var r := OnRecv(old(State()), TestForSyncData, base); ok == r.Ok? && (ok ==> State() == r.value)
      ensures ok ==> rq == old(rq) + 1 && sq == old(sq) + [Posted(Send(24, RequestExchangeKey), None)]
      ensures ok ==> 24 <= sendBuffer.data.Length && sendBuffer.data[..24] == EncodeDescriptor(sinkDesc, fd)
    {
      got := got + [TestForSyncData];
      RecvRemote();
      ok := sendBuffer.FillIn(EncodeDescriptor(sinkDesc, fd));
      if ok {
        ok := SendRemote(DESCRIPTOR_SIZE, RequestExchangeKey);
      }
    }

    method ProcessOther(tag: MessageType, base: seq<byte>) returns (ok: bool)
      requires Valid() && tag != RequestExchangeKey && tag != TestForSyncData
      modifies this`sq, this`rq, this`sent, this`got, sendBuffer.data
      ensures var r := OnRecv(old(State()), tag, base); ok == r.Ok? && (ok ==> State() == r.value)
      ensures ok ==> rq == old(rq) + 1 && sq == old(sq) + [Posted(Send(|base|, Unset), None)]
      ensures ok ==> |base| <= sendBuffer.data.Length && sendBuffer.data[..|base|] == base
    {
      got := got + [tag];
      RecvRemote();
      ok := sendBuffer.FillIn(base);
      if ok {
        ok := SendRemote(|base|, Unset);
      }
    }

    method ProcessWriteDone() returns (ok: bool)
      requires Valid()
      modifies this`sq, readBuffer.data
      ensures var r := OnWriteDone(old(State())); ok == r.Ok? && (ok ==> State() == r.value)
      ensures ok <==> peerSink.Some? && readBuffer.data.Length <= peerSink.value.length
      ensures ok ==> sq == old(sq) + [Posted(Read(readBuffer.data.Length, peerSink.value), None)]
      ensures ok ==> forall i | 0 <= i < readBuffer.data.Length :: readBuffer.data[i] == 0
    {
      if peerSink.None? {
        return false;
      }
      readBuffer.Clear();
      ok := ReadRemote(peerSink.value);
    }

    method ProcessReadDone(base: seq<byte>) returns (ok: bool)
      requires Valid()
      modifies this`sq, this`lastText, writeBuffer.data
      ensures var r := OnReadDone(old(State()), base); ok == r.Ok? && (ok ==> State() == r.value)
      ensures ok ==> peerSink.Some? && sq == old(sq) + [Posted(Write(24 + |base|, peerSink.value, false), None)]
      ensures ok ==> 24 + |base| <= writeBuffer.data.Length && writeBuffer.data[..24 + |base|] == WriteText(base)
    {
      if peerSink.None? {
        return false;
      }
      ok := writeBuffer.FillIn(WriteText(base));
      if ok {
        ok := WriteRemote(WriteText(base), peerSink.value, false);
      }
    }

    // ----- the polling loop -----

    /** The switch of `process_CQ` on the oldest completion. */
    method ProcessOne(base: seq<byte>) returns (ok: bool)
      requires Valid() && cq != []
      modifies this, sendBuffer.data, writeBuffer.data, readBuffer.data
      ensures var r := Handle(old(State()), base); ok == r.Ok? && (ok ==> State() == r.value)
    {
      var c := cq[0];
      cq := cq[1..];
      ok := true;
      match c
      case SendDone =>
      case RecvDone(tag) =>
        if tag == RequestExchangeKey {
          ok := ProcessRequest(base);
        } else if tag == TestForSyncData {
          ok := ProcessSync(base);
        } else {
          ok := ProcessOther(tag, base);
        }
      case WriteDone => ok := ProcessWriteDone();
      case ReadDone => ok := ProcessReadDone(base);
      case RecvImmDone => RecvRemote();
    }

    /** One polled batch of `|bases|` completions; `bases[i]` is the text the i-th handler formats. */
    method ProcessBatch(bases: seq<seq<byte>>) returns (ok: bool)
      requires Valid() && |bases| <= |cq|
      modifies this, sendBuffer.data, writeBuffer.data, readBuffer.data
      ensures var r := HandleMany(old(State()), bases); ok == r.Ok? && (ok ==> State() == r.value)
    {
      var index := 0;
      ok := true;
      ghost var start := State();
      assert bases[0..] == bases;
      while index < |bases|
        invariant 0 <= index <= |bases| && |bases| - index <= |State().cq| && ok
        invariant HandleMany(start, bases) == HandleMany(State(), bases[index..])
      {
        HandleManyStep(State(), bases, index);
        ok := ProcessOne(bases[index]);
        if !ok {
          return;
        }
        index := index + 1;
      }
    }
  }
}
