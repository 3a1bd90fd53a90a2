/** The default session protocol: what one peer's handlers do to its buffers,
    queues and descriptor map, and the steps that two peers and their adapters
    take. Handlers run one at a time; the adapter's DMA is in separate steps. */
module SessionProtocol {
  import opened ByteLayout
  import opened Wrappers

  datatype MessageType =
    | Unset | RawDataBlock | TestForConnection | TestForSyncData | SayHello
    | RequestExchangeKey | ResponseExchangeKey

  // recv_buffer and send_buffer hold 256 * 10 bytes, the other three 1000 * 10.
  const MESSAGE_SIZE: nat := 2560
  const SINK_SIZE: nat := 10000

  datatype WorkRequest =
    | Send(len: nat, tag: MessageType)
    | Write(len: nat, target: Descriptor, notify: bool)
    | Read(len: nat, source: Descriptor)

  /** A work request in the send queue. `data` is what the adapter has fetched from
      the source buffer or, for a READ, what the peer's adapter has answered. */
  datatype Posted = Posted(wr: WorkRequest, data: Option<seq<byte>>)

  datatype Completion = SendDone | WriteDone | ReadDone | RecvDone(tag: MessageType) | RecvImmDone

  datatype Stage = Fresh | Ready | Running

  /** One side of the connection.
      - `sq` holds the requests the peer has not executed yet, `acks` the executed ones
        whose completion this side has not seen yet, both in post order;
      - `rq` counts posted receives: all of them name `recvBuf`;
      - `cq` is the completion queue, together with what a poll took off it and the
        handlers have not reached yet;
      - `sent`, `got` and `lastText` record the run: the tags of the SENDs posted and of the
        messages handled, and the text of the last WRITE posted. */
  datatype Peer = Peer(
    desc: Descriptor, fd: nat, hello: seq<byte>,
    stage: Stage,
    sendBuf: seq<byte>, recvBuf: seq<byte>, writeBuf: seq<byte>, readBuf: seq<byte>, sink: seq<byte>,
    sq: seq<Posted>, acks: seq<Posted>, rq: nat, cq: seq<Completion>,
    peerSink: Option<Descriptor>,
    sent: seq<MessageType>, got: seq<MessageType>, lastText: seq<byte>)

  // ----- posting -----

  function SendRemote(p: Peer, len: nat, tag: MessageType): Result<Peer> {
    if len <= |p.sendBuf| then
      Ok(p.(sq := p.sq + [Posted(Send(len, tag), None)], sent := p.sent + [tag]))
    else
      CheckFailed
  }

  function RecvRemote(p: Peer): Peer {
    p.(rq := p.rq + 1)
  }

  function WriteRemote(p: Peer, text: seq<byte>, target: Descriptor, notify: bool): Result<Peer> {
    if |text| <= |p.writeBuf| && |text| <= target.length then
      Ok(p.(sq := p.sq + [Posted(Write(|text|, target, notify), None)], lastText := text))
    else
      CheckFailed
  }

  function ReadRemote(p: Peer, source: Descriptor): Result<Peer> {
    if |p.readBuf| <= source.length then
      Ok(p.(sq := p.sq + [Posted(Read(|p.readBuf|, source), None)]))
    else
      CheckFailed
  }

  function FillSend(p: Peer, text: seq<byte>): Result<Peer> {
    if |text| <= |p.sendBuf| then Ok(p.(sendBuf := Padded(text, |p.sendBuf|))) else CheckFailed
  }

  function FillWrite(p: Peer, text: seq<byte>): Result<Peer> {
    if |text| <= |p.writeBuf| then Ok(p.(writeBuf := Padded(text, |p.writeBuf|))) else CheckFailed
  }

  /** `insert_peer_buffer` keeps the first descriptor inserted. */
  function InsertPeerSink(p: Peer, d: Descriptor): Peer {
    if p.peerSink.None? then p.(peerSink := Some(d)) else p
  }

  // ----- handlers -----

  function WriteText(base: seq<byte>): seq<byte> {
    Ascii("[RDMA write/read test]: ") + base
  }

  /** `default_process_recv_done`; `base` is the text the handler formats. */
  function OnRecv(p: Peer, tag: MessageType, base: seq<byte>): Result<Peer>
    requires |p.recvBuf| >= DESCRIPTOR_SIZE
  {
    var seen := p.(got := p.got + [tag]);
    match tag
    case RequestExchangeKey =>
      var remote := DecodeDescriptor(p.recvBuf);
      var p1 := RecvRemote(InsertPeerSink(seen, remote));
      var p2 :- SendRemote(p1, |base|, ResponseExchangeKey);   // send_buffer is not refilled
      var p3 :- FillWrite(p2, WriteText(base));
      WriteRemote(p3, WriteText(base), remote, true)
    case TestForSyncData =>
      var p1 :- FillSend(RecvRemote(seen), EncodeDescriptor(p.desc, p.fd));
      SendRemote(p1, DESCRIPTOR_SIZE, RequestExchangeKey)
    case _ =>
      var p1 :- FillSend(RecvRemote(seen), base);
      SendRemote(p1, |base|, Unset)
  }

  function OnWriteDone(p: Peer): Result<Peer> {
    if p.peerSink.None? then CheckFailed
    else ReadRemote(p.(readBuf := Zeros(|p.readBuf|)), p.peerSink.value)
  }

  function OnReadDone(p: Peer, base: seq<byte>): Result<Peer> {
    if p.peerSink.None? then CheckFailed
    else
      var p1 :- FillWrite(p, WriteText(base));
      WriteRemote(p1, WriteText(base), p.peerSink.value, false)
  }

  function Dispatch(p: Peer, c: Completion, base: seq<byte>): Result<Peer>
    requires |p.recvBuf| >= DESCRIPTOR_SIZE
  {
    match c
    case SendDone => Ok(p)
    case RecvDone(tag) => OnRecv(p, tag, base)
    case WriteDone => OnWriteDone(p)
    case ReadDone => OnReadDone(p, base)
    case RecvImmDone => Ok(RecvRemote(p))
  }

  /** Take the oldest completion and run its handler. */
  function Handle(p: Peer, base: seq<byte>): Result<Peer>
    requires p.cq != [] && |p.recvBuf| >= DESCRIPTOR_SIZE
  {
    Dispatch(p.(cq := p.cq[1..]), p.cq[0], base)
  }

  // ----- start of service (`default_established_fn`) -----

  /** Up to the barrier: clear `recv_buffer`, post two receives. */
  function Prepare(p: Peer): Peer {
    RecvRemote(RecvRemote(p.(stage := Ready, recvBuf := Zeros(|p.recvBuf|))))
  }

  /** After the barrier: greet the peer. */
  function Start(p: Peer): Result<Peer> {
    var p1 :- FillSend(p.(stage := Running), p.hello);
    SendRemote(p1, |p.hello|, TestForSyncData)
  }

  // ----- adapter -----


  predicate CanFetch(p: Peer, i: nat) {
    && i < |p.sq| && !p.sq[i].wr.Read?
    && p.sq[i].wr.len <= (if p.sq[i].wr.Send? then |p.sendBuf| else |p.writeBuf|)
  }

  /** The adapter reads the source bytes of request `i`, possibly not for the first time. */
  function Fetch(p: Peer, i: nat): Peer
    requires CanFetch(p, i)
  {
    var wr := p.sq[i].wr;
    var source := if wr.Send? then p.sendBuf else p.writeBuf;
    p.(sq := p.sq[i := Posted(wr, Some(source[..wr.len]))])
  }

  predicate NeedsReceive(wr: WorkRequest) {
    wr.Send? || (wr.Write? && wr.notify)
  }

  /** The head of `p`'s send queue can execute at `q`: it has been fetched, and a
      receive is posted if it consumes one (otherwise it is retried without end). */
  predicate CanDeliver(p: Peer, q: Peer) {
    && p.sq != []
    && (p.sq[0].wr.Read? || p.sq[0].data.Some?)
    && (NeedsReceive(p.sq[0].wr) ==> q.rq > 0)
  }

  /** The responder's access check: the descriptor must name `q`'s sink. */
  predicate Grants(q: Peer, d: Descriptor, len: nat) {
    d.addr == q.desc.addr && d.rkey == q.desc.rkey && len <= |q.sink|
  }

  /** Execute the head of `p.sq` at `q`. A request that names memory `q` did not
      grant, or does not fit the receive, breaks the connection. */
  function Deliver(p: Peer, q: Peer): Result<(Peer, Peer)>
    requires CanDeliver(p, q)
  {
    var it := p.sq[0];
    var p1 := p.(sq := p.sq[1..]);
    match it.wr
    case Send(len, tag) =>
      if |it.data.value| > |q.recvBuf| then CheckFailed
      else
        Ok((p1.(acks := p.acks + [it]),
            q.(recvBuf := Overlay(q.recvBuf, it.data.value), rq := q.rq - 1, cq := q.cq + [RecvDone(tag)])))
    case Write(len, target, notify) =>
      if !Grants(q, target, |it.data.value|) then CheckFailed
      else
        var q1 := q.(sink := Overlay(q.sink, it.data.value));
        Ok((p1.(acks := p.acks + [it]),
            if notify then q1.(rq := q.rq - 1, cq := q.cq + [RecvImmDone]) else q1))
    case Read(len, source) =>
      if !Grants(q, source, len) then CheckFailed
      else Ok((p1.(acks := p.acks + [it.(data := Some(q.sink[..len]))]), q))
  }

  function Completes(wr: WorkRequest): Completion {
    match wr
    case Send(_, _) => SendDone
    case Write(_, _, _) => WriteDone
    case Read(_, _) => ReadDone
  }

  predicate CanAck(p: Peer) {
    && p.acks != []
    && (p.acks[0].wr.Read? ==> p.acks[0].data.Some? && |p.acks[0].data.value| <= |p.readBuf|)
  }

  /** The oldest executed request completes at `p`; the answer to a READ lands in `read_buffer`. */
  function Ack(p: Peer): Peer
    requires CanAck(p)
  {
    var it := p.acks[0];
    p.(acks := p.acks[1..], cq := p.cq + [Completes(it.wr)],
       readBuf := if it.wr.Read? then Overlay(p.readBuf, it.data.value) else p.readBuf)
  }

  // ----- two peers -----

  datatype Side = Left | Right

  datatype System = System(left: Peer, right: Peer) {
    function Mine(side: Side): Peer {
      if side.Left? then left else right
    }

    function Theirs(side: Side): Peer {
      if side.Left? then right else left
    }

    function With(side: Side, mine: Peer, theirs: Peer): System {
      if side.Left? then System(mine, theirs) else System(theirs, mine)
    }
  }

  datatype Step =
    | PrepareStep(side: Side)
    | StartStep(side: Side)
    | FetchStep(side: Side, index: nat)
    | DeliverStep(side: Side)
    | AckStep(side: Side)
    | HandleStep(side: Side, base: seq<byte>)

  predicate Enabled(s: System, step: Step) {
    var p, q := s.Mine(step.side), s.Theirs(step.side);
    match step
    case PrepareStep(_) => p.stage.Fresh?
    case StartStep(_) => p.stage.Ready? && !q.stage.Fresh?     // sync_with_peer
    case FetchStep(_, i) => CanFetch(p, i)
    case DeliverStep(_) => CanDeliver(p, q)
    case AckStep(_) => CanAck(p)
    case HandleStep(_, _) => p.stage.Running? && p.cq != [] && |p.recvBuf| >= DESCRIPTOR_SIZE
  }

  function Apply(s: System, step: Step): Result<System>
    requires Enabled(s, step)
  {
    var side := step.side;
    var p, q := s.Mine(side), s.Theirs(side);
    match step
    case PrepareStep(_) => Ok(s.With(side, Prepare(p), q))
    case StartStep(_) => var p' :- Start(p); Ok(s.With(side, p', q))
    case FetchStep(_, i) => Ok(s.With(side, Fetch(p, i), q))
    case DeliverStep(_) => var (p', q') :- Deliver(p, q); Ok(s.With(side, p', q'))
    case AckStep(_) => Ok(s.With(side, Ack(p), q))
    case HandleStep(_, base) => var p' :- Handle(p, base); Ok(s.With(side, p', q))
  }

  /** `steps` can be taken one after the other from `s`, up to a failing one if there is any. */
  predicate Runs(s: System, steps: seq<Step>)
    decreases |steps|
  {
    steps == [] ||
    (Enabled(s, steps[0]) && (Apply(s, steps[0]).Ok? ==> Runs(Apply(s, steps[0]).value, steps[1..])))
  }

  /** Where a run ends, or the failure it meets. */
  function Outcome(s: System, steps: seq<Step>): Result<System>
    requires Runs(s, steps)
    decreases |steps|
  {
    if steps == [] then Ok(s)
    else
      var next :- Apply(s, steps[0]);
      Outcome(next, steps[1..])
  }

  // ----- initial states -----

  /** Buffers just allocated and registered: sizes are fixed, contents are arbitrary. */
  predicate FreshPeer(p: Peer) {
    && p.stage.Fresh?
    && |p.sendBuf| == |p.recvBuf| == MESSAGE_SIZE
    && |p.writeBuf| == |p.readBuf| == |p.sink| == SINK_SIZE
    && p.desc.Representable() && p.desc.length == SINK_SIZE
    && p.sq == [] && p.acks == [] && p.rq == 0 && p.cq == []
    && p.peerSink == None && p.sent == [] && p.got == [] && p.lastText == []
  }

  predicate Initial(s: System) {
    FreshPeer(s.left) && FreshPeer(s.right)
  }

  // ----- what the run assumes of the formatted texts -----

  /** The greetings and every text a handler formats fit `send_buffer`. */
  predicate TextFits(step: Step) {
    step.HandleStep? ==> |step.base| <= MESSAGE_SIZE
  }

  predicate TextsFit(s: System, steps: seq<Step>) {
    && |s.left.hello| <= MESSAGE_SIZE && |s.right.hello| <= MESSAGE_SIZE
    && forall i | 0 <= i < |steps| :: TextFits(steps[i])
  }
}
