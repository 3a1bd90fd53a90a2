/** The mesh service over one channel: a client tower that asks for a descriptor once and
    then keeps a window of WRITEs in flight, and the server side of the channel. */
module MeshService {
  import opened ByteLayout
  import opened Wrappers
  import opened Buffers

  const BLOCK_SIZE: nat := 16384

  datatype Message = RequestBuffer | ResponseToRequestBuffer | OtherMessage

  /** A send-queue request and the block of the send ring it uses. */
  datatype Work =
    | SendWork(tag: Message, block: nat)
    | WriteWork(target: Descriptor, block: nat)

  /** A completion. The block is what the adapter used: the handlers do not see it. */
  datatype Event =
    | SendDone(block: nat)
    | WriteDone(block: nat)
    | RecvDone(tag: Message, block: nat)

  /** One side of a channel: the rings of its two buffers, its queues in FIFO order, its
      in-flight counters, and for each block the descriptor it holds, if any.
      `arrived` counts the messages that have landed here. */
  datatype Channel = Channel(
    sendRing: Ring, recvRing: Ring,
    sq: seq<Work>, acks: seq<Work>, receives: seq<nat>, cq: seq<Event>,
    sqInflight: int, rqInflight: int,
    sendMem: seq<Option<Descriptor>>, recvMem: seq<Option<Descriptor>>,
    own: Descriptor, peer: Option<Descriptor>, arrived: nat)
  {
    function Blocks(): nat {
      |sendRing.inUse|
    }

    predicate WellFormed() {
      && |sendRing.inUse| == |recvRing.inUse| == |sendMem| == |recvMem| > 0
      && sendRing.next >= -1 && sendRing.last >= -1 && recvRing.next >= -1 && recvRing.last >= -1
    }
  }

  // ----- the rings, with the checks that `next()` and `last()` have commented out -----

  /** Where those checks hold the code behaves as here; where one would fail, this fails. */
  function TakeNext(r: Ring): Result<Ring>
    requires |r.inUse| > 0 && r.next >= -1
  {
    if r.inUse[NextBlock(r)] then CheckFailed else Ok(Advance(r))
  }

  function TakeLast(r: Ring): Result<Ring>
    requires |r.inUse| > 0 && r.last >= -1
  {
    if !r.inUse[LastBlock(r)] then CheckFailed else Ok(Retire(r))
  }

  // ----- posting -----

  function PostWork(ch: Channel, w: Work): (r: Result<Channel>)
    requires ch.WellFormed()
    ensures r.Ok? ==> r.value.WellFormed()
  {
    var ring :- TakeNext(ch.sendRing);
    Ok(ch.(sendRing := ring, sqInflight := ch.sqInflight + 1, sq := ch.sq + [w]))
  }

  function PostSend(ch: Channel, tag: Message): (r: Result<Channel>)
    requires ch.WellFormed()
    ensures r.Ok? ==> r.value.WellFormed()
  {
    PostWork(ch, SendWork(tag, NextBlock(ch.sendRing)))
  }

  function PostWrite(ch: Channel): (r: Result<Channel>)
    requires ch.WellFormed()
    ensures r.Ok? ==> r.value.WellFormed()
  {
    if ch.peer.None? || BLOCK_SIZE > ch.peer.value.length then CheckFailed
    else PostWork(ch, WriteWork(ch.peer.value, NextBlock(ch.sendRing)))
  }

  function PostWrites(ch: Channel, k: nat): (r: Result<Channel>)
    requires ch.WellFormed()
    ensures r.Ok? ==> r.value.WellFormed()
  {
    if k == 0 then Ok(ch)
    else
      var next :- PostWrites(ch, k - 1);
      PostWrite(next)
  }

  function PostReceive(ch: Channel): (r: Result<Channel>)
    requires ch.WellFormed()
    ensures r.Ok? ==> r.value.WellFormed()
  {
    var ring :- TakeNext(ch.recvRing);
    Ok(ch.(recvRing := ring, rqInflight := ch.rqInflight + 1,
           receives := ch.receives + [NextBlock(ch.recvRing)]))
  }

  function PostReceives(ch: Channel, k: nat): (r: Result<Channel>)
    requires ch.WellFormed()
    ensures r.Ok? ==> r.value.WellFormed()
  {
    if k == 0 then Ok(ch)
    else
      var next :- PostReceives(ch, k - 1);
      PostReceive(next)
  }

  // ----- handlers -----

  /** A send-queue completion: count it off and take its block back. */
  function CountOff(ch: Channel): (r: Result<Channel>)
    requires ch.WellFormed()
    ensures r.Ok? ==> r.value.WellFormed()
  {
    var ring :- TakeLast(ch.sendRing);
    Ok(ch.(sqInflight := ch.sqInflight - 1, sendRing := ring))
  }

  /** The descriptor is copied out of the block that `next()` names, which is not posted again. */
  function ClientOnRecv(ch: Channel, tag: Message): (r: Result<Channel>)
    requires ch.WellFormed()
    ensures r.Ok? ==> r.value.WellFormed()
  {
    var ring :- TakeLast(ch.recvRing);
    if tag != ResponseToRequestBuffer then CheckFailed
    else
      var full :- TakeNext(ring);
      PostWrites(ch.(rqInflight := ch.rqInflight - 1, recvRing := full, peer := ch.recvMem[NextBlock(ring)]),
                 ch.Blocks() - 1)
  }

  function ClientDispatch(ch: Channel, e: Event): (r: Result<Channel>)
    requires ch.WellFormed()
    ensures r.Ok? ==> r.value.WellFormed()
  {
    match e
    case SendDone(_) => CountOff(ch)
    case WriteDone(_) => var c1 :- CountOff(ch); PostWrite(c1)
    case RecvDone(tag, _) => ClientOnRecv(ch, tag)
  }

  function ClientHandle(ch: Channel): Result<Channel>
    requires ch.WellFormed() && ch.cq != []
  {
    ClientDispatch(ch.(cq := ch.cq[1..]), ch.cq[0])
  }

  /** The answer carries the server's own descriptor; the block just read is posted again. */
  function ServerOnRecv(ch: Channel, tag: Message): (r: Result<Channel>)
    requires ch.WellFormed()
    ensures r.Ok? ==> r.value.WellFormed()
  {
    var ring :- TakeLast(ch.recvRing);
    if tag != RequestBuffer then CheckFailed
    else
      var c1 := ch.(recvRing := ring, rqInflight := ch.rqInflight - 1,
                    sendMem := ch.sendMem[NextBlock(ch.sendRing) := Some(ch.own)]);
      var c2 :- PostSend(c1, ResponseToRequestBuffer);
      PostReceive(c2)
  }

  function ServerDispatch(ch: Channel, e: Event): (r: Result<Channel>)
    requires ch.WellFormed()
    ensures r.Ok? ==> r.value.WellFormed()
  {
    match e
    case SendDone(_) => CountOff(ch)
    case WriteDone(_) => CheckFailed
    case RecvDone(tag, _) => ServerOnRecv(ch, tag)
  }

  function ServerHandle(ch: Channel): Result<Channel>
    requires ch.WellFormed() && ch.cq != []
  {
    ServerDispatch(ch.(cq := ch.cq[1..]), ch.cq[0])
  }

  // ----- adapter -----

  predicate CanExecute(from: Channel, to: Channel) {
    && from.sq != [] && from.sq[0].block < |from.sendMem|
    && (from.sq[0].SendWork? ==> to.receives != [] && to.receives[0] < |to.recvMem|)
  }

  /** A WRITE lands at the start of the granted memory, which is the peer's send buffer. */
  function Overwritten(mem: seq<Option<Descriptor>>): seq<Option<Descriptor>> {
    if mem == [] then [] else mem[0 := None]
  }

  /** The head of the send queue executes at the peer: a SEND fills the oldest posted
      receive with what its block holds by now, a WRITE needs the peer's grant. */
  function Execute(from: Channel, to: Channel): Result<(Channel, Channel)>
    requires CanExecute(from, to)
  {
    var w := from.sq[0];
    var from' := from.(sq := from.sq[1..], acks := from.acks + [w]);
    match w
    case SendWork(tag, block) =>
      var b := to.receives[0];
      Ok((from', to.(receives := to.receives[1..], arrived := to.arrived + 1,
                     recvMem := to.recvMem[b := from.sendMem[block]], cq := to.cq + [RecvDone(tag, b)])))
    case WriteWork(target, _) =>
      if target == to.own && BLOCK_SIZE <= to.own.length
      then Ok((from', to.(sendMem := Overwritten(to.sendMem))))
      else CheckFailed
  }

  function Completed(w: Work): Event {
    if w.SendWork? then SendDone(w.block) else WriteDone(w.block)
  }

  function Complete(ch: Channel): Channel
    requires ch.acks != []
  {
    ch.(acks := ch.acks[1..], cq := ch.cq + [Completed(ch.acks[0])])
  }

  // ----- the pair -----

  datatype Pair = Pair(client: Channel, server: Channel)

  datatype Step =
    | ClientExecutes | ServerExecutes
    | ClientCompletes | ServerCompletes
    | ClientHandles | ServerHandles

  predicate Enabled(p: Pair, step: Step) {
    match step
    case ClientExecutes => CanExecute(p.client, p.server)
    case ServerExecutes => CanExecute(p.server, p.client)
    case ClientCompletes => p.client.acks != []
    case ServerCompletes => p.server.acks != []
    case ClientHandles => p.client.WellFormed() && p.client.cq != []
    case ServerHandles => p.server.WellFormed() && p.server.cq != []
  }

  function Apply(p: Pair, step: Step): Result<Pair>
    requires Enabled(p, step)
  {
    match step
    case ClientExecutes => var (c, s) :- Execute(p.client, p.server); Ok(Pair(c, s))
    case ServerExecutes => var (s, c) :- Execute(p.server, p.client); Ok(Pair(c, s))
    case ClientCompletes => Ok(p.(client := Complete(p.client)))
    case ServerCompletes => Ok(p.(server := Complete(p.server)))
    case ClientHandles => var c :- ClientHandle(p.client); Ok(p.(client := c))
    case ServerHandles => var s :- ServerHandle(p.server); Ok(p.(server := s))
  }

  predicate Runs(p: Pair, steps: seq<Step>)
    decreases |steps|
  {
    steps == [] ||
    (Enabled(p, steps[0]) && (Apply(p, steps[0]).Ok? ==> Runs(Apply(p, steps[0]).value, steps[1..])))
  }

  function Outcome(p: Pair, steps: seq<Step>): Result<Pair>
    requires Runs(p, steps)
    decreases |steps|
  {
    if steps == [] then Ok(p)
    else
      var next :- Apply(p, steps[0]);
      Outcome(next, steps[1..])
  }

  /** A channel with its two buffers of `n` blocks registered. */
  predicate Registered(ch: Channel, n: nat) {
    && ch.sendRing == ch.recvRing == NewRing(n) && |ch.sendMem| == |ch.recvMem| == n > 0
    && ch.sq == [] && ch.acks == [] && ch.receives == [] && ch.cq == []
    && ch.sqInflight == 0 && ch.rqInflight == 0 && ch.peer == None && ch.arrived == 0
    && ch.own.length == n * BLOCK_SIZE
  }

  /** Both sides have posted their receives and passed the barrier; the client has asked. */
  function Begin(c: Channel, s: Channel, n: nat): Result<Pair>
    requires c.WellFormed() && s.WellFormed()
  {
    var c1 :- PostReceives(c, n);
    var s1 :- PostReceives(s, n);
    var c2 :- PostSend(c1, RequestBuffer);
    Ok(Pair(c2, s1))
  }
}
