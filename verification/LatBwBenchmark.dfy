/** The benchmark's two-sided part: the client and the server go through the descriptor
    exchange, 24 rounds of latency SENDs and the final BYEBYE, each polling one completion
    queue of its own. */
module LatBwBenchmark {
  import opened Wrappers

  const MB8: nat := 8388608      // the size of a block
  const BLOCKS: nat := 1000
  const ROUNDS: nat := 24
  const QUEUE: nat := 1024       // max_send_wr and max_recv_wr; the completion queue has twice as many

  datatype Message =
    | RequestBuffer | ResponseToRequestBuffer
    | SendTestRequest | ResponseToSendTestRequest
    | RawData | ByeBye

  datatype Packet = Packet(tag: Message, len: nat)

  datatype Event = SendDone | RecvDone(tag: Message)

  /** `buffer_size` in round `p`: 1, 2, 4, ... */
  function Size(p: nat): (n: nat)
    ensures n > 0
  {
    if p <= 1 then 1 else 2 * Size(p - 1)
  }

  /** One side's queues: pending SENDs, completions, lengths of the posted receives, the ring
      counters of its buffer; `out` counts its SENDs that have been delivered. */
  datatype Port = Port(sq: seq<Packet>, cq: seq<Event>, receives: seq<nat>, next: int, last: int, out: nat)

  /** Where the client is. Phase 0 is the exchange, phase p the p-th round. `CAwait` is the loop
      that waits for a send and a receive completion in any order; `CQuiet` are the one-sided
      tests, between which and the server nothing passes. */
  datatype ClientPc =
    | CStart
    | CAwait(phase: nat, sent: bool, got: bool)
    | CBegin(phase: nat)
    | CPost(phase: nat, i: nat)
    | CPoll(phase: nat, i: nat)
    | CQuiet
    | CEnd

  /** Where the server is. Phase 25 is the wait for BYEBYE. */
  datatype ServerPc =
    | SPrepare(phase: nat)
    | SAwait(phase: nat)
    | SFill(phase: nat, j: nat)
    | SReply(phase: nat)
    | SAcked(phase: nat)
    | SDrain(phase: nat, j: nat)
    | SEnd

  datatype State = State(cpc: ClientPc, c: Port, spc: ServerPc, s: Port)

  function PostSend(p: Port, packet: Packet): Port {
    p.(sq := p.sq + [packet])
  }

  function PostRecv(p: Port, length: nat): Port {
    p.(receives := p.receives + [length])
  }

  function Poll(p: Port): Port
    requires p.cq != []
  {
    p.(cq := p.cq[1..])
  }

  // ----- the client -----

  predicate ClientCanRun(pc: ClientPc, c: Port) {
    match pc
    case CAwait(_, _, _) => c.cq != []
    case CPoll(_, _) => c.cq != []
    case CEnd => false
    case _ => true
  }

  function Expected(phase: nat): Message {
    if phase == 0 then ResponseToRequestBuffer else ResponseToSendTestRequest
  }

  function AfterWait(phase: nat, sent: bool, got: bool): ClientPc {
    if !(sent && got) then CAwait(phase, sent, got)
    else if phase == 0 then CBegin(1)
    else CPost(phase, 0)
  }

  function AfterRaw(phase: nat, i: nat): ClientPc {
    if i + 1 < BLOCKS then CPost(phase, i + 1)
    else if phase < ROUNDS then CBegin(phase + 1)
    else CQuiet
  }

  /** The client's next action, up to its next poll. */
  function ClientRun(pc: ClientPc, c: Port): Result<(ClientPc, Port)>
    requires ClientCanRun(pc, c)
  {
    match pc
    case CStart => Ok((CAwait(0, false, false), PostSend(c, Packet(RequestBuffer, 2))))
    case CAwait(phase, sent, got) =>
      if c.cq[0].SendDone? then
        if sent then CheckFailed else Ok((AfterWait(phase, true, got), Poll(c)))
      else if c.cq[0].tag != Expected(phase) || got then CheckFailed
      else Ok((AfterWait(phase, sent, true), Poll(c)))
    case CBegin(phase) =>
      Ok((CAwait(phase, false, false), PostSend(PostRecv(c, 64), Packet(SendTestRequest, 2))))
    case CPost(phase, i) =>
      if Size(phase) > MB8 then CheckFailed
      else Ok((CPoll(phase, i), PostSend(c.(next := c.next + 1), Packet(RawData, Size(phase)))))
    case CPoll(phase, i) =>
      if !c.cq[0].SendDone? then CheckFailed
      else Ok((AfterRaw(phase, i), Poll(c).(last := c.last + 1)))
    case CQuiet => Ok((CEnd, PostSend(c, Packet(ByeBye, 64))))
  }

  // ----- the server -----

  predicate ServerCanRun(pc: ServerPc, s: Port) {
    match pc
    case SAwait(_) => s.cq != []
    case SAcked(_) => s.cq != []
    case SDrain(_, _) => s.cq != []
    case SEnd => false
    case _ => true
  }

  function AfterRequest(phase: nat): ServerPc {
    if phase == 0 then SReply(0)
    else if phase <= ROUNDS then SFill(phase, 0)
    else SEnd
  }

  function Reply(phase: nat): Packet {
    if phase == 0 then Packet(ResponseToRequestBuffer, 64) else Packet(ResponseToSendTestRequest, 0)
  }

  function AfterFill(phase: nat, j: nat): ServerPc {
    if j + 1 < BLOCKS then SFill(phase, j + 1) else SReply(phase)
  }

  function AfterAck(phase: nat): ServerPc {
    if phase == 0 then SPrepare(1) else SDrain(phase, 0)
  }

  function AfterDrain(phase: nat, j: nat): ServerPc {
    if j + 1 < BLOCKS then SDrain(phase, j + 1) else SPrepare(phase + 1)
  }

  /** The server's next action, up to its next poll. */
  function ServerRun(pc: ServerPc, s: Port): Result<(ServerPc, Port)>
    requires ServerCanRun(pc, s)
  {
    match pc
    case SPrepare(phase) => Ok((SAwait(phase), PostRecv(s, 64)))
    case SAwait(phase) =>
      if !s.cq[0].RecvDone? then CheckFailed
      else if phase == 0 && s.cq[0].tag != RequestBuffer then CheckFailed
      else if phase > ROUNDS && s.cq[0].tag != ByeBye then CheckFailed
      else Ok((AfterRequest(phase), Poll(s)))
    case SFill(phase, j) =>
      Ok((AfterFill(phase, j), PostRecv(s.(next := s.next + 1), MB8)))
    case SReply(phase) => Ok((SAcked(phase), PostSend(s, Reply(phase))))
    case SAcked(phase) =>
      if !s.cq[0].SendDone? then CheckFailed
      else Ok((AfterAck(phase), Poll(s)))
    case SDrain(phase, j) =>
      if s.cq[0] != RecvDone(RawData) then CheckFailed
      else Ok((AfterDrain(phase, j), Poll(s).(last := s.last + 1)))
  }

  // ----- the adapters -----

  predicate CanDeliver(from: Port, to: Port) {
    from.sq != [] && to.receives != []
  }

  /** The head of `from.sq` lands in the oldest receive of the other side; both completions
      are enqueued then. */
  function Deliver(from: Port, to: Port): Result<(Port, Port)>
    requires CanDeliver(from, to)
  {
    if from.sq[0].len > to.receives[0] then CheckFailed
    else Ok((from.(sq := from.sq[1..], cq := from.cq + [SendDone], out := from.out + 1),
             to.(receives := to.receives[1..], cq := to.cq + [RecvDone(from.sq[0].tag)])))
  }

  // ----- runs -----

  datatype Step = ClientRuns | ServerRuns | ClientDelivers | ServerDelivers

  predicate Enabled(st: State, step: Step) {
    match step
    case ClientRuns => ClientCanRun(st.cpc, st.c)
    case ServerRuns => ServerCanRun(st.spc, st.s)
    case ClientDelivers => CanDeliver(st.c, st.s)
    case ServerDelivers => CanDeliver(st.s, st.c)
  }

  function Apply(st: State, step: Step): Result<State>
    requires Enabled(st, step)
  {
    match step
    case ClientRuns => var r :- ClientRun(st.cpc, st.c); Ok(st.(cpc := r.0, c := r.1))
    case ServerRuns => var r :- ServerRun(st.spc, st.s); Ok(st.(spc := r.0, s := r.1))
    case ClientDelivers => var r :- Deliver(st.c, st.s); Ok(st.(c := r.0, s := r.1))
    case ServerDelivers => var r :- Deliver(st.s, st.c); Ok(st.(s := r.0, c := r.1))
  }

  predicate Runs(st: State, steps: seq<Step>)
    decreases |steps|
  {
    steps == [] ||
    (Enabled(st, steps[0]) && (Apply(st, steps[0]).Ok? ==> Runs(Apply(st, steps[0]).value, steps[1..])))
  }

  function Outcome(st: State, steps: seq<Step>): Result<State>
    requires Runs(st, steps)
    decreases |steps|
  {
    if steps == [] then Ok(st)
    else
      var next :- Apply(st, steps[0]);
      Outcome(next, steps[1..])
  }

  /** Both sides have posted the receive for the exchange and passed the barrier. */
  function Initial(): State {
    var port := Port([], [], [MB8], -1, -1, 0);
    State(CStart, port, SAwait(0), port)
  }
}
