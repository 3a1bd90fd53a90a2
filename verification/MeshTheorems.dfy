/** What the mesh service promises, for every run over one channel. */
module MeshTheorems {
  import opened ByteLayout
  import opened Wrappers
  import opened Projection
  import opened Buffers
  import opened MeshService
  import opened MeshInvariant

  // ----- every run -----

  /** What each step does, spelled out. */
  lemma ApplyValue(p: Pair, step: Step)
    requires Enabled(p, step)
    ensures step.ClientExecutes? && Execute(p.client, p.server).Ok? ==>
      var (c, s) := Execute(p.client, p.server).value; Apply(p, step) == Ok(Pair(c, s))
    ensures step.ServerExecutes? && Execute(p.server, p.client).Ok? ==>
      var (s, c) := Execute(p.server, p.client).value; Apply(p, step) == Ok(Pair(c, s))
    ensures step.ClientHandles? && ClientHandle(p.client).Ok? ==>
      Apply(p, step) == Ok(p.(client := ClientHandle(p.client).value))
    ensures step.ServerHandles? && ServerHandle(p.server).Ok? ==>
      Apply(p, step) == Ok(p.(server := ServerHandle(p.server).value))
  {
  }

  lemma ClientExecutesStep(p: Pair)
    requires Inv(p) && Enabled(p, ClientExecutes)
    ensures var r := Apply(p, ClientExecutes); r.Ok? && Inv(r.value)
  {
    ClientExecutesKeeps(p);
    ApplyValue(p, ClientExecutes);
  }

  lemma ServerExecutesStep(p: Pair)
    requires Inv(p) && Enabled(p, ServerExecutes)
    ensures var r := Apply(p, ServerExecutes); r.Ok? && Inv(r.value)
  {
    ServerExecutesKeeps(p);
    ApplyValue(p, ServerExecutes);
  }

  lemma CompletesStep(p: Pair, step: Step)
    requires Inv(p) && Enabled(p, step) && (step.ClientCompletes? || step.ServerCompletes?)
    ensures Apply(p, step).Ok? && Inv(Apply(p, step).value)
  {
    if step.ClientCompletes? {
      CompleteKeepsFifo(p.client);
      ClientCompletesExchange(p.client, p.server);
    } else {
      CompleteKeepsFifo(p.server);
      ServerCompletesExchange(p.client, p.server);
    }
  }

  lemma ClientHandlesStep(p: Pair)
    requires Inv(p) && Enabled(p, ClientHandles)
    ensures var r := Apply(p, ClientHandles); r.Ok? && Inv(r.value)
  {
    ClientHandlesKeeps(p);
    ApplyValue(p, ClientHandles);
  }

  lemma ServerHandlesStep(p: Pair)
    requires Inv(p) && Enabled(p, ServerHandles)
    ensures var r := Apply(p, ServerHandles); r.Ok? && Inv(r.value)
  {
    ServerHandlesKeeps(p);
    ApplyValue(p, ServerHandles);
  }

  lemma StepKeeps(p: Pair, step: Step)
    requires Inv(p) && Enabled(p, step)
    ensures Apply(p, step).Ok? && Inv(Apply(p, step).value)
  {
    if step.ClientExecutes? {
      ClientExecutesStep(p);
    } else if step.ServerExecutes? {
      ServerExecutesStep(p);
    } else if step.ClientHandles? {
      ClientHandlesStep(p);
    } else if step.ServerHandles? {
      ServerHandlesStep(p);
    } else {
      CompletesStep(p, step);
    }
  }

  lemma ClientHandlesKeeps(p: Pair)
    requires Inv(p) && p.client.cq != []
    ensures var r := ClientHandle(p.client); r.Ok? && Inv(p.(client := r.value))
  {
    match p.client.cq[0]
    case SendDone(_) => ClientSendDone(p);
    case WriteDone(_) => ClientWriteDone(p);
    case RecvDone(_, _) => ClientResponse(p);
  }

  lemma ServerHandlesKeeps(p: Pair)
    requires Inv(p) && p.server.cq != []
    ensures var r := ServerHandle(p.server); r.Ok? && Inv(p.(server := r.value))
  {
    ServerNoWrites(p);
    if p.server.cq[0].SendDone? {
      ServerSendDone(p);
    } else {
      ServerRequest(p);
    }
  }

  /** Whatever every step keeps, every run keeps. */
  lemma {:induction false} RunInduction(keep: Pair -> bool, p: Pair, steps: seq<Step>)
    requires keep(p) && Runs(p, steps)
    requires forall q, step | keep(q) && Enabled(q, step) :: Apply(q, step).Ok? && keep(Apply(q, step).value)
    ensures Outcome(p, steps).Ok? && keep(Outcome(p, steps).value)
    decreases |steps|
  {
    if steps != [] {
      RunInduction(keep, Apply(p, steps[0]).value, steps[1..]);
    }
  }

  lemma {:induction false} RunKeeps(p: Pair, steps: seq<Step>)
    requires Inv(p) && Runs(p, steps)
    ensures Outcome(p, steps).Ok? && Inv(Outcome(p, steps).value)
  {
    forall q, step | Inv(q) && Enabled(q, step) ensures Apply(q, step).Ok? && Inv(Apply(q, step).value) {
      StepKeeps(q, step);
    }
    RunInduction(Inv, p, steps);
  }

  // ----- the start -----

  /** After `k` receives on a fresh ring. */
  lemma {:induction false} ReceivesPosted(ch: Channel, n: nat, k: nat)
    requires Registered(ch, n) && k <= n
    ensures PostReceives(ch, k).Ok?
    ensures var r := PostReceives(ch, k).value;
      && r == ch.(recvRing := r.recvRing, receives := r.receives, rqInflight := k)
      && Windowed(r.recvRing) && |r.recvRing.inUse| == n
      && r.recvRing.next == k - 1 && r.recvRing.last == -1 && r.receives == WindowBlocks(r.recvRing)
  {
    if k == 0 {
      NewRingWindowed(n);
    } else {
      ReceivesPosted(ch, n, k - 1);
      ReceivePosted(PostReceives(ch, k - 1).value);
    }
  }

  lemma ReceivePosted(ch: Channel)
    requires ch.WellFormed() && Windowed(ch.recvRing) && ch.recvRing.Outstanding() < |ch.recvRing.inUse|
    requires ch.receives == WindowBlocks(ch.recvRing)
    ensures PostReceive(ch).Ok?
    ensures var r := PostReceive(ch).value;
      && r == ch.(recvRing := Advance(ch.recvRing), receives := r.receives, rqInflight := ch.rqInflight + 1)
      && Windowed(r.recvRing) && r.receives == WindowBlocks(r.recvRing)
  {
    AdvanceWindow(ch.recvRing);
    WindowAdvance(ch.recvRing);
  }

  lemma {:induction false} ReadyRings(ch: Channel, n: nat)
    requires Registered(ch, n)
    ensures PostReceives(ch, n).Ok?
    ensures var r := PostReceives(ch, n).value;
      && Rings(r) && r.sqInflight == 0 && r.rqInflight == n == r.Blocks()
      && r.sq == r.acks == [] && r.cq == [] && r.peer == None && r.own == ch.own
  {
    ReceivesPosted(ch, n, n);
    NewRingWindowed(n);
  }

  lemma BeginInv(c: Channel, s: Channel, n: nat)
    requires Registered(c, n) && Registered(s, n)
    ensures Begin(c, s, n).Ok? && Inv(Begin(c, s, n).value)
  {
    ReadyRings(c, n);
    ReadyRings(s, n);
    var c1, s1 := PostReceives(c, n).value, PostReceives(s, n).value;
    var w := SendWork(RequestBuffer, NextBlock(c1.sendRing));
    PostKeepsFifo(c1, w);
    PushWork(c1.sq, w);
    assert s1.own.length >= BLOCK_SIZE by {
      Product(BLOCK_SIZE, n);
    }
    assert Exchange(PostWork(c1, w).value, s1);
  }

  /** `q` can be reached from two registered channels with rings of `n` blocks. */
  predicate Reaches(c: Channel, s: Channel, n: nat, steps: seq<Step>, q: Pair) {
    && Registered(c, n) && Registered(s, n)
    && c.WellFormed() && s.WellFormed() && Begin(c, s, n).Ok?
    && Runs(Begin(c, s, n).value, steps) && Outcome(Begin(c, s, n).value, steps) == Ok(q)
  }

  lemma ReachedInv(c: Channel, s: Channel, n: nat, steps: seq<Step>, q: Pair)
    requires Reaches(c, s, n, steps, q)
    ensures Inv(q)
  {
    BeginInv(c, s, n);
    RunKeeps(Begin(c, s, n).value, steps);
  }

  /** No run meets a failed check, not even one of the two that `next()` and `last()` have
      commented out, an UNIMPLEMENTED branch, or a WRITE the peer has not granted. */
  lemma {:induction false} NoRunFails(c: Channel, s: Channel, n: nat, steps: seq<Step>)
    requires Registered(c, n) && Registered(s, n)
    ensures c.WellFormed() && s.WellFormed() && Begin(c, s, n).Ok?
    ensures Runs(Begin(c, s, n).value, steps) ==> Outcome(Begin(c, s, n).value, steps).Ok?
  {
    BeginInv(c, s, n);
    if Runs(Begin(c, s, n).value, steps) {
      RunKeeps(Begin(c, s, n).value, steps);
    }
  }

  /** Which checks the handlers make, in whatever state they run: the rings' commented-out ones, and
      that a message, a completion and a descriptor are of the kind they expect. */
  lemma HandlerChecks(ch: Channel, e: Event)
    requires ch.WellFormed()
    ensures ServerDispatch(ch, e).Ok? ==>
      match e
      case SendDone(_) => ch.sendRing.inUse[LastBlock(ch.sendRing)]
      case WriteDone(_) => false
      case RecvDone(tag, _) =>
        && tag == RequestBuffer && ch.recvRing.inUse[LastBlock(ch.recvRing)]
        && !ch.sendRing.inUse[NextBlock(ch.sendRing)]
    ensures ClientDispatch(ch, e).Ok? ==>
      match e
      case SendDone(_) => ch.sendRing.inUse[LastBlock(ch.sendRing)]
      case WriteDone(_) =>
        ch.sendRing.inUse[LastBlock(ch.sendRing)] && ch.peer.Some? && 16384 <= ch.peer.value.length
      case RecvDone(tag, _) => tag == ResponseToRequestBuffer && ch.recvRing.inUse[LastBlock(ch.recvRing)]
  {
  }

  /** What the adapters ask of a request, and what a WRITE does to the memory it lands on: the descriptor
      in the first block of the granted memory is gone, every other block is as it was. */
  lemma GrantChecked(from: Channel, to: Channel)
    requires CanExecute(from, to) && from.sq[0].WriteWork?
    ensures Execute(from, to).Ok? <==> from.sq[0].target == to.own && 16384 <= to.own.length
    ensures Execute(from, to).Ok? ==>
      var (from', to') := Execute(from, to).value;
      && |to'.sendMem| == |to.sendMem| && (to.sendMem != [] ==> to'.sendMem[0] == None)
      && (forall i | 0 < i < |to.sendMem| :: to'.sendMem[i] == to.sendMem[i])
      && to' == to.(sendMem := to'.sendMem) && from' == from.(sq := from.sq[1..], acks := from.acks + [from.sq[0]])
  {
  }

  // ----- the window -----

  /** Requests of a channel between their post and the handler of their completion. */
  function InFlight(ch: Channel): nat {
    |ch.sq| + |ch.acks| + |Collect(ch.cq, SentBlock)|
  }

  lemma {:induction false} OneBlockEach(sq: seq<Work>)
    ensures |Collect(sq, WorkBlock)| == |sq|
  {
    if sq != [] {
      OneBlockEach(sq[1..]);
    }
  }

  lemma DistinctBlocks(r: Ring, i: nat, j: nat)
    requires Windowed(r) && i < j < r.Outstanding()
    ensures WindowBlocks(r)[i] != WindowBlocks(r)[j]
  {
    OneTurn(r.last + 1 + i, r.last + 1 + j, |r.inUse|);
  }

  /** The client's requests in flight are what the two ring counters say, what the counter
      of the channel says, and never more than the send queue takes; no two of them use
      the same block. */
  lemma ClientWindow(c: Channel, s: Channel, n: nat, steps: seq<Step>, q: Pair)
    requires Reaches(c, s, n, steps, q)
    ensures InFlight(q.client) == q.client.sendRing.next - q.client.sendRing.last == q.client.sqInflight
    ensures InFlight(q.client) <= q.client.Blocks()
    ensures InFlight(q.server) == q.server.sqInflight <= 1
    ensures forall i, j | 0 <= i < j < |SendBlocks(q.client)| :: SendBlocks(q.client)[i] != SendBlocks(q.client)[j]
  {
    ReachedInv(c, s, n, steps, q);
    OneBlockEach(q.client.sq);
    OneBlockEach(q.client.acks);
    OneBlockEach(q.server.sq);
    OneBlockEach(q.server.acks);
    InflightSplit(q.server);
    forall i, j | 0 <= i < j < |SendBlocks(q.client)| ensures SendBlocks(q.client)[i] != SendBlocks(q.client)[j] {
      DistinctBlocks(q.client.sendRing, i, j);
    }
  }

  /** Before the response nothing but the request is in flight; from then on a WRITE for
      every block but one, and at most that request. Every WRITE goes to the server's buffer. */
  lemma FullPipe(c: Channel, s: Channel, n: nat, steps: seq<Step>, q: Pair)
    requires Reaches(c, s, n, steps, q)
    ensures var t := TallyOf(q.client);
      t.sends <= 1 && t.writes == if q.client.peer.Some? then q.client.Blocks() - 1 else 0
    ensures q.client.peer.Some? ==> q.client.peer == Some(q.server.own)
    ensures forall i | 0 <= i < |q.client.sq| && q.client.sq[i].WriteWork? :: q.client.sq[i].target == q.server.own
    ensures q.client.rqInflight == q.client.Blocks() - (if q.client.peer.Some? then 1 else 0)
    ensures q.server.rqInflight == q.server.Blocks()
  {
    ReachedInv(c, s, n, steps, q);
  }

  /** The WRITEs land on the memory the answer is sent from, but never before it has been sent
      and copied: what the server still has to send carries its descriptor, and by the time a
      WRITE is next to execute it has nothing to send. */
  lemma DescriptorSafe(c: Channel, s: Channel, n: nat, steps: seq<Step>, q: Pair)
    requires Reaches(c, s, n, steps, q)
    ensures forall i | 0 <= i < |q.server.sq| ::
      q.server.sq[i].block < |q.server.sendMem| && q.server.sendMem[q.server.sq[i].block] == Some(q.server.own)
    ensures q.client.sq != [] && q.client.sq[0].WriteWork? ==>
      q.server.sq == [] && q.client.peer == Some(q.server.own)
  {
    ReachedInv(c, s, n, steps, q);
    forall i | 0 <= i < |q.server.sq| ensures q.server.sq[i].SendWork? {
      CollectMember(q.server.sq, i, WriteOut);
    }
    if q.client.sq != [] && q.client.sq[0].WriteWork? {
      WriteMeansAnswered(q.client, q.server);
    }
  }

  // ----- rings and messages -----

  /** The next message lands in the block its number names, and the handler of a message
      takes exactly the block back, and gets exactly the block, it was received into. */
  predicate RingFollows(ch: Channel) {
    ch.WellFormed() ==>
      && (ch.receives != [] ==> ch.receives[0] == ch.arrived % ch.Blocks())
      && (ch.cq != [] && ch.cq[0].RecvDone? ==>
            ch.cq[0].block == LastBlock(ch.recvRing) == NextBlock(Retire(ch.recvRing)))
      && (ch.cq != [] && !ch.cq[0].RecvDone? ==> ch.cq[0].block == LastBlock(ch.sendRing))
  }

  lemma FifoFollows(ch: Channel)
    requires Rings(ch)
    ensures RingFollows(ch)
  {
    if ch.receives != [] {
      ArrivalKeepsReceiver(ch, ch.(receives := ch.receives[1..], arrived := ch.arrived + 1,
                                   cq := ch.cq + [RecvDone(OtherMessage, ch.receives[0])]), OtherMessage);
    }
    if ch.cq != [] {
      if ch.cq[0].RecvDone? {
        MessageBlock(ch);
      } else {
        CompletedBlock(ch);
      }
    }
  }

  lemma RingsFollowMessages(c: Channel, s: Channel, n: nat, steps: seq<Step>, q: Pair)
    requires Reaches(c, s, n, steps, q)
    ensures q.client.WellFormed() && RingFollows(q.client)
    ensures q.server.WellFormed() && RingFollows(q.server)
  {
    ReachedInv(c, s, n, steps, q);
    FifoFollows(q.client);
    FifoFollows(q.server);
  }

  /** The block of a posted request is one of the ring's. */
  lemma HeadInRing(ch: Channel)
    requires Rings(ch) && ch.sq != []
    ensures ch.sq[0].block < |ch.sendMem|
  {
    assert Collect(ch.sq, WorkBlock)[0] == ch.sq[0].block;
    var k := |Collect(ch.cq, SentBlock) + Collect(ch.acks, WorkBlock)|;
    assert SendBlocks(ch)[k] == ch.sq[0].block;
  }

  lemma ReceiveInRing(ch: Channel)
    requires Rings(ch) && ch.receives != []
    ensures ch.receives[0] < |ch.recvMem|
  {
    assert RecvBlocks(ch)[|Collect(ch.cq, RecvBlock)|] == ch.receives[0];
  }

  /** Enough receives are posted for the messages on their way. */
  lemma ReceivesLeft(p: Pair)
    requires Inv(p)
    ensures TallyOf(p.client).out > 0 ==> p.server.receives != []
    ensures TallyOf(p.server).out > 0 ==> p.client.receives != []
  {
    EventSplit(p.client.cq);
    EventSplit(p.server.cq);
  }

  lemma {:induction false} HeadOut(sq: seq<Work>)
    requires sq != [] && sq[0].SendWork?
    ensures |Collect(sq, MessageOut)| > 0
  {
  }

  lemma ClientCanExecute(p: Pair)
    requires Inv(p) && p.client.sq != []
    ensures CanExecute(p.client, p.server)
  {
    HeadInRing(p.client);
    if p.client.sq[0].SendWork? {
      HeadOut(p.client.sq);
      ReceivesLeft(p);
      ReceiveInRing(p.server);
    }
  }

  lemma ServerCanExecute(p: Pair)
    requires Inv(p) && p.server.sq != []
    ensures p.server.sq[0].SendWork? && CanExecute(p.server, p.client)
  {
    ServerOnlySends(p.client, p.server);
    HeadInRing(p.server);
    HeadOut(p.server.sq);
    ReceivesLeft(p);
    ReceiveInRing(p.client);
  }

  /** A message never waits for a receive: the head of either queue can execute. */
  lemma NeverStalled(c: Channel, s: Channel, n: nat, steps: seq<Step>, q: Pair)
    requires Reaches(c, s, n, steps, q)
    ensures q.client.sq != [] ==> Enabled(q, ClientExecutes)
    ensures q.server.sq != [] ==> q.server.sq[0].SendWork? && Enabled(q, ServerExecutes)
  {
    ReachedInv(c, s, n, steps, q);
    if q.client.sq != [] {
      ClientCanExecute(q);
    }
    if q.server.sq != [] {
      ServerCanExecute(q);
    }
  }

  // ----- the window fills up -----

  /** One more post passes the check that `next()` has commented out exactly if fewer requests are
      in flight than the ring has blocks. */
  lemma RoomIff(c: Channel, s: Channel, n: nat, steps: seq<Step>, q: Pair, w: Work)
    requires Reaches(c, s, n, steps, q)
    ensures q.client.WellFormed() && (PostWork(q.client, w).Ok? <==> InFlight(q.client) < q.client.Blocks())
  {
    ReachedInv(c, s, n, steps, q);
    ClientWindow(c, s, n, steps, q);
    AdvanceWindow(q.client.sendRing);
  }

  /** The client's queues, and the server's, while the two exchange their first messages. */
  predicate Alone(c: Channel, sq: nat, acks: nat, arrived: nat, blocks: nat) {
    && |c.sq| == sq && |c.acks| == acks && |c.cq| == arrived && c.Blocks() == blocks
    && (sq > 0 ==> c.sq[0].SendWork?) && (acks > 0 ==> c.acks[0].SendWork?) && (arrived > 0 ==> c.cq[0].RecvDone?)
  }

  predicate Serving(s: Channel, sq: nat, arrived: nat) {
    |s.sq| == sq && |s.cq| == arrived && (arrived > 0 ==> s.cq[0].RecvDone?)
  }

  lemma {:induction false} AskedShape(c: Channel, s: Channel, n: nat)
    requires Registered(c, n) && Registered(s, n) && Begin(c, s, n).Ok?
    requires PostReceives(c, n).Ok? && PostReceives(s, n).Ok?
    requires var c1, s1 := PostReceives(c, n).value, PostReceives(s, n).value;
      c1.sq == c1.acks == [] && c1.cq == [] && c1.Blocks() == n && s1.sq == [] && s1.cq == []
    ensures var p := Begin(c, s, n).value; Alone(p.client, 1, 0, 0, n) && Serving(p.server, 0, 0)
  {
  }

  lemma Asked(c: Channel, s: Channel, n: nat) returns (p: Pair)
    requires Registered(c, n) && Registered(s, n)
    ensures c.WellFormed() && s.WellFormed() && Begin(c, s, n) == Ok(p)
    ensures Inv(p) && Alone(p.client, 1, 0, 0, n) && Serving(p.server, 0, 0)
  {
    BeginInv(c, s, n);
    ReadyRings(c, n);
    ReadyRings(s, n);
    AskedShape(c, s, n);
    p := Begin(c, s, n).value;
  }

  lemma RequestShape(p: Pair, r: Pair, n: nat)
    requires Alone(p.client, 1, 0, 0, n) && Serving(p.server, 0, 0)
    requires Enabled(p, ClientExecutes) && Apply(p, ClientExecutes) == Ok(r)
    ensures Alone(r.client, 0, 1, 0, n) && Serving(r.server, 0, 1)
  {
  }

  lemma RequestLands(p: Pair, n: nat) returns (r: Pair)
    requires Inv(p) && Alone(p.client, 1, 0, 0, n) && Serving(p.server, 0, 0)
    ensures Enabled(p, ClientExecutes) && Apply(p, ClientExecutes) == Ok(r)
    ensures Inv(r) && Alone(r.client, 0, 1, 0, n) && Serving(r.server, 0, 1)
  {
    ClientCanExecute(p);
    ClientExecutesStep(p);
    r := Apply(p, ClientExecutes).value;
    RequestShape(p, r, n);
  }

  lemma AnswerShape(p: Pair, r: Pair, n: nat)
    requires Alone(p.client, 0, 1, 0, n) && Serving(p.server, 0, 1)
    requires Enabled(p, ServerHandles) && Apply(p, ServerHandles) == Ok(r)
    requires ServerHandle(p.server) == PostSend(Answering(p.server), ResponseToRequestBuffer)
    ensures Alone(r.client, 0, 1, 0, n) && Serving(r.server, 1, 0)
  {
    assert r.server == PostSend(Answering(p.server), ResponseToRequestBuffer).value;
  }

  lemma AnswerValue(p: Pair)
    requires Inv(p) && p.server.cq != [] && p.server.cq[0].RecvDone?
    ensures ServerHandle(p.server) == PostSend(Answering(p.server), ResponseToRequestBuffer)
  {
    RequestFound(p.client, p.server);
    ServerReposts(p.server);
  }

  lemma ServerAnswers(p: Pair, n: nat) returns (r: Pair)
    requires Inv(p) && Alone(p.client, 0, 1, 0, n) && Serving(p.server, 0, 1)
    ensures Enabled(p, ServerHandles) && Apply(p, ServerHandles) == Ok(r)
    ensures Inv(r) && Alone(r.client, 0, 1, 0, n) && Serving(r.server, 1, 0)
  {
    ServerHandlesStep(p);
    AnswerValue(p);
    r := Apply(p, ServerHandles).value;
    AnswerShape(p, r, n);
  }

  lemma ResponseShape(p: Pair, r: Pair, n: nat)
    requires Alone(p.client, 0, 1, 0, n) && p.server.sq != [] && p.server.sq[0].SendWork?
    requires Enabled(p, ServerExecutes) && Apply(p, ServerExecutes) == Ok(r)
    ensures Alone(r.client, 0, 1, 1, n)
  {
  }

  lemma ResponseLands(p: Pair, n: nat) returns (r: Pair)
    requires Inv(p) && Alone(p.client, 0, 1, 0, n) && Serving(p.server, 1, 0)
    ensures Enabled(p, ServerExecutes) && Apply(p, ServerExecutes) == Ok(r)
    ensures Inv(r) && Alone(r.client, 0, 1, 1, n)
  {
    ServerCanExecute(p);
    ServerExecutesStep(p);
    r := Apply(p, ServerExecutes).value;
    ResponseShape(p, r, n);
  }

  lemma BurstValue(c: Channel, s: Channel)
    requires Rings(c) && Exchange(c, s) && c.cq != [] && c.cq[0].RecvDone? && ClientHandle(c).Ok?
    ensures Burst(c, ClientHandle(c).value, s.own)
  {
    ResponseFound(c, s);
    ClientCopies(c, s.own);
    NoTargets(c, s);
    BurstShape(c, s.own, ClientHandle(c).value);
  }

  /** The client has sent its burst and has not heard of its request yet. */
  predicate Bursting(c: Channel, n: nat) {
    c.peer.Some? && c.Blocks() == n && c.cq == [] && |c.acks| == 1 && c.acks[0].SendWork?
  }

  lemma BurstShown(c: Channel, r: Channel, n: nat, d: Descriptor)
    requires Alone(c, 0, 1, 1, n) && Burst(c, r, d)
    ensures Bursting(r, n)
  {
  }

  lemma ClientBursts(p: Pair, n: nat) returns (r: Pair)
    requires Inv(p) && Alone(p.client, 0, 1, 1, n)
    ensures Enabled(p, ClientHandles) && Apply(p, ClientHandles) == Ok(r)
    ensures Inv(r) && Bursting(r.client, n)
  {
    ClientHandlesKeeps(p);
    BurstValue(p.client, p.server);
    r := p.(client := ClientHandle(p.client).value);
    BurstShown(p.client, r.client, n, p.server.own);
    ApplyValue(p, ClientHandles);
  }

  /** With the request unpolled and the descriptor known every block is in flight. */
  lemma WindowFull(c: Channel, s: Channel)
    requires Rings(c) && Counted(c, s) && Bursting(c, c.Blocks())
    ensures InFlight(c) == c.Blocks()
  {
    OneBlockEach(c.sq);
    OneBlockEach(c.acks);
    InflightSplit(c);
    assert c.acks == [c.acks[0]];
  }

  lemma Prepend(p: Pair, step: Step, next: Pair, rest: seq<Step>, q: Pair) returns (steps: seq<Step>)
    requires Enabled(p, step) && Apply(p, step) == Ok(next) && Runs(next, rest) && Outcome(next, rest) == Ok(q)
    ensures Runs(p, steps) && Outcome(p, steps) == Ok(q)
  {
    steps := [step] + rest;
    assert steps[1..] == rest;
  }

  lemma FirstMessages(p: Pair, n: nat) returns (steps: seq<Step>, q: Pair)
    requires Inv(p) && Alone(p.client, 1, 0, 0, n) && Serving(p.server, 0, 0)
    ensures Runs(p, steps) && Outcome(p, steps) == Ok(q) && Inv(q) && Bursting(q.client, n)
  {
    var p1 := RequestLands(p, n);
    var p2 := ServerAnswers(p1, n);
    var p3 := ResponseLands(p2, n);
    q := ClientBursts(p3, n);
    steps := Prepend(p3, ClientHandles, q, [], q);
    steps := Prepend(p2, ServerExecutes, p3, steps, q);
    steps := Prepend(p1, ServerHandles, p2, steps, q);
    steps := Prepend(p, ClientExecutes, p1, steps, q);
  }

  /** NUM_BLOCK - 1 is as many as fit: from every start there is a run after which every block is in
      flight, the request included, so that one more post would take a block in use. */
  lemma WindowFills(c: Channel, s: Channel, n: nat, w: Work) returns (steps: seq<Step>, q: Pair)
    requires Registered(c, n) && Registered(s, n)
    ensures Reaches(c, s, n, steps, q) && InFlight(q.client) == n == q.client.Blocks()
    ensures q.client.WellFormed() && PostWork(q.client, w) == CheckFailed
  {
    var p := Asked(c, s, n);
    steps, q := FirstMessages(p, n);
    WindowFull(q.client, q.server);
    RoomIff(c, s, n, steps, q, w);
  }
}
