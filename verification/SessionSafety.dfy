/** Every step of the default session protocol keeps the invariant, so every run is safe. */
module SessionSafety {
  import opened ByteLayout
  import opened Wrappers
  import opened SessionProtocol
  import opened SessionInvariant

  // ----- each handler is one of the transitions of the invariant's proof -----

  /** Given the invariant, a handler fails its CHECKs exactly when a text it formats does
      not fit: `send_buffer` for an answer, `write_buffer` for a WRITE. */
  predicate TooLong(p: Peer, base: seq<byte>)
    requires p.cq != []
  {
    match p.cq[0]
    case RecvDone(tag) => tag != TestForSyncData && |base| > MESSAGE_SIZE
    case ReadDone => |WriteText(base)| > SINK_SIZE
    case _ => false
  }

  lemma RequestHandled(p: Peer, d: Descriptor, base: seq<byte>)
    requires Sizes(p) && p.cq != [] && p.cq[0] == RecvDone(RequestExchangeKey)
    requires p.peerSink == None && DecodeDescriptor(p.recvBuf) == d && d.length == SINK_SIZE
    ensures Handle(p, base) == if |base| > MESSAGE_SIZE then CheckFailed
                               else Ok(AfterRequest(p, d, |base|, WriteText(base)))
  {
  }

  lemma SyncHandled(p: Peer, base: seq<byte>)
    requires Sizes(p) && p.cq != [] && p.cq[0] == RecvDone(TestForSyncData)
    ensures Handle(p, base) == Ok(AfterAnswer(p, KeyImage(p), DESCRIPTOR_SIZE, RequestExchangeKey))
  {
  }

  lemma OtherHandled(p: Peer, base: seq<byte>)
    requires Sizes(p) && p.cq != [] && p.cq[0].RecvDone?
    requires p.cq[0].tag != TestForSyncData && p.cq[0].tag != RequestExchangeKey
    ensures Handle(p, base) == if |base| > MESSAGE_SIZE then CheckFailed
                               else Ok(AfterAnswer(p, Padded(base, MESSAGE_SIZE), |base|, Unset))
  {
  }

  lemma MessageHandled(p: Peer, q: Peer, base: seq<byte>)
    requires Both(p, q) && p.stage.Running? && p.cq != [] && p.cq[0].RecvDone?
    ensures Handle(p, base).Ok? <==> !TooLong(p, base)
    ensures Handle(p, base).Ok? ==> Both(Handle(p, base).value, q)
  {
    NextTag(q, p);
    if p.cq[0].tag == RequestExchangeKey {
      RequestDecodes(p, q);
      RequestHandled(p, q.desc, base);
      if |base| <= MESSAGE_SIZE {
        RequestFlow(p, q, |base|, WriteText(base));
        RequestKey(p, q, |base|, WriteText(base));
        RequestText(p, q, |base|, WriteText(base));
      }
    } else if p.cq[0].tag == TestForSyncData {
      SyncHandled(p, base);
      AnswerKeeps(p, q, KeyImage(p), DESCRIPTOR_SIZE);
    } else {
      OtherHandled(p, base);
      if |base| <= MESSAGE_SIZE {
        AnswerKeeps(p, q, Padded(base, MESSAGE_SIZE), |base|);
      }
    }
  }

  lemma WriteDoneHandled(p: Peer, q: Peer, base: seq<byte>)
    requires Both(p, q) && p.cq != [] && p.cq[0].WriteDone?
    ensures Handle(p, base).Ok? && Both(Handle(p, base).value, q)
  {
    WriteDoneKeeps(p, q);
    assert Handle(p, base) == Ok(AfterWriteDone(p, q.desc));
  }

  lemma DescriptorKnown(p: Peer, q: Peer)
    requires Both(p, q) && p.cq != [] && p.cq[0].ReadDone?
    ensures p.peerSink == Some(q.desc)
  {
    assert LedgerOf(p).completed > 0;
  }

  lemma ReadDoneHandled(p: Peer, q: Peer, base: seq<byte>)
    requires Both(p, q) && p.cq != [] && p.cq[0].ReadDone?
    ensures Handle(p, base).Ok? <==> |WriteText(base)| <= SINK_SIZE
    ensures Handle(p, base).Ok? ==> Both(Handle(p, base).value, q)
  {
    DescriptorKnown(p, q);
    if |WriteText(base)| <= SINK_SIZE {
      ReadDoneKeeps(p, q, WriteText(base));
      assert Handle(p, base) == Ok(AfterReadDone(p, q.desc, WriteText(base)));
    }
  }

  lemma CompletionHandled(p: Peer, q: Peer, base: seq<byte>)
    requires Both(p, q) && p.stage.Running? && p.cq != []
    ensures Handle(p, base).Ok? <==> !TooLong(p, base)
    ensures Handle(p, base).Ok? ==> Both(Handle(p, base).value, q)
  {
    match p.cq[0]
    case RecvDone(_) => MessageHandled(p, q, base);
    case SendDone => PopSendDone(p, q);
    case RecvImmDone => HandleRecvImm(p, q, base);
    case WriteDone => WriteDoneHandled(p, q, base);
    case ReadDone => ReadDoneHandled(p, q, base);
  }

  /** What the other adapter asks of the request it executes: a message fits its receive, a WRITE or a READ
      names the memory it has granted and stays within it. */
  lemma DeliverIff(p: Peer, q: Peer)
    requires CanDeliver(p, q)
    ensures Deliver(p, q).Ok? <==> match p.sq[0].wr
      case Send(_, _) => |p.sq[0].data.value| <= |q.recvBuf|
      case Write(_, d, _) =>
        d.addr == q.desc.addr && d.rkey == q.desc.rkey && |p.sq[0].data.value| <= |q.sink|
      case Read(len, d) => d.addr == q.desc.addr && d.rkey == q.desc.rkey && len <= |q.sink|
  {
  }

  lemma DeliverKeeps(p: Peer, q: Peer)
    requires Both(p, q) && CanDeliver(p, q)
    ensures Deliver(p, q).Ok? && Both(Deliver(p, q).value.0, Deliver(p, q).value.1)
  {
    match p.sq[0].wr
    case Send(_, _) =>
      DeliverSendSafe(p, q);
      DeliverSendText(p, q);
      DeliverSendFlow(p, q);
    case Write(_, _, _) =>
      DeliverWriteText(p, q);
      DeliverWriteKey(p, q);
      DeliverWriteFlow(p, q);
    case Read(_, _) =>
      DeliverReadText(p, q);
      DeliverReadKey(p, q);
      DeliverReadFlow(p, q);
  }

  lemma PrepareKeeps(p: Peer, q: Peer)
    requires Both(p, q) && p.stage.Fresh?
    ensures Both(Prepare(p), q)
  {
    PrepareFlow(p, q);
    PrepareKey(p, q);
  }

  lemma StartKeeps(p: Peer, q: Peer)
    requires Both(p, q) && p.stage.Ready?
    ensures Start(p).Ok? && Both(Start(p).value, q)
  {
    StartFlow(p, q);
    StartKey(p, q);
    StartText(p, q);
  }

  lemma FetchKeeps(p: Peer, q: Peer, i: nat)
    requires Both(p, q) && CanFetch(p, i)
    ensures Both(Fetch(p, i), q)
  {
    FetchFlow(p, q, i);
    FetchKey(p, q, i);
    FetchText(p, q, i);
  }

  lemma AckKeeps(p: Peer, q: Peer)
    requires Both(p, q) && CanAck(p)
    ensures Both(Ack(p), q)
  {
    AckFlow(p, q);
    AckKey(p, q);
    AckText(p, q);
  }

  lemma LocalStepKeeps(p: Peer, q: Peer, step: Step)
    requires Both(p, q) && step.side.Left? && Enabled(System(p, q), step)
    requires step.PrepareStep? || step.FetchStep? || step.AckStep?
    ensures Apply(System(p, q), step).Ok? && Inv(Apply(System(p, q), step).value)
  {
    match step
    case PrepareStep(_) => PrepareKeeps(p, q);
    case FetchStep(_, i) => FetchKeeps(p, q, i);
    case AckStep(_) => AckKeeps(p, q);
  }

  lemma StartStepKeeps(p: Peer, q: Peer)
    requires var step := StartStep(Left); Both(p, q) && Enabled(System(p, q), step)
    ensures var r := Apply(System(p, q), StartStep(Left)); r.Ok? && Inv(r.value)
  {
    StartKeeps(p, q);
  }

  lemma DeliverStepKeeps(p: Peer, q: Peer)
    requires var step := DeliverStep(Left); Both(p, q) && Enabled(System(p, q), step)
    ensures var r := Apply(System(p, q), DeliverStep(Left)); r.Ok? && Inv(r.value)
  {
    DeliverKeeps(p, q);
  }

  lemma HandleStepKeeps(p: Peer, q: Peer, base: seq<byte>)
    requires var step := HandleStep(Left, base); Both(p, q) && Enabled(System(p, q), step) && TextFits(step)
    ensures var r := Apply(System(p, q), HandleStep(Left, base)); r.Ok? && Inv(r.value)
  {
    CompletionHandled(p, q, base);
  }

  function Mirror(s: System): System {
    System(s.right, s.left)
  }

  function MirrorStep(step: Step): Step {
    var side := if step.side.Left? then Right else Left;
    match step
    case PrepareStep(_) => PrepareStep(side)
    case StartStep(_) => StartStep(side)
    case FetchStep(_, i) => FetchStep(side, i)
    case DeliverStep(_) => DeliverStep(side)
    case AckStep(_) => AckStep(side)
    case HandleStep(_, base) => HandleStep(side, base)
  }

  /** The protocol does not care which peer is called left. */
  lemma Symmetric(s: System, step: Step)
    requires Enabled(s, step)
    ensures Enabled(Mirror(s), MirrorStep(step))
    ensures Apply(s, step).Ok? <==> Apply(Mirror(s), MirrorStep(step)).Ok?
    ensures Apply(s, step).Ok? ==> Mirror(Apply(s, step).value) == Apply(Mirror(s), MirrorStep(step)).value
  {
  }

  lemma LeftStepKeeps(p: Peer, q: Peer, step: Step)
    requires Both(p, q) && step.side.Left? && Enabled(System(p, q), step) && TextFits(step)
    ensures Apply(System(p, q), step).Ok? && Inv(Apply(System(p, q), step).value)
  {
    if step.PrepareStep? || step.FetchStep? || step.AckStep? {
      LocalStepKeeps(p, q, step);
    } else if step.StartStep? {
      StartStepKeeps(p, q);
    } else if step.DeliverStep? {
      DeliverStepKeeps(p, q);
    } else {
      HandleStepKeeps(p, q, step.base);
    }
  }

  lemma StepKeeps(s: System, step: Step)
    requires Inv(s) && Enabled(s, step) && TextFits(step)
    ensures Apply(s, step).Ok? && Inv(Apply(s, step).value)
  {
    if step.side.Left? {
      LeftStepKeeps(s.left, s.right, step);
    } else {
      Symmetric(s, step);
      LeftStepKeeps(s.right, s.left, MirrorStep(step));
    }
  }

  // ----- every run -----

  /** Safety: no run meets a failed CHECK, an access error or a message that does not fit
      its receive, and the invariant holds wherever it stops. */
  lemma {:induction false} RunKeeps(s: System, steps: seq<Step>)
    requires Inv(s) && Runs(s, steps) && forall i | 0 <= i < |steps| :: TextFits(steps[i])
    ensures Outcome(s, steps).Ok? && Inv(Outcome(s, steps).value)
    decreases |steps|
  {
    if steps != [] {
      StepKeeps(s, steps[0]);
      RunKeeps(Apply(s, steps[0]).value, steps[1..]);
    }
  }

  predicate Reaches(s: System, steps: seq<Step>, t: System) {
    Initial(s) && TextsFit(s, steps) && Runs(s, steps) && Outcome(s, steps) == Ok(t)
  }

  lemma ReachedInv(s: System, steps: seq<Step>, t: System)
    requires Reaches(s, steps, t)
    ensures Inv(t)
  {
    InitInv(s);
    RunKeeps(s, steps);
  }

  lemma {:induction false} NoRunFails(s: System, steps: seq<Step>)
    requires Initial(s) && TextsFit(s, steps) && Runs(s, steps)
    ensures Outcome(s, steps).Ok?
  {
    InitInv(s);
    RunKeeps(s, steps);
  }
}
