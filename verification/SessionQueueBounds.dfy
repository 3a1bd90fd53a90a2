/** Queue bounds of the default session protocol, for adapters that complete a request
    on the sender's side at the moment the peer executes it. */
module SessionQueueBounds {
  import opened ByteLayout
  import opened Wrappers
  import opened Projection
  import opened SessionProtocol
  import opened SessionInvariant
  import opened SessionSafety

  // ----- prompt runs -----

  predicate PromptEnabled(s: System, step: Step) {
    && !step.AckStep? && Enabled(s, step)
    && (step.DeliverStep? && Apply(s, step).Ok? ==> Enabled(Apply(s, step).value, AckStep(step.side)))
  }

  /** A step of `Apply`, with the completion right behind an execution. */
  function PromptApply(s: System, step: Step): Result<System>
    requires PromptEnabled(s, step)
  {
    var next :- Apply(s, step);
    if step.DeliverStep? then Apply(next, AckStep(step.side)) else Ok(next)
  }

  predicate PromptRuns(s: System, steps: seq<Step>)
    decreases |steps|
  {
    steps == [] ||
    (PromptEnabled(s, steps[0]) &&
     (PromptApply(s, steps[0]).Ok? ==> PromptRuns(PromptApply(s, steps[0]).value, steps[1..])))
  }

  function PromptOutcome(s: System, steps: seq<Step>): Result<System>
    requires PromptRuns(s, steps)
    decreases |steps|
  {
    if steps == [] then Ok(s)
    else
      var next :- PromptApply(s, steps[0]);
      PromptOutcome(next, steps[1..])
  }

  // ----- the invariant of prompt runs -----

  function SendDoneOf(c: Completion): seq<()> {
    if c.SendDone? then [()] else []
  }

  /** At every place in the completion queue: the messages received before it, the SEND
      completions from there on and the SENDs not executed yet are at most two. A message
      behind a SEND completion may be the answer to that very SEND. */
  predicate AtMostTwo(cq: seq<Completion>, outgoing: nat) {
    forall i | 0 <= i <= |cq| ::
      |Collect(cq[..i], RecvTag)| + |Collect(cq[i..], SendDoneOf)| + outgoing <= 2
  }

  predicate Prompt(p: Peer) {
    && p.acks == []
    && AtMostTwo(p.cq, |Collect(p.sq, SendTag)|)
    && (!p.stage.Running? ==> Collect(p.cq, SendDoneOf) == [])
  }

  predicate PromptInv(s: System) {
    Inv(s) && Prompt(s.left) && Prompt(s.right)
  }

  lemma PopAtMostTwo(cq: seq<Completion>, outgoing: nat)
    requires cq != [] && AtMostTwo(cq, outgoing)
    ensures AtMostTwo(cq[1..], outgoing + |RecvTag(cq[0])|)
  {
    forall i | 0 <= i <= |cq[1..]|
      ensures |Collect(cq[1..][..i], RecvTag)| + |Collect(cq[1..][i..], SendDoneOf)|
              + outgoing + |RecvTag(cq[0])| <= 2
    {
      assert cq[..i + 1][1..] == cq[1..][..i];
      assert cq[i + 1..] == cq[1..][i..];
    }
  }

  /** A completion at the end of the queue: `total` is what the queue then holds. */
  lemma {:induction false} PushAtMostTwo(cq: seq<Completion>, c: Completion, outgoing: nat, outgoing': nat)
    requires AtMostTwo(cq, outgoing)
    requires outgoing' + |SendDoneOf(c)| <= outgoing
    requires |Collect(cq + [c], RecvTag)| + outgoing' <= 2
    ensures AtMostTwo(cq + [c], outgoing')
  {
    var cq' := cq + [c];
    forall i | 0 <= i <= |cq'|
      ensures |Collect(cq'[..i], RecvTag)| + |Collect(cq'[i..], SendDoneOf)| + outgoing' <= 2
    {
      if i <= |cq| {
        assert cq'[..i] == cq[..i];
        assert cq'[i..] == cq[i..] + [c];
        CollectSnoc(cq[i..], c, SendDoneOf);
      } else {
        assert cq'[..i] == cq' && cq'[i..] == [];
      }
    }
  }

  /** Before it has answered anything a peer has no SEND completion to wait for. */
  lemma {:induction false} NoSendsAtMostTwo(cq: seq<Completion>, outgoing: nat)
    requires Collect(cq, SendDoneOf) == [] && |Collect(cq, RecvTag)| + outgoing <= 2
    ensures AtMostTwo(cq, outgoing)
  {
    forall i | 0 <= i <= |cq|
      ensures |Collect(cq[..i], RecvTag)| + |Collect(cq[i..], SendDoneOf)| + outgoing <= 2
    {
      assert cq == cq[..i] + cq[i..];
      CollectAppend(cq[..i], cq[i..], RecvTag);
      CollectAppend(cq[..i], cq[i..], SendDoneOf);
    }
  }

  /** Messages on their way to or from one peer. */
  predicate TwoTokens(p: Peer) {
    |Collect(p.sq, SendTag)| + |Collect(p.cq, RecvTag)| <= 2
  }

  lemma TwoTokensAlways(p: Peer, q: Peer)
    requires Both(p, q)
    ensures TwoTokens(p) && TwoTokens(q)
  {
  }

  // ----- preservation -----

  lemma AnswerEffect(p: Peer, q: Peer, base: seq<byte>)
    requires Both(p, q) && p.stage.Running? && p.cq != [] && p.cq[0].RecvDone? && Handle(p, base).Ok?
    ensures var p' := Handle(p, base).value;
      && p'.cq == p.cq[1..] && p'.acks == p.acks && p'.stage == p.stage
      && |Collect(p'.sq, SendTag)| == |Collect(p.sq, SendTag)| + 1
  {
    NextTag(q, p);
    if p.cq[0].tag == RequestExchangeKey {
      RequestDecodes(p, q);
      RequestHandled(p, q.desc, base);
      var answer := Posted(Send(|base|, ResponseExchangeKey), None);
      PushPosted(p.sq, answer);
      PushPosted(p.sq + [answer], Posted(Write(|WriteText(base)|, q.desc, true), None));
    } else if p.cq[0].tag == TestForSyncData {
      SyncHandled(p, base);
      PushPosted(p.sq, Posted(Send(DESCRIPTOR_SIZE, RequestExchangeKey), None));
    } else {
      OtherHandled(p, base);
      PushPosted(p.sq, Posted(Send(|base|, Unset), None));
    }
  }

  lemma CompletionEffect(p: Peer, base: seq<byte>)
    requires p.cq != [] && |p.recvBuf| >= DESCRIPTOR_SIZE && !p.cq[0].RecvDone? && Handle(p, base).Ok?
    ensures var p' := Handle(p, base).value;
      && p'.cq == p.cq[1..] && p'.acks == p.acks && p'.stage == p.stage
      && |Collect(p'.sq, SendTag)| == |Collect(p.sq, SendTag)|
  {
    if p.cq[0].WriteDone? || p.cq[0].ReadDone? {
      PushPosted(p.sq, Handle(p, base).value.sq[|p.sq|]);
    }
  }

  lemma PromptHandle(p: Peer, q: Peer, base: seq<byte>)
    requires Both(p, q) && Prompt(p) && p.stage.Running? && p.cq != [] && Handle(p, base).Ok?
    ensures Prompt(Handle(p, base).value)
  {
    if p.cq[0].RecvDone? {
      AnswerEffect(p, q, base);
    } else {
      CompletionEffect(p, base);
    }
    PopAtMostTwo(p.cq, |Collect(p.sq, SendTag)|);
  }

  lemma PromptStart(p: Peer)
    requires Prompt(p) && p.stage.Ready? && Start(p).Ok? && TwoTokens(Start(p).value)
    ensures Prompt(Start(p).value)
  {
    var p' := Start(p).value;
    NoSendsAtMostTwo(p'.cq, |Collect(p'.sq, SendTag)|);
  }

  lemma PromptFetch(p: Peer, i: nat)
    requires Prompt(p) && CanFetch(p, i)
    ensures Prompt(Fetch(p, i))
  {
    CollectSet(p.sq, i, Fetch(p, i).sq[i], SendTag);
  }

  /** The executing side. */
  lemma PromptReceive(p: Peer, q: Peer)
    requires Prompt(q) && CanDeliver(p, q) && Deliver(p, q).Ok? && TwoTokens(Deliver(p, q).value.1)
    ensures Prompt(Deliver(p, q).value.1)
  {
    var q' := Deliver(p, q).value.1;
    if q'.cq != q.cq {
      var c := q'.cq[|q.cq|];
      assert q'.cq == q.cq + [c] && SendDoneOf(c) == [];
      PushAtMostTwo(q.cq, c, |Collect(q.sq, SendTag)|, |Collect(q.sq, SendTag)|);
      CollectSnoc(q.cq, c, SendDoneOf);
    }
  }

  /** The sending side, completion included. */
  lemma PromptSender(p: Peer, q: Peer)
    requires Prompt(p) && p.stage.Running? && CanDeliver(p, q) && Deliver(p, q).Ok?
    requires CanAck(Deliver(p, q).value.0) && TwoTokens(Ack(Deliver(p, q).value.0))
    ensures Prompt(Ack(Deliver(p, q).value.0))
  {
    var p' := Ack(Deliver(p, q).value.0);
    var c := Completes(p.sq[0].wr);
    assert p'.cq == p.cq + [c] && p'.sq == p.sq[1..] && p'.acks == [];
    PushAtMostTwo(p.cq, c, |Collect(p.sq, SendTag)|, |Collect(p'.sq, SendTag)|);
  }

  /** A peer that has not started has posted nothing. */
  lemma NotRunningIdle(p: Peer, q: Peer)
    requires Both(p, q) && !p.stage.Running?
    ensures p.sq == []
  {
    var l := LedgerOf(p);
    assert l.outgoing == [] && l.posted == 0;
  }

  lemma DeliverFromRunning(p: Peer, q: Peer)
    requires Both(p, q) && p.sq != []
    ensures p.stage.Running?
  {
    if !p.stage.Running? {
      NotRunningIdle(p, q);
    }
  }

  lemma PromptDeliver(p: Peer, q: Peer)
    requires Both(p, q) && Prompt(p) && Prompt(q) && CanDeliver(p, q) && Deliver(p, q).Ok?
    requires var (p1, q') := Deliver(p, q).value; Both(p1, q') && CanAck(p1) && Both(Ack(p1), q')
    ensures var (p1, q') := Deliver(p, q).value; Prompt(Ack(p1)) && Prompt(q')
  {
    var (p1, q') := Deliver(p, q).value;
    DeliverFromRunning(p, q);
    TwoTokensAlways(Ack(p1), q');
    PromptReceive(p, q);
    PromptSender(p, q);
  }

  lemma LeftPromptDeliver(p: Peer, q: Peer)
    requires Both(p, q) && Prompt(p) && Prompt(q) && CanDeliver(p, q)
    ensures Deliver(p, q).Ok?
    ensures var (p1, q') := Deliver(p, q).value; CanAck(p1) ==> PromptInv(System(Ack(p1), q'))
  {
    DeliverKeeps(p, q);
    var (p1, q') := Deliver(p, q).value;
    if CanAck(p1) {
      AckKeeps(p1, q');
      PromptDeliver(p, q);
    }
  }

  lemma PromptDeliverApply(p: Peer, q: Peer)
    requires PromptEnabled(System(p, q), DeliverStep(Left)) && Deliver(p, q).Ok?
    ensures var (p1, q') := Deliver(p, q).value;
      CanAck(p1) && PromptApply(System(p, q), DeliverStep(Left)) == Ok(System(Ack(p1), q'))
  {
  }

  lemma PromptPrepare(p: Peer)
    requires Prompt(p) && p.stage.Fresh?
    ensures Prompt(Prepare(p))
  {
  }

  lemma LeftPromptPrepare(p: Peer, q: Peer)
    requires Both(p, q) && Prompt(p) && Prompt(q) && p.stage.Fresh?
    ensures PromptInv(System(Prepare(p), q))
  {
    PrepareKeeps(p, q);
    PromptPrepare(p);
  }

  lemma LeftPromptFetch(p: Peer, q: Peer, i: nat)
    requires Both(p, q) && Prompt(p) && Prompt(q) && CanFetch(p, i)
    ensures PromptInv(System(Fetch(p, i), q))
  {
    FetchKeeps(p, q, i);
    PromptFetch(p, i);
  }

  lemma LeftPromptStart(p: Peer, q: Peer)
    requires PromptInv(System(p, q)) && PromptEnabled(System(p, q), StartStep(Left))
    ensures var r := PromptApply(System(p, q), StartStep(Left)); r.Ok? && PromptInv(r.value)
  {
    StepKeeps(System(p, q), StartStep(Left));
    TwoTokensAlways(Start(p).value, q);
    PromptStart(p);
  }

  lemma HandleApply(p: Peer, q: Peer, base: seq<byte>)
    requires PromptEnabled(System(p, q), HandleStep(Left, base))
    ensures p.stage.Running? && p.cq != [] && |p.recvBuf| >= DESCRIPTOR_SIZE
    ensures var r := Handle(p, base);
      r.Ok? ==> PromptApply(System(p, q), HandleStep(Left, base)) == Ok(System(r.value, q))
  {
  }

  lemma LeftPromptHandle(p: Peer, q: Peer, base: seq<byte>)
    requires Both(p, q) && Prompt(p) && p.stage.Running? && p.cq != [] && |base| <= MESSAGE_SIZE
    ensures |p.recvBuf| >= DESCRIPTOR_SIZE && Handle(p, base).Ok?
    ensures Both(Handle(p, base).value, q) && Prompt(Handle(p, base).value)
  {
    CompletionHandled(p, q, base);
    PromptHandle(p, q, base);
  }

  lemma LeftPromptStep(p: Peer, q: Peer, step: Step)
    requires PromptInv(System(p, q)) && step.side.Left? && PromptEnabled(System(p, q), step) && TextFits(step)
    ensures var r := PromptApply(System(p, q), step); r.Ok? && PromptInv(r.value)
  {
    if step.StartStep? {
      LeftPromptStart(p, q);
    } else if step.DeliverStep? {
      LeftPromptDeliver(p, q);
      PromptDeliverApply(p, q);
    } else if step.HandleStep? {
      HandleApply(p, q, step.base);
      LeftPromptHandle(p, q, step.base);
    } else if step.FetchStep? {
      LeftPromptFetch(p, q, step.index);
      assert PromptApply(System(p, q), step) == Ok(System(Fetch(p, step.index), q));
    } else {
      LeftPromptPrepare(p, q);
      assert PromptApply(System(p, q), step) == Ok(System(Prepare(p), q));
    }
  }

  lemma PromptSymmetric(s: System, step: Step)
    requires PromptEnabled(s, step)
    ensures PromptEnabled(Mirror(s), MirrorStep(step))
    ensures PromptApply(s, step).Ok? <==> PromptApply(Mirror(s), MirrorStep(step)).Ok?
    ensures PromptApply(s, step).Ok? ==>
      Mirror(PromptApply(s, step).value) == PromptApply(Mirror(s), MirrorStep(step)).value
  {
    Symmetric(s, step);
    if step.DeliverStep? && Apply(s, step).Ok? {
      Symmetric(Apply(s, step).value, AckStep(step.side));
    }
  }

  lemma PromptStepKeeps(s: System, step: Step)
    requires PromptInv(s) && PromptEnabled(s, step) && TextFits(step)
    ensures PromptApply(s, step).Ok? && PromptInv(PromptApply(s, step).value)
  {
    if step.side.Left? {
      LeftPromptStep(s.left, s.right, step);
    } else {
      PromptSymmetric(s, step);
      LeftPromptStep(s.right, s.left, MirrorStep(step));
    }
  }

  lemma {:induction false} PromptRunKeeps(s: System, steps: seq<Step>)
    requires PromptInv(s) && PromptRuns(s, steps) && forall i | 0 <= i < |steps| :: TextFits(steps[i])
    ensures PromptOutcome(s, steps).Ok? && PromptInv(PromptOutcome(s, steps).value)
    decreases |steps|
  {
    if steps != [] {
      PromptStepKeeps(s, steps[0]);
      PromptRunKeeps(PromptApply(s, steps[0]).value, steps[1..]);
    }
  }

  predicate PromptReaches(s: System, steps: seq<Step>, t: System) {
    Initial(s) && TextsFit(s, steps) && PromptRuns(s, steps) && PromptOutcome(s, steps) == Ok(t)
  }

  lemma DeliveryAcks(p: Peer, q: Peer)
    requires CanDeliver(p, q) && Deliver(p, q).Ok?
    ensures Deliver(p, q).value.0.acks != []
  {
  }

  lemma HeadCompletes(p: Peer, q: Peer)
    requires Sizes(p) && ExecutedItems(p.acks, p.lastText, q.sink) && p.acks != []
    ensures CanAck(p)
  {
    assert ExecutedItem(p.acks[0], p.lastText, q.sink);
  }

  lemma DeliveryCompletes(p: Peer, q: Peer)
    requires Both(p, q) && CanDeliver(p, q)
    ensures Deliver(p, q).Ok? && CanAck(Deliver(p, q).value.0)
  {
    DeliverKeeps(p, q);
    DeliveryAcks(p, q);
    HeadCompletes(Deliver(p, q).value.0, Deliver(p, q).value.1);
  }

  lemma LeftDeliveryPrompt(p: Peer, q: Peer)
    requires CanDeliver(p, q) && Deliver(p, q).Ok? && CanAck(Deliver(p, q).value.0)
    ensures PromptEnabled(System(p, q), DeliverStep(Left))
  {
  }

  lemma RightDeliveryPrompt(p: Peer, q: Peer)
    requires CanDeliver(q, p) && Deliver(q, p).Ok? && CanAck(Deliver(q, p).value.0)
    ensures PromptEnabled(System(p, q), DeliverStep(Right))
  {
  }

  lemma DeliveryPrompt(s: System, side: Side)
    requires Inv(s) && Enabled(s, DeliverStep(side))
    ensures PromptEnabled(s, DeliverStep(side))
  {
    if side.Left? {
      DeliveryCompletes(s.left, s.right);
      LeftDeliveryPrompt(s.left, s.right);
    } else {
      DeliveryCompletes(s.right, s.left);
      RightDeliveryPrompt(s.left, s.right);
    }
  }

  /** Nothing is left out of a prompt run: wherever it stops, it may go on with every step the
      protocol allows, since an executed request can always complete at once. */
  lemma PromptAll(s: System, steps: seq<Step>, t: System, step: Step)
    requires PromptReaches(s, steps, t)
    ensures Enabled(t, step) <==> PromptEnabled(t, step)
  {
    InitInv(s);
    PromptRunKeeps(s, steps);
    if step.DeliverStep? && Enabled(t, step) {
      DeliveryPrompt(t, step.side);
    }
  }

  // ----- the bounds -----

  /** Send-queue requests whose completion the handlers have not reached. */
  function Unpolled(p: Peer): nat {
    |p.sq| + |p.acks| + |Collect(p.cq, SendDoneOf)| + |Collect(p.cq, OneSidedDone)|
  }

  lemma {:induction false} PostedSplit(sq: seq<Posted>)
    ensures |sq| == |Collect(sq, SendTag)| + |Collect(sq, OneSided)|
  {
    if sq != [] {
      PostedSplit(sq[1..]);
    }
  }

  lemma {:induction false} CompletionSplit(cq: seq<Completion>)
    ensures |cq| == |Collect(cq, SendDoneOf)| + |Collect(cq, OneSidedDone)| + |Collect(cq, ReceiveDone)|
  {
    if cq != [] {
      CompletionSplit(cq[1..]);
    }
  }

  /** At most three send-queue requests and at most five completions are unpolled. */
  lemma QueueBounds(s: System, steps: seq<Step>, t: System, side: Side)
    requires PromptReaches(s, steps, t)
    ensures Unpolled(t.Mine(side)) <= 3
    ensures |t.Mine(side).cq| <= 5
  {
    InitInv(s);
    PromptRunKeeps(s, steps);
    var p := t.Mine(side);
    PostedSplit(p.sq);
    CompletionSplit(p.cq);
    assert |Collect(p.cq[..0], RecvTag)| + |Collect(p.cq[0..], SendDoneOf)| + |Collect(p.sq, SendTag)| <= 2;
    assert p.cq[0..] == p.cq;
  }

  function TotalCompletions(channels: seq<Peer>): nat {
    if channels == [] then 0 else |channels[0].cq| + TotalCompletions(channels[1..])
  }

  /** A completion queue of `size` entries, shared by `size / 5` channels, never overflows. */
  lemma {:induction false} SharedQueueFits(
      starts: seq<System>, runs: seq<seq<Step>>, ends: seq<System>, sides: seq<Side>, size: nat)
    requires |starts| == |runs| == |ends| == |sides| && |ends| <= size / 5
    requires forall i | 0 <= i < |ends| :: PromptReaches(starts[i], runs[i], ends[i])
    ensures TotalCompletions(seq(|ends|, i requires 0 <= i < |ends| => ends[i].Mine(sides[i]))) <= size
  {
    var channels := seq(|ends|, i requires 0 <= i < |ends| => ends[i].Mine(sides[i]));
    forall i | 0 <= i < |channels| ensures |channels[i].cq| <= 5 {
      QueueBounds(starts[i], runs[i], ends[i], sides[i]);
    }
    FiveEach(channels);
  }

  lemma {:induction false} FiveEach(channels: seq<Peer>)
    requires forall i | 0 <= i < |channels| :: |channels[i].cq| <= 5
    ensures TotalCompletions(channels) <= 5 * |channels|
  {
    if channels != [] {
      FiveEach(channels[1..]);
    }
  }
}
