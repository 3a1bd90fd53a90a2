/** What the messages after the key exchange say. A side formats the same text for each of them,
    so neither a refill of `send_buffer` before the adapter has fetched from it nor the next
    message landing on `recv_buffer` makes a difference: the text is always there to be read. */
module SessionTexts {
  import opened ByteLayout
  import opened Wrappers
  import opened Projection
  import opened SessionProtocol
  import opened SessionInvariant
  import opened SessionSafety
  import opened SessionGreeting

  // ----- the invariant -----

  predicate IsText(it: Posted) {
    it.wr.Send? && it.wr.tag == Unset
  }

  /** From its third message on a side keeps the text in `send_buffer`. */
  predicate Filled(handled: nat, sendBuf: seq<byte>, text: seq<byte>) {
    handled >= 3 ==> Shows(sendBuf, text)
  }

  predicate Queued(sq: seq<Posted>, text: seq<byte>) {
    forall i | 0 <= i < |sq| && IsText(sq[i]) ::
      sq[i].wr.len == |text| && (sq[i].data.Some? ==> sq[i].data.value == text)
  }

  /** From the fourth message on the other side has it in `recv_buffer`. */
  predicate Landed(delivered: nat, recvBuf: seq<byte>, text: seq<byte>) {
    delivered >= 4 ==> Shows(recvBuf, text)
  }

  /** The text of `p` on its way to `q`. */
  predicate Telling(p: Peer, q: Peer, text: seq<byte>) {
    && Filled(|p.got|, p.sendBuf, text)
    && Queued(p.sq, text)
    && Landed(Delivered(q), q.recvBuf, text)
  }

  // ----- steps of the sender -----

  lemma QueuedTag(before: seq<MessageType>, outgoing: seq<MessageType>, sent: seq<MessageType>, k: nat)
    requires before + outgoing == sent && k < |outgoing|
    ensures |before| + k < |sent| && sent[|before| + k] == outgoing[k]
  {
  }

  /** A text is posted only after the third message has been handled. */
  lemma TextMeansThree(p: Peer, q: Peer, i: nat)
    requires Flow(p, q) && i < |p.sq| && IsText(p.sq[i])
    ensures |p.got| >= 3
  {
    var tags := Collect(p.sq, SendTag);
    TagOf(p.sq, i);
    var k :| 0 <= k < |tags| && tags[k] == p.sq[i].wr.tag;
    QueuedTag(q.got + Collect(q.cq, RecvTag), tags, p.sent, k);
    LateTag(LedgerOf(p), Delivered(q) + k);
  }

  lemma LateTag(l: Ledger, k: nat)
    requires Paced(l) && k < |l.sent| && l.sent[k] == Unset
    ensures |l.got| >= 3
  {
  }

  lemma StartTelling(p: Peer, q: Peer, text: seq<byte>)
    requires Flow(p, q) && Telling(p, q, text) && p.stage.Ready? && Start(p).Ok?
    ensures Telling(Start(p).value, q, text)
  {
    assert Start(p).value.sq == p.sq + [HelloItem(p)];
  }

  lemma FetchTelling(p: Peer, q: Peer, text: seq<byte>, i: nat)
    requires Flow(p, q) && Telling(p, q, text) && CanFetch(p, i)
    ensures Telling(Fetch(p, i), q, text)
  {
    if IsText(p.sq[i]) {
      TextMeansThree(p, q, i);
    }
  }

  lemma DeliverTelling(p: Peer, q: Peer, text: seq<byte>)
    requires Both(p, q) && Telling(p, q, text) && CanDeliver(p, q) && Deliver(p, q).Ok?
    ensures var (p', q') := Deliver(p, q).value; Telling(p', q', text)
  {
    DeliveryFrame(p, q);
    if p.sq[0].wr.Send? {
      HeadTag(p, q);
    }
  }

  /** A handler adds to the send queue at most one message, and fills `send_buffer` for every text. */
  predicate Answers(p: Peer, p': Peer, base: seq<byte>) {
    && |p.sq| <= |p'.sq| && p'.sq[..|p.sq|] == p.sq
    && (forall i | |p.sq| <= i < |p'.sq| && IsText(p'.sq[i]) ::
          p'.sq[i].wr.len == |base| && p'.sq[i].data.None?)
    && (|p'.got| >= 3 && p'.got != p.got ==> Shows(p'.sendBuf, base))
    && (p'.got == p.got ==> p'.sendBuf == p.sendBuf)
  }

  lemma RequestAnswers(p: Peer, base: seq<byte>)
    requires |p.recvBuf| >= DESCRIPTOR_SIZE && |p.got| == 1 && OnRecv(p, RequestExchangeKey, base).Ok?
    ensures Answers(p, OnRecv(p, RequestExchangeKey, base).value, base)
  {
    var p' := OnRecv(p, RequestExchangeKey, base).value;
    var answer := Posted(Send(|base|, ResponseExchangeKey), None);
    assert p'.sq == (p.sq + [answer]) + [p'.sq[|p.sq| + 1]];
  }

  lemma SyncAnswers(p: Peer, base: seq<byte>)
    requires |p.recvBuf| >= DESCRIPTOR_SIZE && |p.got| == 0 && OnRecv(p, TestForSyncData, base).Ok?
    ensures Answers(p, OnRecv(p, TestForSyncData, base).value, base)
  {
  }

  lemma OtherAnswers(p: Peer, tag: MessageType, base: seq<byte>)
    requires |p.recvBuf| >= DESCRIPTOR_SIZE && OnRecv(p, tag, base).Ok?
    requires tag != RequestExchangeKey && tag != TestForSyncData
    ensures Answers(p, OnRecv(p, tag, base).value, base)
  {
    var p' := OnRecv(p, tag, base).value;
    assert p'.sendBuf[..|base|] == base;
  }

  lemma CompletionAnswers(p: Peer, c: Completion, base: seq<byte>)
    requires |p.recvBuf| >= DESCRIPTOR_SIZE && !c.RecvDone? && Dispatch(p, c, base).Ok?
    ensures Answers(p, Dispatch(p, c, base).value, base)
  {
  }

  lemma HandlerAnswers(p: Peer, q: Peer, base: seq<byte>)
    requires Both(p, q) && p.cq != [] && Handle(p, base).Ok?
    ensures Answers(p, Handle(p, base).value, base)
  {
    var p1, c := p.(cq := p.cq[1..]), p.cq[0];
    if c.RecvDone? {
      NextTag(q, p);
      MessageAnswers(p1, c.tag, base);
    } else {
      CompletionAnswers(p1, c, base);
    }
  }

  lemma MessageAnswers(p: Peer, tag: MessageType, base: seq<byte>)
    requires |p.recvBuf| >= DESCRIPTOR_SIZE && tag == TagAt(|p.got|) && OnRecv(p, tag, base).Ok?
    ensures Answers(p, OnRecv(p, tag, base).value, base)
  {
    if tag == RequestExchangeKey {
      RequestAnswers(p, base);
    } else if tag == TestForSyncData {
      SyncAnswers(p, base);
    } else {
      OtherAnswers(p, tag, base);
    }
  }

  lemma AnswerTelling(p: Peer, p': Peer, q: Peer, text: seq<byte>)
    requires Telling(p, q, text) && Answers(p, p', text)
    ensures Telling(p', q, text)
  {
    forall i | 0 <= i < |p.sq| ensures p'.sq[i] == p.sq[i] {
      assert p'.sq[i] == p'.sq[..|p.sq|][i];
    }
  }

  predicate KeepsTelling(p: Peer, q: Peer, step: Step, text: seq<byte>)
    requires LocalEnabled(p, q, step)
  {
    Local(p, q, step).Ok? ==> var (p', q') := Local(p, q, step).value; Telling(p', q', text)
  }

  lemma SentHandle(p: Peer, q: Peer, step: Step, text: seq<byte>)
    requires Both(p, q) && LocalEnabled(p, q, step) && Telling(p, q, text) && step.HandleStep? && step.base == text
    ensures KeepsTelling(p, q, step, text)
  {
    if Handle(p, text).Ok? {
      HandlerAnswers(p, q, text);
      AnswerTelling(p, Handle(p, text).value, q, text);
    }
  }

  lemma SentDeliver(p: Peer, q: Peer, step: Step, text: seq<byte>)
    requires Both(p, q) && LocalEnabled(p, q, step) && Telling(p, q, text) && step.DeliverStep?
    ensures KeepsTelling(p, q, step, text)
  {
    if Deliver(p, q).Ok? {
      DeliverTelling(p, q, text);
    }
  }

  lemma SentRest(p: Peer, q: Peer, step: Step, text: seq<byte>)
    requires Flow(p, q) && LocalEnabled(p, q, step) && Telling(p, q, text)
    requires !step.HandleStep? && !step.DeliverStep?
    ensures KeepsTelling(p, q, step, text)
  {
    if step.StartStep? && Start(p).Ok? {
      StartTelling(p, q, text);
    } else if step.FetchStep? {
      FetchTelling(p, q, text, step.index);
    }
  }

  /** The sender's own steps; its handlers format `text`. */
  lemma SenderTelling(p: Peer, q: Peer, step: Step, text: seq<byte>)
    requires Both(p, q) && LocalEnabled(p, q, step) && Telling(p, q, text) && (step.HandleStep? ==> step.base == text)
    ensures KeepsTelling(p, q, step, text)
  {
    if step.HandleStep? {
      SentHandle(p, q, step, text);
    } else if step.DeliverStep? {
      SentDeliver(p, q, step, text);
    } else {
      SentRest(p, q, step, text);
    }
  }

  // ----- steps of the receiver -----

  /** Nothing the text depends on has changed. */
  predicate Unmoved(p: Peer, q: Peer, p': Peer, q': Peer) {
    && p'.got == p.got && p'.sendBuf == p.sendBuf && p'.sq == p.sq
    && (Delivered(q') >= 4 ==> Delivered(q) >= 4 && q'.recvBuf == q.recvBuf)
  }

  lemma UnmovedTelling(p: Peer, q: Peer, p': Peer, q': Peer, text: seq<byte>)
    requires Telling(p, q, text) && Unmoved(p, q, p', q')
    ensures Telling(p', q', text)
  {
  }

  predicate LeavesText(q: Peer, p: Peer, step: Step)
    requires LocalEnabled(q, p, step)
  {
    Local(q, p, step).Ok? ==> var (q', p') := Local(q, p, step).value; Unmoved(p, q, p', q')
  }

  lemma ReceivedPrepare(q: Peer, p: Peer, step: Step)
    requires Flow(q, p) && LocalEnabled(q, p, step) && step.PrepareStep?
    ensures LeavesText(q, p, step)
  {
    NoTags(q.cq);
  }

  lemma ReceivedStart(q: Peer, p: Peer, step: Step)
    requires LocalEnabled(q, p, step) && step.StartStep?
    ensures LeavesText(q, p, step)
  {
  }

  lemma ReceivedFetch(q: Peer, p: Peer, step: Step)
    requires LocalEnabled(q, p, step) && step.FetchStep?
    ensures LeavesText(q, p, step)
  {
  }

  lemma ReceivedAck(q: Peer, p: Peer, step: Step)
    requires LocalEnabled(q, p, step) && step.AckStep?
    ensures LeavesText(q, p, step)
  {
    PushCompletion(q.cq, Completes(q.acks[0].wr));
  }

  lemma ReceivedDeliver(q: Peer, p: Peer, step: Step)
    requires LocalEnabled(q, p, step) && step.DeliverStep?
    ensures LeavesText(q, p, step)
  {
    if Deliver(q, p).Ok? {
      DeliveryFrame(q, p);
    }
  }

  lemma ReceivedHandle(q: Peer, p: Peer, step: Step)
    requires LocalEnabled(q, p, step) && step.HandleStep?
    ensures LeavesText(q, p, step)
  {
    if Handle(q, step.base).Ok? {
      HandlerFrame(q, step.base);
    }
  }

  lemma ReceiverUnmoved(q: Peer, p: Peer, step: Step)
    requires Flow(q, p) && LocalEnabled(q, p, step)
    ensures LeavesText(q, p, step)
  {
    match step
    case PrepareStep(_) => ReceivedPrepare(q, p, step);
    case StartStep(_) => ReceivedStart(q, p, step);
    case FetchStep(_, _) => ReceivedFetch(q, p, step);
    case AckStep(_) => ReceivedAck(q, p, step);
    case DeliverStep(_) => ReceivedDeliver(q, p, step);
    case HandleStep(_, _) => ReceivedHandle(q, p, step);
  }

  // ----- every run -----

  predicate Says(step: Step, side: Side, text: seq<byte>) {
    step.HandleStep? && step.side == side ==> step.base == text
  }

  /** Every text this side formats is `text`. */
  predicate OneText(steps: seq<Step>, side: Side, text: seq<byte>) {
    forall i | 0 <= i < |steps| :: Says(steps[i], side, text)
  }

  lemma OwnTelling(s: System, step: Step, text: seq<byte>)
    requires Both(s.Mine(step.side), s.Theirs(step.side)) && Enabled(s, step) && Apply(s, step).Ok?
    requires Telling(s.Mine(step.side), s.Theirs(step.side), text) && Says(step, step.side, text)
    ensures var t := Apply(s, step).value; Telling(t.Mine(step.side), t.Theirs(step.side), text)
  {
    StepValue(s, step);
    SenderTelling(s.Mine(step.side), s.Theirs(step.side), step, text);
  }

  lemma OtherTelling(s: System, step: Step, text: seq<byte>)
    requires Both(s.Mine(step.side), s.Theirs(step.side)) && Enabled(s, step) && Apply(s, step).Ok?
    requires Telling(s.Theirs(step.side), s.Mine(step.side), text)
    ensures var t := Apply(s, step).value; Telling(t.Theirs(step.side), t.Mine(step.side), text)
  {
    var p, q, t := s.Theirs(step.side), s.Mine(step.side), Apply(s, step).value;
    StepValue(s, step);
    ReceiverUnmoved(q, p, step);
    UnmovedTelling(p, q, t.Theirs(step.side), t.Mine(step.side), text);
  }

  lemma TellingStep(s: System, step: Step, side: Side, text: seq<byte>)
    requires Inv(s) && Enabled(s, step) && Apply(s, step).Ok? && Says(step, side, text)
    requires Telling(s.Mine(side), s.Theirs(side), text)
    ensures var t := Apply(s, step).value; Telling(t.Mine(side), t.Theirs(side), text)
  {
    EitherWay(s, step.side);
    if step.side == side {
      OwnTelling(s, step, text);
    } else {
      OtherTelling(s, step, text);
    }
  }

  /** Whatever every allowed step keeps, every run of such steps keeps. */
  lemma {:induction false} RunInduction(keep: System -> bool, allowed: Step -> bool, s: System, steps: seq<Step>)
    requires keep(s) && Runs(s, steps) && forall i | 0 <= i < |steps| :: allowed(steps[i])
    requires forall t, step | keep(t) && allowed(step) && Enabled(t, step) ::
      Apply(t, step).Ok? && keep(Apply(t, step).value)
    ensures Outcome(s, steps).Ok? && keep(Outcome(s, steps).value)
    decreases |steps|
  {
    if steps != [] {
      RunInduction(keep, allowed, Apply(s, steps[0]).value, steps[1..]);
    }
  }

  predicate Tells(s: System, side: Side, text: seq<byte>) {
    Inv(s) && Telling(s.Mine(side), s.Theirs(side), text)
  }

  lemma TellsKept(s: System, step: Step, side: Side, text: seq<byte>)
    requires Tells(s, side, text) && Enabled(s, step) && TextFits(step) && Says(step, side, text)
    ensures Apply(s, step).Ok? && Tells(Apply(s, step).value, side, text)
  {
    StepKeeps(s, step);
    TellingStep(s, step, side, text);
  }

  lemma {:induction false} TellingRun(s: System, steps: seq<Step>, side: Side, text: seq<byte>)
    requires Tells(s, side, text) && Runs(s, steps)
    requires OneText(steps, side, text) && forall i | 0 <= i < |steps| :: TextFits(steps[i])
    ensures Outcome(s, steps).Ok? && Tells(Outcome(s, steps).value, side, text)
  {
    var keep := (t: System) => Tells(t, side, text);
    var allowed := (step: Step) => TextFits(step) && Says(step, side, text);
    forall t, step | keep(t) && allowed(step) && Enabled(t, step)
      ensures Apply(t, step).Ok? && keep(Apply(t, step).value)
    {
      TellsKept(t, step, side, text);
    }
    RunInduction(keep, allowed, s, steps);
  }

  /** Every message after the key exchange reads as it was formatted: whenever one is handled,
      `recv_buffer` begins with the sender's text, whenever it was fetched and whatever has landed
      since. Of the sender this asks only that it formats one text, as a channel does. */
  lemma TextArrives(s: System, steps: seq<Step>, t: System, side: Side, text: seq<byte>)
    requires Reaches(s, steps, t) && OneText(steps, side, text)
    requires t.Theirs(side).cq != [] && t.Theirs(side).cq[0] == RecvDone(Unset)
    ensures Shows(t.Theirs(side).recvBuf, text)
  {
    InitInv(s);
    TellingRun(s, steps, side, text);
    EitherWay(t, side);
    NextTag(t.Mine(side), t.Theirs(side));
  }
}
