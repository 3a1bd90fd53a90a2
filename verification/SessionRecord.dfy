/** What a run has written, answered and notified, told from its steps alone. The invariant speaks of
    what the handlers have left behind; here that is compared with the texts they were given. */
module SessionRecord {
  import opened ByteLayout
  import opened Wrappers
  import opened Projection
  import opened SessionProtocol
  import opened SessionInvariant
  import opened SessionSafety
  import opened SessionGreeting

  // ----- the record of one side -----

  /** - `latest` is the text formatted by this side's latest handler that posted a WRITE;
      - `answered` holds the texts formatted by its message handlers, in order;
      - `notified` counts the WRITE_WITH_IMMs of this side that the other has handled;
      - `longest` is the length of the longest message of this side delivered to the other. */
  datatype Record = Record(latest: Option<seq<byte>>, answered: seq<seq<byte>>, notified: nat, longest: nat)

  /** The completions whose handlers post a WRITE. */
  predicate StartsWrite(c: Completion) {
    c == RecvDone(RequestExchangeKey) || c.ReadDone?
  }

  /** A step of this side, `p`. */
  function Own(p: Peer, q: Peer, step: Step, r: Record): Record
    requires LocalEnabled(p, q, step)
  {
    match step
    case HandleStep(_, base) =>
      r.(latest := if StartsWrite(p.cq[0]) then Some(base) else r.latest,
         answered := if p.cq[0].RecvDone? then r.answered + [base] else r.answered)
    case DeliverStep(_) =>
      if p.sq[0].wr.Send? && |p.sq[0].data.value| > r.longest then r.(longest := |p.sq[0].data.value|) else r
    case _ => r
  }

  /** A step of the other side, `q`. */
  function Other(q: Peer, p: Peer, step: Step, r: Record): Record
    requires LocalEnabled(q, p, step)
  {
    if step.HandleStep? && q.cq[0].RecvImmDone? then r.(notified := r.notified + 1) else r
  }

  function Noted(s: System, step: Step, side: Side, r: Record): Record
    requires Enabled(s, step)
  {
    if step.side == side then Own(s.Mine(side), s.Theirs(side), step, r)
    else Other(s.Theirs(side), s.Mine(side), step, r)
  }

  function RecordFrom(s: System, steps: seq<Step>, side: Side, r: Record): Record
    requires Runs(s, steps)
    decreases |steps|
  {
    if steps == [] || Apply(s, steps[0]).CheckFailed? then r
    else RecordFrom(Apply(s, steps[0]).value, steps[1..], side, Noted(s, steps[0], side, r))
  }

  /** The record of a whole run. */
  function RecordOf(s: System, steps: seq<Step>, side: Side): Record
    requires Runs(s, steps)
  {
    RecordFrom(s, steps, side, Record(None, [], 0, 0))
  }

  // ----- what it says of the state -----

  /** "[RDMA write/read test]: " in ASCII. */
  const HEADING: seq<byte> :=
    [91, 82, 68, 77, 65, 32, 119, 114, 105, 116, 101, 47, 114, 101, 97, 100, 32, 116, 101, 115, 116, 93, 58, 32]

  lemma Heading(base: seq<byte>)
    ensures WriteText(base) == HEADING + base
  {
    var text := "[RDMA write/read test]: ";
    assert |text| == |HEADING| == 24;
    forall i | 0 <= i < 24 ensures text[i] as int % 256 == HEADING[i] {
    }
    assert Ascii(text) == HEADING;
  }

  predicate Written(handled: nat, lastText: seq<byte>, latest: Option<seq<byte>>) {
    && (latest.Some? <==> handled >= 2)
    && (latest.Some? ==> lastText == HEADING + latest.value)
  }

  function SendLength(it: Posted): seq<nat> {
    if it.wr.Send? then [it.wr.len] else []
  }

  /** The length of a side's k-th message: the greeting, the descriptor, then the text formatted when
      it answered the message before. */
  function MessageLength(hello: seq<byte>, answered: seq<seq<byte>>, k: nat): nat {
    if k == 0 then |hello|
    else if k == 1 then 24
    else if k <= |answered| then |answered[k - 1]|
    else 0
  }

  function Lengths(hello: seq<byte>, answered: seq<seq<byte>>, n: nat): (r: seq<nat>)
    ensures |r| == n
  {
    seq(n, k requires 0 <= k < n => MessageLength(hello, answered, k))
  }

  predicate Measured(p: Peer, q: Peer, answered: seq<seq<byte>>) {
    && |answered| == |p.got| && Delivered(q) <= |p.sent|
    && Collect(p.sq, SendLength) == Lengths(p.hello, answered, |p.sent|)[Delivered(q)..]
  }

  predicate Notified(p: Peer, q: Peer, notified: nat) {
    |Collect(p.sq, Notice)| + |Collect(q.cq, NoticeDone)| + notified == if |p.got| < 2 then 0 else 1
  }

  predicate ZeroFrom(memory: seq<byte>, n: nat) {
    forall i | n <= i < |memory| :: memory[i] == 0
  }

  predicate Cleared(q: Peer, longest: nat) {
    if q.stage.Fresh? then longest == 0 else ZeroFrom(q.recvBuf, longest)
  }

  /** `read_buffer` is clear while a READ is on its way, and holds the whole sink when it is back. */
  predicate Whole(p: Peer, q: Peer) {
    && (forall i | 0 <= i < |p.sq| && p.sq[i].wr.Read? :: ZeroFrom(p.readBuf, 0))
    && (forall i | 0 <= i < |p.acks| && p.acks[i].wr.Read? ::
          ZeroFrom(p.readBuf, 0) && p.acks[i].data == Some(q.sink))
    && (forall i | 0 <= i < |p.cq| && p.cq[i].ReadDone? :: p.readBuf == q.sink)
  }

  predicate Told(p: Peer, q: Peer, r: Record) {
    && Written(|p.got|, p.lastText, r.latest)
    && Measured(p, q, r.answered)
    && Notified(p, q, r.notified)
    && Cleared(q, r.longest)
    && Whole(p, q)
  }

  // ----- what a handler does -----

  /** The length of the answer to a message, after `handled` others. */
  function AnswerLength(handled: nat, c: Completion, base: seq<byte>): seq<nat> {
    if !c.RecvDone? then [] else if handled == 0 then [24] else [|base|]
  }

  /** The effect of the handler of `c`, as far as the record is concerned. */
  predicate Handled(p: Peer, p': Peer, c: Completion, base: seq<byte>)
    requires p.cq != []
  {
    && p'.hello == p.hello && p'.stage == p.stage && p'.recvBuf == p.recvBuf && p'.sink == p.sink
    && p'.acks == p.acks && p'.cq == p.cq[1..] && p'.got == p.got + RecvTag(c)
    && |p'.sent| == |p.sent| + |RecvTag(c)|
    && p'.lastText == (if StartsWrite(c) then WriteText(base) else p.lastText)
    && Collect(p'.sq, SendLength) == Collect(p.sq, SendLength) + AnswerLength(|p.got|, c, base)
    && |Collect(p'.sq, Notice)| == |Collect(p.sq, Notice)| + (if c == RecvDone(RequestExchangeKey) then 1 else 0)
    && p'.readBuf == (if c.WriteDone? then Zeros(|p.readBuf|) else p.readBuf)
    && (!c.WriteDone? ==> forall i | 0 <= i < |p'.sq| && p'.sq[i].wr.Read? :: i < |p.sq| && p.sq[i].wr.Read?)
  }

  lemma AnswerHandled(p: Peer, p': Peer, sendBuf: seq<byte>, len: nat, next: MessageType, base: seq<byte>)
    requires p.cq != [] && p.cq[0].RecvDone? && p.cq[0].tag != RequestExchangeKey
    requires p' == AfterAnswer(p, sendBuf, len, next) && len == if |p.got| == 0 then 24 else |base|
    ensures Handled(p, p', p.cq[0], base)
  {
    var it := Posted(Send(len, next), None);
    CollectSnoc(p.sq, it, SendLength);
    PushPosted(p.sq, it);
    assert Notice(it) == [] && SendLength(it) == AnswerLength(|p.got|, p.cq[0], base);
  }

  lemma RequestRecord(p: Peer, p': Peer, d: Descriptor, base: seq<byte>)
    requires p.cq != [] && p.cq[0] == RecvDone(RequestExchangeKey) && |p.got| == 1
    requires |WriteText(base)| <= |p.writeBuf| && p' == AfterRequest(p, d, |base|, WriteText(base))
    ensures Handled(p, p', p.cq[0], base)
  {
    var answer := Posted(Send(|base|, ResponseExchangeKey), None);
    var write := Posted(Write(|WriteText(base)|, d, true), None);
    CollectSnoc(p.sq, answer, SendLength);
    CollectSnoc(p.sq + [answer], write, SendLength);
    PushPosted(p.sq, answer);
    PushPosted(p.sq + [answer], write);
    assert Notice(answer) == [] && Notice(write) == [()] && SendLength(write) == [];
    assert SendLength(answer) == AnswerLength(|p.got|, p.cq[0], base);
  }

  lemma LoopRecord(p: Peer, p': Peer, it: Posted, base: seq<byte>)
    requires LoopStep(p, p', it) && (p.cq[0].ReadDone? ==> !it.wr.Read?)
    requires p'.lastText == (if p.cq[0].ReadDone? then WriteText(base) else p.lastText)
    requires p'.readBuf == (if p.cq[0].WriteDone? then Zeros(|p.readBuf|) else p.readBuf)
    ensures Handled(p, p', p.cq[0], base)
  {
    CollectSnoc(p.sq, it, SendLength);
    PushPosted(p.sq, it);
    assert SendLength(it) == [] && Collect(p.sq, SendLength) + [] == Collect(p.sq, SendLength);
  }

  lemma QuietRecord(p: Peer, p': Peer, base: seq<byte>)
    requires p.cq != [] && (p.cq[0].SendDone? || p.cq[0].RecvImmDone?)
    requires p' == p.(cq := p.cq[1..], rq := p'.rq)
    ensures Handled(p, p', p.cq[0], base)
  {
    assert Collect(p.sq, SendLength) + [] == Collect(p.sq, SendLength);
  }

  lemma MessageRecord(p: Peer, q: Peer, base: seq<byte>)
    requires Both(p, q) && p.cq != [] && p.cq[0].RecvDone? && Handle(p, base).Ok?
    ensures Handled(p, Handle(p, base).value, p.cq[0], base)
  {
    NextTag(q, p);
    var p' := Handle(p, base).value;
    if p.cq[0].tag == RequestExchangeKey {
      RequestDecodes(p, q);
      RequestHandled(p, q.desc, base);
      RequestRecord(p, p', q.desc, base);
    } else if p.cq[0].tag == TestForSyncData {
      SyncHandled(p, base);
      AnswerHandled(p, p', KeyImage(p), DESCRIPTOR_SIZE, RequestExchangeKey, base);
    } else {
      OtherHandled(p, base);
      AnswerHandled(p, p', Padded(base, MESSAGE_SIZE), |base|, Unset, base);
    }
  }

  lemma CompletionRecord(p: Peer, q: Peer, base: seq<byte>)
    requires Both(p, q) && p.cq != [] && !p.cq[0].RecvDone? && Handle(p, base).Ok?
    ensures Handled(p, Handle(p, base).value, p.cq[0], base)
  {
    var p' := Handle(p, base).value;
    if p.cq[0].WriteDone? || p.cq[0].ReadDone? {
      LoopRecord(p, p', p'.sq[|p.sq|], base);
    } else {
      QuietRecord(p, p', base);
    }
  }

  lemma HandlerRecord(p: Peer, q: Peer, base: seq<byte>)
    requires Both(p, q) && p.cq != [] && Handle(p, base).Ok?
    ensures Handled(p, Handle(p, base).value, p.cq[0], base)
  {
    if p.cq[0].RecvDone? {
      MessageRecord(p, q, base);
    } else {
      CompletionRecord(p, q, base);
    }
  }

  // ----- handlers of this side -----

  lemma HandlerWrites(p: Peer, q: Peer, p': Peer, base: seq<byte>, r: Record)
    requires Both(p, q) && p.cq != [] && Handled(p, p', p.cq[0], base) && Written(|p.got|, p.lastText, r.latest)
    ensures Written(|p'.got|, p'.lastText, if StartsWrite(p.cq[0]) then Some(base) else r.latest)
  {
    Heading(base);
    if p.cq[0].RecvDone? {
      NextTag(q, p);
    } else if p.cq[0].ReadDone? {
      DescriptorKnown(p, q);
    }
  }

  lemma LengthsGrow(hello: seq<byte>, answered: seq<seq<byte>>, c: Completion, base: seq<byte>, d: nat)
    requires c.RecvDone? && d <= |answered| + 1
    ensures var n := |answered| + 1;
      Lengths(hello, answered + [base], n + 1)[d..]
      == Lengths(hello, answered, n)[d..] + AnswerLength(|answered|, c, base)
  {
    var n := |answered| + 1;
    assert Lengths(hello, answered + [base], n + 1) == Lengths(hello, answered, n) + AnswerLength(n - 1, c, base);
  }

  lemma HandlerMeasures(p: Peer, q: Peer, p': Peer, base: seq<byte>, answered: seq<seq<byte>>)
    requires p.cq != [] && Handled(p, p', p.cq[0], base) && Measured(p, q, answered) && |p.sent| == |p.got| + 1
    ensures Measured(p', q, if p.cq[0].RecvDone? then answered + [base] else answered)
  {
    if p.cq[0].RecvDone? {
      LengthsGrow(p.hello, answered, p.cq[0], base, Delivered(q));
    }
  }

  lemma HandlerNotifies(p: Peer, q: Peer, p': Peer, base: seq<byte>, notified: nat)
    requires Both(p, q) && p.cq != [] && Handled(p, p', p.cq[0], base) && Notified(p, q, notified)
    ensures Notified(p', q, notified)
  {
    if p.cq[0].RecvDone? {
      NextTag(q, p);
    }
  }

  lemma PoppedLoop(p: Peer, q: Peer)
    requires Flow(p, q) && p.cq != [] && p.cq[0].WriteDone?
    ensures forall i | 0 <= i < |p.acks| :: p.acks[i].wr.Send?
    ensures forall i | 0 <= i < |p.cq[1..]| :: !p.cq[1..][i].ReadDone?
  {
    NoOneSided(p.(cq := p.cq[1..]));
  }

  lemma HandlerWhole(p: Peer, q: Peer, p': Peer, base: seq<byte>)
    requires Flow(p, q) && p.cq != [] && Handled(p, p', p.cq[0], base) && Whole(p, q)
    ensures Whole(p', q)
  {
    if p.cq[0].WriteDone? {
      PoppedLoop(p, q);
    }
  }

  lemma OwnHandle(p: Peer, q: Peer, step: Step, r: Record)
    requires Both(p, q) && LocalEnabled(p, q, step) && Told(p, q, r) && step.HandleStep?
    ensures KeepsOwn(p, q, step, r)
  {
    if Handle(p, step.base).Ok? {
      var p' := Handle(p, step.base).value;
      HandlerRecord(p, q, step.base);
      HandlerWrites(p, q, p', step.base, r);
      HandlerMeasures(p, q, p', step.base, r.answered);
      HandlerNotifies(p, q, p', step.base, r.notified);
      HandlerWhole(p, q, p', step.base);
    }
  }

  // ----- other steps of this side -----

  predicate KeepsOwn(p: Peer, q: Peer, step: Step, r: Record)
    requires LocalEnabled(p, q, step)
  {
    Local(p, q, step).Ok? ==> var (p', q') := Local(p, q, step).value; Told(p', q', Own(p, q, step, r))
  }

  lemma OwnPrepare(p: Peer, q: Peer, step: Step, r: Record)
    requires LocalEnabled(p, q, step) && Told(p, q, r) && step.PrepareStep?
    ensures KeepsOwn(p, q, step, r)
  {
  }

  lemma StartMeasures(p: Peer, q: Peer, answered: seq<seq<byte>>)
    requires Flow(p, q) && Measured(p, q, answered) && p.stage.Ready? && Start(p).Ok?
    ensures Measured(Start(p).value, q, answered)
  {
    CollectSnoc(p.sq, HelloItem(p), SendLength);
    assert Lengths(p.hello, answered, 1) == [|p.hello|] && p.sent == [];
    assert Collect(p.sq, SendLength) == [];
  }

  lemma OwnStart(p: Peer, q: Peer, step: Step, r: Record)
    requires Both(p, q) && LocalEnabled(p, q, step) && Told(p, q, r) && step.StartStep?
    ensures KeepsOwn(p, q, step, r)
  {
    if Start(p).Ok? {
      StartMeasures(p, q, r.answered);
      PushPosted(p.sq, HelloItem(p));
      assert Start(p).value.sq == p.sq + [HelloItem(p)];
    }
  }

  lemma OwnFetch(p: Peer, q: Peer, step: Step, r: Record)
    requires LocalEnabled(p, q, step) && Told(p, q, r) && step.FetchStep?
    ensures KeepsOwn(p, q, step, r)
  {
    var p', i := Fetch(p, step.index), step.index;
    CollectSet(p.sq, i, p'.sq[i], SendLength);
    CollectSet(p.sq, i, p'.sq[i], Notice);
  }

  lemma DeliveryMeasures(p: Peer, q: Peer, answered: seq<seq<byte>>)
    requires Measured(p, q, answered) && CanDeliver(p, q) && Deliver(p, q).Ok?
    ensures var (p', q') := Deliver(p, q).value; Measured(p', q', answered)
  {
    DeliveryFrame(p, q);
    var lengths, d := Lengths(p.hello, answered, |p.sent|), Delivered(q);
    assert Collect(p.sq, SendLength) == SendLength(p.sq[0]) + Collect(p.sq[1..], SendLength);
    if p.sq[0].wr.Send? {
      assert lengths[d..][1..] == lengths[d + 1..];
    }
  }

  lemma DeliveryNotifies(p: Peer, q: Peer, notified: nat)
    requires Notified(p, q, notified) && CanDeliver(p, q) && Deliver(p, q).Ok?
    ensures var (p', q') := Deliver(p, q).value; Notified(p', q', notified)
  {
    NoticeMoves(p, q);
  }

  lemma NoticeMoves(p: Peer, q: Peer)
    requires CanDeliver(p, q) && Deliver(p, q).Ok?
    ensures var (p', q') := Deliver(p, q).value;
      && p'.got == p.got && |Collect(p.sq, Notice)| == |Notice(p.sq[0])| + |Collect(p'.sq, Notice)|
      && |Collect(q'.cq, NoticeDone)| == |Collect(q.cq, NoticeDone)| + |Notice(p.sq[0])|
  {
    match p.sq[0].wr
    case Send(_, tag) => CollectSnoc(q.cq, RecvDone(tag), NoticeDone);
    case Write(_, _, _) => CollectSnoc(q.cq, RecvImmDone, NoticeDone);
    case Read(_, _) =>
  }

  lemma DeliveryClears(p: Peer, q: Peer, step: Step, r: Record)
    requires Flow(q, p) && LocalEnabled(p, q, step) && step.DeliverStep? && Deliver(p, q).Ok? && Cleared(q, r.longest)
    ensures Cleared(Deliver(p, q).value.1, Own(p, q, step, r).longest)
  {
    DeliveryFrame(p, q);
  }

  /** The one WRITE or READ on its way is the only one. */
  lemma OnlyLoop(p: Peer, q: Peer)
    requires Flow(p, q) && p.sq != [] && !p.sq[0].wr.Send?
    ensures forall i | 0 <= i < |p.sq[1..]| :: p.sq[1..][i].wr.Send?
    ensures forall i | 0 <= i < |p.acks| :: p.acks[i].wr.Send?
    ensures forall i | 0 <= i < |p.cq| :: !p.cq[i].ReadDone?
  {
    NoOneSided(p.(sq := p.sq[1..]));
  }

  lemma SendWhole(p: Peer, q: Peer)
    requires Whole(p, q) && CanDeliver(p, q) && p.sq[0].wr.Send? && Deliver(p, q).Ok?
    ensures var (p', q') := Deliver(p, q).value; Whole(p', q')
  {
  }

  lemma WriteWhole(p: Peer, q: Peer)
    requires Flow(p, q) && Whole(p, q) && CanDeliver(p, q) && p.sq[0].wr.Write? && Deliver(p, q).Ok?
    ensures var (p', q') := Deliver(p, q).value; Whole(p', q')
  {
    OnlyLoop(p, q);
  }

  lemma ReadWhole(p: Peer, q: Peer)
    requires Flow(p, q) && Whole(p, q) && CanDeliver(p, q) && p.sq[0].wr.Read? && Deliver(p, q).Ok?
    requires p.sq[0].wr.len == |q.sink|
    ensures var (p', q') := Deliver(p, q).value; Whole(p', q')
  {
    OnlyLoop(p, q);
    assert q.sink[..|q.sink|] == q.sink;
  }

  lemma DeliveryWhole(p: Peer, q: Peer)
    requires Both(p, q) && Whole(p, q) && CanDeliver(p, q) && Deliver(p, q).Ok?
    ensures var (p', q') := Deliver(p, q).value; Whole(p', q')
  {
    if p.sq[0].wr.Send? {
      SendWhole(p, q);
    } else if p.sq[0].wr.Write? {
      WriteWhole(p, q);
    } else {
      assert PostedItem(p.sq[0], q.desc, p.lastText, p.writeBuf, q.sink);
      ReadWhole(p, q);
    }
  }

  lemma OwnDeliver(p: Peer, q: Peer, step: Step, r: Record)
    requires Both(p, q) && LocalEnabled(p, q, step) && Told(p, q, r) && step.DeliverStep?
    ensures KeepsOwn(p, q, step, r)
  {
    if Deliver(p, q).Ok? {
      DeliveryFrame(p, q);
      DeliveryMeasures(p, q, r.answered);
      DeliveryNotifies(p, q, r.notified);
      DeliveryClears(p, q, step, r);
      DeliveryWhole(p, q);
    }
  }

  lemma OnlyAcked(p: Peer, q: Peer)
    requires Flow(p, q) && p.acks != [] && !p.acks[0].wr.Send?
    ensures forall i | 0 <= i < |p.sq| :: p.sq[i].wr.Send?
    ensures forall i | 0 <= i < |p.acks[1..]| :: p.acks[1..][i].wr.Send?
    ensures forall i | 0 <= i < |p.cq| :: !p.cq[i].ReadDone?
  {
    NoOneSided(p.(acks := p.acks[1..]));
  }

  lemma AckWhole(p: Peer, q: Peer)
    requires Flow(p, q) && Whole(p, q) && CanAck(p) && |p.readBuf| == |q.sink|
    ensures Whole(Ack(p), q)
  {
    if p.acks[0].wr.Read? {
      OnlyAcked(p, q);
      assert Overlay(p.readBuf, q.sink) == q.sink;
    }
  }

  lemma OwnAck(p: Peer, q: Peer, step: Step, r: Record)
    requires Both(p, q) && LocalEnabled(p, q, step) && Told(p, q, r) && step.AckStep?
    ensures KeepsOwn(p, q, step, r)
  {
    AckWhole(p, q);
  }

  lemma OwnStep(p: Peer, q: Peer, step: Step, r: Record)
    requires Both(p, q) && LocalEnabled(p, q, step) && Told(p, q, r)
    ensures KeepsOwn(p, q, step, r)
  {
    match step
    case PrepareStep(_) => OwnPrepare(p, q, step, r);
    case StartStep(_) => OwnStart(p, q, step, r);
    case FetchStep(_, _) => OwnFetch(p, q, step, r);
    case DeliverStep(_) => OwnDeliver(p, q, step, r);
    case AckStep(_) => OwnAck(p, q, step, r);
    case HandleStep(_, _) => OwnHandle(p, q, step, r);
  }

  // ----- steps of the other side -----

  predicate KeepsOther(q: Peer, p: Peer, step: Step, r: Record)
    requires LocalEnabled(q, p, step)
  {
    Local(q, p, step).Ok? ==> var (q', p') := Local(q, p, step).value; Told(p', q', Other(q, p, step, r))
  }

  /** What the record looks at is the same in `p'` and `q'`. */
  predicate Alike(p: Peer, q: Peer, p': Peer, q': Peer) {
    && p'.got == p.got && p'.lastText == p.lastText && p'.sent == p.sent && p'.hello == p.hello
    && p'.sq == p.sq && p'.acks == p.acks && p'.readBuf == p.readBuf && q'.sink == q.sink
    && (forall i | 0 <= i < |p'.cq| && p'.cq[i].ReadDone? :: i < |p.cq| && p.cq[i].ReadDone?)
    && Delivered(q') == Delivered(q) && q'.recvBuf == q.recvBuf && q'.stage.Fresh? == q.stage.Fresh?
  }

  lemma AlikeTold(p: Peer, q: Peer, p': Peer, q': Peer, r: Record, r': Record)
    requires Told(p, q, r) && Alike(p, q, p', q') && r' == r.(notified := r'.notified)
    requires |Collect(q'.cq, NoticeDone)| + r'.notified == |Collect(q.cq, NoticeDone)| + r.notified
    ensures Told(p', q', r')
  {
  }

  lemma OtherPrepare(q: Peer, p: Peer, step: Step, r: Record)
    requires LocalEnabled(q, p, step) && Told(p, q, r) && step.PrepareStep?
    ensures KeepsOther(q, p, step, r)
  {
  }

  lemma OtherStart(q: Peer, p: Peer, step: Step, r: Record)
    requires LocalEnabled(q, p, step) && Told(p, q, r) && step.StartStep?
    ensures KeepsOther(q, p, step, r)
  {
    if Start(q).Ok? {
      AlikeTold(p, q, p, Start(q).value, r, r);
    }
  }

  lemma OtherFetch(q: Peer, p: Peer, step: Step, r: Record)
    requires LocalEnabled(q, p, step) && Told(p, q, r) && step.FetchStep?
    ensures KeepsOther(q, p, step, r)
  {
    AlikeTold(p, q, p, Fetch(q, step.index), r, r);
  }

  lemma OtherDeliver(q: Peer, p: Peer, step: Step, r: Record)
    requires LocalEnabled(q, p, step) && Told(p, q, r) && step.DeliverStep?
    ensures KeepsOther(q, p, step, r)
  {
    if Deliver(q, p).Ok? {
      var (q', p') := Deliver(q, p).value;
      DeliveryFrame(q, p);
      AlikeTold(p, q, p', q', r, r);
    }
  }

  lemma OtherAck(q: Peer, p: Peer, step: Step, r: Record)
    requires LocalEnabled(q, p, step) && Told(p, q, r) && step.AckStep?
    ensures KeepsOther(q, p, step, r)
  {
    PushCompletion(q.cq, Completes(q.acks[0].wr));
    AlikeTold(p, q, p, Ack(q), r, r);
  }

  lemma OtherHandle(q: Peer, p: Peer, step: Step, r: Record)
    requires Both(q, p) && LocalEnabled(q, p, step) && Told(p, q, r) && step.HandleStep?
    ensures KeepsOther(q, p, step, r)
  {
    if Handle(q, step.base).Ok? {
      var q' := Handle(q, step.base).value;
      HandlerRecord(q, p, step.base);
      AlikeTold(p, q, p, q', r, Other(q, p, step, r));
    }
  }

  lemma OtherStep(q: Peer, p: Peer, step: Step, r: Record)
    requires Both(q, p) && LocalEnabled(q, p, step) && Told(p, q, r)
    ensures KeepsOther(q, p, step, r)
  {
    match step
    case PrepareStep(_) => OtherPrepare(q, p, step, r);
    case StartStep(_) => OtherStart(q, p, step, r);
    case FetchStep(_, _) => OtherFetch(q, p, step, r);
    case DeliverStep(_) => OtherDeliver(q, p, step, r);
    case AckStep(_) => OtherAck(q, p, step, r);
    case HandleStep(_, _) => OtherHandle(q, p, step, r);
  }

  // ----- every run -----

  predicate Tells(s: System, side: Side, r: Record) {
    Inv(s) && Told(s.Mine(side), s.Theirs(side), r)
  }

  lemma OwnTells(s: System, step: Step, r: Record)
    requires Both(s.Mine(step.side), s.Theirs(step.side)) && Enabled(s, step) && Apply(s, step).Ok?
    requires Told(s.Mine(step.side), s.Theirs(step.side), r)
    ensures var t := Apply(s, step).value;
      Told(t.Mine(step.side), t.Theirs(step.side), Noted(s, step, step.side, r))
  {
    StepValue(s, step);
    OwnStep(s.Mine(step.side), s.Theirs(step.side), step, r);
  }

  lemma OtherTells(s: System, step: Step, side: Side, r: Record)
    requires Both(s.Theirs(side), s.Mine(side)) && Enabled(s, step) && Apply(s, step).Ok? && step.side != side
    requires Told(s.Mine(side), s.Theirs(side), r)
    ensures var t := Apply(s, step).value; Told(t.Mine(side), t.Theirs(side), Noted(s, step, side, r))
  {
    StepValue(s, step);
    OtherStep(s.Theirs(side), s.Mine(side), step, r);
  }

  lemma StepTells(s: System, step: Step, side: Side, r: Record)
    requires Tells(s, side, r) && Enabled(s, step) && TextFits(step)
    ensures Apply(s, step).Ok? && Tells(Apply(s, step).value, side, Noted(s, step, side, r))
  {
    StepKeeps(s, step);
    EitherWay(s, step.side);
    if step.side == side {
      OwnTells(s, step, r);
    } else {
      OtherTells(s, step, side, r);
    }
  }

  /** Whatever every step keeps of a state and its record, every run keeps. */
  lemma {:induction false} RecordInduction(keep: (System, Record) -> bool, s: System, steps: seq<Step>, side: Side,
                                           r: Record)
    requires keep(s, r) && Runs(s, steps) && forall i | 0 <= i < |steps| :: TextFits(steps[i])
    requires forall t, n, step | keep(t, n) && Enabled(t, step) && TextFits(step) ::
      Apply(t, step).Ok? && keep(Apply(t, step).value, Noted(t, step, side, n))
    ensures Outcome(s, steps).Ok? && keep(Outcome(s, steps).value, RecordFrom(s, steps, side, r))
    decreases |steps|
  {
    if steps != [] {
      RecordInduction(keep, Apply(s, steps[0]).value, steps[1..], side, Noted(s, steps[0], side, r));
    }
  }

  lemma InitTold(p: Peer, q: Peer)
    requires FreshPeer(p) && FreshPeer(q)
    ensures Told(p, q, Record(None, [], 0, 0))
  {
  }

  lemma ReachedTold(s: System, steps: seq<Step>, t: System, side: Side)
    requires Reaches(s, steps, t)
    ensures Both(t.Mine(side), t.Theirs(side)) && Told(t.Mine(side), t.Theirs(side), RecordOf(s, steps, side))
  {
    InitInv(s);
    InitTold(s.Mine(side), s.Theirs(side));
    var keep := (u: System, n: Record) => Tells(u, side, n);
    forall u, n, step | keep(u, n) && Enabled(u, step) && TextFits(step)
      ensures Apply(u, step).Ok? && keep(Apply(u, step).value, Noted(u, step, side, n))
    {
      StepTells(u, step, side, n);
    }
    RecordInduction(keep, s, steps, side, Record(None, [], 0, 0));
    EitherWay(t, side);
  }

  // ----- what every run tells -----

  /** The text that circulates: a READ completion finds in `read_buffer`, and a WRITE completion in the
      peer's sink, the 24 characters "[RDMA write/read test]: " and then the text formatted by this
      side's latest handler that posted a WRITE; and `read_buffer` then is all of the sink. */
  lemma TextReadBack(s: System, steps: seq<Step>, t: System, side: Side, i: nat)
    requires Reaches(s, steps, t) && i < |t.Mine(side).cq|
    ensures var p, q, r := t.Mine(side), t.Theirs(side), RecordOf(s, steps, side);
      && (p.cq[i].ReadDone? ==>
            r.latest.Some? && Shows(p.readBuf, HEADING + r.latest.value) && p.readBuf == q.sink)
      && (p.cq[i].WriteDone? ==> r.latest.Some? && Shows(q.sink, HEADING + r.latest.value))
  {
    ReachedTold(s, steps, t, side);
    var p, q := t.Mine(side), t.Theirs(side);
    assert CompletedItem(p.cq[i], p.lastText, p.readBuf, q.sink);
    if p.cq[i].ReadDone? || p.cq[i].WriteDone? {
      CollectMember(p.cq, i, OneSidedDone);
    }
  }

  lemma {:induction false} AsMany(sq: seq<Posted>)
    ensures |Collect(sq, SendTag)| == |Collect(sq, SendLength)|
  {
    if sq != [] {
      AsMany(sq[1..]);
    }
  }

  lemma ReachedMeasured(s: System, steps: seq<Step>, t: System, side: Side)
    requires Reaches(s, steps, t)
    ensures var p, q := t.Mine(side), t.Theirs(side);
      Measured(p, q, RecordOf(s, steps, side).answered) && Balanced(LedgerOf(p), LedgerOf(q))
  {
    ReachedTold(s, steps, t, side);
  }

  lemma LengthAt(p: Peer, q: Peer, answered: seq<seq<byte>>, j: nat)
    requires Measured(p, q, answered) && j < |Collect(p.sq, SendLength)| && Delivered(q) + j <= |answered|
    ensures var k := Delivered(q) + j;
      Collect(p.sq, SendLength)[j] == if k == 0 then |p.hello| else if k == 1 then 24 else |answered[k - 1]|
  {
    var lengths, d := Lengths(p.hello, answered, |p.sent|), Delivered(q);
    assert lengths[d..][j] == lengths[d + j];
  }

  lemma PendingTag(l: Ledger, m: Ledger, j: nat)
    requires Balanced(l, m) && j < |l.outgoing|
    ensures var k := |m.got| + |m.incoming| + j; k <= |l.got| && l.outgoing[j] == TagAt(k)
  {
    assert l.sent[|m.got + m.incoming| + j] == l.outgoing[j];
  }

  /** The lengths of the messages that are still pending, in order: the greeting's, the descriptor's 24,
      and of every later one that of the text formatted when the message before was answered. */
  lemma PendingLengths(s: System, steps: seq<Step>, t: System, side: Side, j: nat)
    requires Reaches(s, steps, t) && j < |Collect(t.Mine(side).sq, SendTag)|
    ensures var p, answered, k := t.Mine(side), RecordOf(s, steps, side).answered, Delivered(t.Theirs(side)) + j;
      && k <= |p.got| == |answered| && j < |Collect(p.sq, SendLength)|
      && Collect(p.sq, SendTag)[j] == TagAt(k)
      && Collect(p.sq, SendLength)[j] == if k == 0 then |p.hello| else if k == 1 then 24 else |answered[k - 1]|
  {
    var p, q, answered := t.Mine(side), t.Theirs(side), RecordOf(s, steps, side).answered;
    ReachedMeasured(s, steps, t, side);
    AsMany(p.sq);
    PendingTag(LedgerOf(p), LedgerOf(q), j);
    LengthAt(p, q, answered, j);
  }

  /** From REQUEST_EXCHANGE_KEY on exactly one WRITE_WITH_IMM has been posted: it is pending, or its
      notice has arrived, or has been handled. Before there is none. */
  lemma OneNotice(s: System, steps: seq<Step>, t: System, side: Side)
    requires Reaches(s, steps, t)
    ensures var p, q := t.Mine(side), t.Theirs(side);
      |Collect(p.sq, Notice)| + |Collect(q.cq, NoticeDone)| + RecordOf(s, steps, side).notified
      == if |p.got| < 2 then 0 else 1
  {
    ReachedTold(s, steps, t, side);
  }

  /** Once a side has prepared, its `recv_buffer` is zero beyond the longest message that has landed;
      and `read_buffer` is zero while a READ is on its way. */
  lemma BuffersClear(s: System, steps: seq<Step>, t: System, side: Side)
    requires Reaches(s, steps, t)
    ensures var p, q, r := t.Mine(side), t.Theirs(side), RecordOf(s, steps, side);
      && (!q.stage.Fresh? ==> forall i | r.longest <= i < |q.recvBuf| :: q.recvBuf[i] == 0)
      && ((exists i | 0 <= i < |p.sq| :: p.sq[i].wr.Read?) || (exists i | 0 <= i < |p.acks| :: p.acks[i].wr.Read?) ==>
            forall i | 0 <= i < |p.readBuf| :: p.readBuf[i] == 0)
  {
    ReachedTold(s, steps, t, side);
  }
}
