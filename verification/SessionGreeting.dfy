/** When the greeting arrives. Nothing waits for it to be fetched before `send_buffer` is
    refilled, nor for it to be handled before the next message lands on it: this says, for
    every run, exactly what `recv_buffer` holds when the greeting is handled. */
module SessionGreeting {
  import opened Arithmetic
  import opened ByteLayout
  import opened Wrappers
  import opened Projection
  import opened SessionProtocol
  import opened SessionInvariant
  import opened SessionSafety

  // ----- when the greeting was fetched -----

  predicate IsGreeting(it: Posted) {
    it.wr.Send? && it.wr.tag == TestForSyncData
  }

  /** How many messages a side had handled when its adapter last fetched its greeting. */
  function Refetch(s: System, step: Step, side: Side, at: Option<nat>): Option<nat>
    requires Enabled(s, step)
  {
    if step.FetchStep? && step.side == side && IsGreeting(s.Mine(side).sq[step.index])
    then Some(|s.Mine(side).got|)
    else at
  }

  function FetchedAt(s: System, steps: seq<Step>, side: Side, at: Option<nat>): Option<nat>
    requires Runs(s, steps)
    decreases |steps|
  {
    if steps == [] || Apply(s, steps[0]).CheckFailed? then at
    else FetchedAt(Apply(s, steps[0]).value, steps[1..], side, Refetch(s, steps[0], side, at))
  }

  // ----- what it carries -----

  /** The first bytes of `send_buffer`, as long as the greeting, when `handled` messages have
      been handled: the greeting itself, then the descriptor. */
  function Carried(hello: seq<byte>, key: seq<byte>, handled: nat): (r: seq<byte>)
    requires |hello| <= |key|
    ensures |r| == |hello|
  {
    if handled == 0 then hello else key[..|hello|]
  }

  /** A text after a descriptor has landed on it. */
  function Covered(text: seq<byte>, key: seq<byte>): (r: seq<byte>)
    requires |text| <= |key| && DESCRIPTOR_SIZE <= |key|
    ensures |r| == |text|
  {
    var m := Least(|text|, DESCRIPTOR_SIZE);
    key[..m] + text[m..]
  }

  /** Until the first message is handled `send_buffer` holds the greeting. */
  predicate Held(running: bool, handled: nat, sendBuf: seq<byte>, hello: seq<byte>) {
    running && handled == 0 ==> Shows(sendBuf, hello)
  }

  /** The greeting while it is pending, at the head of the send queue. */
  predicate Pending(delivered: nat, sq: seq<Posted>, hello: seq<byte>, key: seq<byte>, at: Option<nat>)
    requires |hello| <= |key|
  {
    delivered == 0 && sq != [] ==>
      && sq[0].wr == Send(|hello|, TestForSyncData)
      && (sq[0].data.Some? ==> at.Some? && at.value <= 1 && sq[0].data.value == Carried(hello, key, at.value))
  }

  /** The greeting after it has landed, alone or under the descriptor. */
  predicate Heard(handled: nat, delivered: nat, recvBuf: seq<byte>, hello: seq<byte>, key: seq<byte>, at: Option<nat>)
    requires |hello| <= |key| && DESCRIPTOR_SIZE <= |key|
  {
    handled == 0 && delivered >= 1 ==>
      && at.Some? && at.value <= 1
      && var text := Carried(hello, key, at.value);
         Shows(recvBuf, if delivered == 1 then text else Covered(text, key))
  }

  /** The greeting of `p` on its way to `q`. */
  predicate Greeting(p: Peer, q: Peer, at: Option<nat>) {
    && |p.hello| <= MESSAGE_SIZE
    && Held(p.stage.Running?, |p.got|, p.sendBuf, p.hello)
    && Pending(Delivered(q), p.sq, p.hello, KeyImage(p), at)
    && Heard(|q.got|, Delivered(q), q.recvBuf, p.hello, KeyImage(p), at)
  }

  // ----- what the invariant says while the greeting is pending -----

  /** Before the first delivery the send queue holds SENDs only, in the order of their tags. */
  lemma OnlySends(p: Peer, q: Peer, i: nat)
    requires Both(p, q) && Delivered(q) == 0 && i < |p.sq|
    ensures |p.got| <= 1 && p.sq[i].wr.Send? && p.sq[i].wr.tag == TagAt(i)
  {
    InStep(p, q);
    NoOneSided(p);
    Tags(p.sq, i);
    assert p.sent == Collect(p.sq, SendTag);
  }

  lemma {:induction false} Tags(sq: seq<Posted>, i: nat)
    requires i < |sq| && forall k | 0 <= k < |sq| :: sq[k].wr.Send?
    ensures |Collect(sq, SendTag)| == |sq| && Collect(sq, SendTag)[i] == sq[i].wr.tag
  {
    if |sq| > 1 {
      Tags(sq[1..], if i == 0 then 0 else i - 1);
    }
  }

  /** A running peer's greeting is pending until it is delivered. */
  lemma StillPending(p: Peer, q: Peer)
    requires Flow(p, q) && Delivered(q) == 0 && p.stage.Running?
    ensures p.sq != []
  {
    assert p.sent == Collect(p.sq, SendTag);
  }

  lemma AtMostTwo(p: Peer, q: Peer)
    requires Both(p, q) && |q.got| == 0
    ensures |p.got| <= 1 && Delivered(q) + |Collect(p.sq, SendTag)| <= 2
  {
    InStep(p, q);
    assert |q.got + Collect(q.cq, RecvTag) + Collect(p.sq, SendTag)| == |p.sent|;
  }

  // ----- steps of the sender -----

  lemma NothingSent(p: Peer, q: Peer)
    requires Both(p, q) && !p.stage.Running?
    ensures p.sq == [] && Delivered(q) == 0
  {
    assert q.got + Collect(q.cq, RecvTag) + Collect(p.sq, SendTag) == [];
    NoOneSided(p);
    OneTagEach(p.sq);
  }

  lemma {:induction false} OneTagEach(sq: seq<Posted>)
    requires forall k | 0 <= k < |sq| :: sq[k].wr.Send?
    ensures |Collect(sq, SendTag)| == |sq|
  {
    if sq != [] {
      OneTagEach(sq[1..]);
    }
  }

  lemma SenderStarts(p: Peer, q: Peer, at: Option<nat>)
    requires Both(p, q) && Greeting(p, q, at) && p.stage.Ready? && Start(p).Ok?
    ensures Greeting(Start(p).value, q, at)
  {
    NothingSent(p, q);
    var p' := Start(p).value;
    assert p'.sq == [HelloItem(p)];
    assert p'.sendBuf[..|p.hello|] == p.hello;
  }

  lemma SenderFetches(p: Peer, q: Peer, at: Option<nat>, i: nat)
    requires Both(p, q) && Greeting(p, q, at) && CanFetch(p, i)
    ensures Greeting(Fetch(p, i), q, if IsGreeting(p.sq[i]) then Some(|p.got|) else at)
  {
    if Delivered(q) == 0 {
      OnlySends(p, q, i);
      if i == 0 {
        FetchesGreeting(p, q, at);
      }
    } else {
      NoGreetingLeft(p, q, i);
    }
  }

  lemma FetchesGreeting(p: Peer, q: Peer, at: Option<nat>)
    requires Both(p, q) && Greeting(p, q, at) && CanFetch(p, 0) && Delivered(q) == 0
    ensures Pending(0, Fetch(p, 0).sq, p.hello, KeyImage(p), Some(|p.got|))
  {
    OnlySends(p, q, 0);
    NothingSentUnlessRunning(p, q);
    assert p.sendBuf[..|p.hello|] == Carried(p.hello, KeyImage(p), |p.got|);
  }

  lemma NothingSentUnlessRunning(p: Peer, q: Peer)
    requires Both(p, q) && p.sq != []
    ensures p.stage.Running?
  {
    if !p.stage.Running? {
      NothingSent(p, q);
    }
  }

  lemma NoGreetingLeft(p: Peer, q: Peer, i: nat)
    requires Flow(p, q) && Delivered(q) >= 1 && i < |p.sq|
    ensures !IsGreeting(p.sq[i])
  {
    if p.sq[i].wr.Send? {
      var tags := Collect(p.sq, SendTag);
      TagOf(p.sq, i);
      var k :| 0 <= k < |tags| && tags[k] == p.sq[i].wr.tag;
      assert p.sent[Delivered(q) + k] == tags[k];
    }
  }

  lemma DeliveryFrame(p: Peer, q: Peer)
    requires CanDeliver(p, q) && Deliver(p, q).Ok?
    ensures var (p', q') := Deliver(p, q).value;
      && p' == p.(sq := p.sq[1..], acks := p'.acks)
      && q' == q.(recvBuf := q'.recvBuf, rq := q'.rq, cq := q'.cq, sink := q'.sink)
      && Delivered(q') == Delivered(q) + |SendTag(p.sq[0])|
      && (!p.sq[0].wr.Send? ==> q'.recvBuf == q.recvBuf)
      && (p.sq[0].wr.Send? ==>
            |p.sq[0].data.value| <= |q.recvBuf| && q'.recvBuf == Overlay(q.recvBuf, p.sq[0].data.value))
  {
    PushCompletion(q.cq, if p.sq[0].wr.Send? then RecvDone(p.sq[0].wr.tag) else RecvImmDone);
  }

  lemma CoverGreeting(memory: seq<byte>, text: seq<byte>, key: seq<byte>, data: seq<byte>)
    requires Shows(memory, text) && |text| <= |key| && DESCRIPTOR_SIZE <= |key| && DESCRIPTOR_SIZE <= |memory|
    requires data == key[..DESCRIPTOR_SIZE]
    ensures Shows(Overlay(memory, data), Covered(text, key))
  {
    var r := Overlay(memory, data);
    assert forall i | 0 <= i < |text| :: text[i] == memory[..|text|][i] == memory[i];
    assert r[..|text|] == Covered(text, key);
  }

  lemma SenderDelivers(p: Peer, q: Peer, at: Option<nat>)
    requires Both(p, q) && Greeting(p, q, at) && CanDeliver(p, q) && Deliver(p, q).Ok?
    ensures var (p', q') := Deliver(p, q).value; Greeting(p', q', at)
  {
    DeliveryFrame(p, q);
    var (p', q') := Deliver(p, q).value;
    if Delivered(q) == 0 {
      OnlySends(p, q, 0);
      assert q'.recvBuf[..|p.hello|] == p.sq[0].data.value;
    } else if |q.got| == 0 && p.sq[0].wr.Send? {
      SecondLands(p, q, at);
    }
  }

  /** The only message that can land on an unhandled greeting is the descriptor. */
  lemma SecondLands(p: Peer, q: Peer, at: Option<nat>)
    requires Both(p, q) && Greeting(p, q, at) && CanDeliver(p, q) && p.sq[0].wr.Send?
    requires |q.got| == 0 && Delivered(q) >= 1
    ensures Delivered(q) == 1 && |p.sq[0].data.value| <= |q.recvBuf|
    ensures Heard(0, 2, Overlay(q.recvBuf, p.sq[0].data.value), p.hello, KeyImage(p), at)
  {
    AtMostTwo(p, q);
    HeadTag(p, q);
    var it := p.sq[0];
    assert SendItem(it, |p.got| <= 2, KeyImage(p));
    CoverGreeting(q.recvBuf, Carried(p.hello, KeyImage(p), at.value), KeyImage(p), it.data.value);
  }

  /** What no handler touches. */
  predicate SameSide(p: Peer, p': Peer) {
    && p'.desc == p.desc && p'.fd == p.fd && p'.hello == p.hello && p'.stage == p.stage
    && p'.recvBuf == p.recvBuf && p.sq <= p'.sq
  }

  lemma RequestFrame(p: Peer, base: seq<byte>)
    requires |p.recvBuf| >= DESCRIPTOR_SIZE && OnRecv(p, RequestExchangeKey, base).Ok?
    ensures var p' := OnRecv(p, RequestExchangeKey, base).value;
      SameSide(p, p') && p'.cq == p.cq && p'.got == p.got + [RequestExchangeKey]
  {
    var p' := OnRecv(p, RequestExchangeKey, base).value;
    var answer := Posted(Send(|base|, ResponseExchangeKey), None);
    assert p'.sq == (p.sq + [answer]) + [p'.sq[|p.sq| + 1]];
  }

  lemma MessageFrame(p: Peer, tag: MessageType, base: seq<byte>)
    requires |p.recvBuf| >= DESCRIPTOR_SIZE && OnRecv(p, tag, base).Ok?
    ensures var p' := OnRecv(p, tag, base).value; SameSide(p, p') && p'.cq == p.cq && p'.got == p.got + [tag]
  {
    if tag == RequestExchangeKey {
      RequestFrame(p, base);
    }
  }

  lemma CompletionFrame(p: Peer, base: seq<byte>)
    requires p.cq != [] && !p.cq[0].RecvDone? && |p.recvBuf| >= DESCRIPTOR_SIZE && Handle(p, base).Ok?
    ensures var p' := Handle(p, base).value;
      SameSide(p, p') && p'.cq == p.cq[1..] && p'.got == p.got && p'.sendBuf == p.sendBuf
  {
  }

  lemma HandlerFrame(p: Peer, base: seq<byte>)
    requires p.cq != [] && |p.recvBuf| >= DESCRIPTOR_SIZE && Handle(p, base).Ok?
    ensures var p' := Handle(p, base).value;
      && SameSide(p, p') && p'.got == p.got + RecvTag(p.cq[0])
      && (!p.cq[0].RecvDone? ==> p'.sendBuf == p.sendBuf)
      && Delivered(p') == Delivered(p)
  {
    if p.cq[0].RecvDone? {
      MessageFrame(p.(cq := p.cq[1..]), p.cq[0].tag, base);
    } else {
      CompletionFrame(p, base);
    }
  }

  lemma SenderHandles(p: Peer, q: Peer, at: Option<nat>, base: seq<byte>)
    requires Both(p, q) && Greeting(p, q, at) && p.stage.Running? && p.cq != [] && Handle(p, base).Ok?
    ensures Greeting(Handle(p, base).value, q, at)
  {
    HandlerFrame(p, base);
    if Delivered(q) == 0 {
      StillPending(p, q);
    }
  }

  // ----- steps of the receiver -----

  lemma ReceiverPrepares(p: Peer, q: Peer, at: Option<nat>)
    requires Both(p, q) && Greeting(p, q, at) && q.stage.Fresh?
    ensures Greeting(p, Prepare(q), at)
  {
    NoTags(q.cq);
  }

  lemma ReceiverAcks(p: Peer, q: Peer, at: Option<nat>)
    requires Greeting(p, q, at) && CanAck(q)
    ensures Greeting(p, Ack(q), at)
  {
    PushCompletion(q.cq, Completes(q.acks[0].wr));
  }

  lemma ReceiverDelivers(p: Peer, q: Peer, at: Option<nat>)
    requires Greeting(p, q, at) && CanDeliver(q, p) && Deliver(q, p).Ok?
    ensures var (q', p') := Deliver(q, p).value; Greeting(p', q', at)
  {
    DeliveryFrame(q, p);
  }

  lemma ReceiverHandles(p: Peer, q: Peer, at: Option<nat>, base: seq<byte>)
    requires Both(q, p) && Greeting(p, q, at) && q.stage.Running? && q.cq != [] && Handle(q, base).Ok?
    ensures Greeting(p, Handle(q, base).value, at)
  {
    HandlerFrame(q, base);
  }

  // ----- every run -----

  predicate LocalEnabled(p: Peer, q: Peer, step: Step) {
    match step
    case PrepareStep(_) => p.stage.Fresh?
    case StartStep(_) => p.stage.Ready?
    case FetchStep(_, i) => CanFetch(p, i)
    case DeliverStep(_) => CanDeliver(p, q)
    case AckStep(_) => CanAck(p)
    case HandleStep(_, _) => p.stage.Running? && p.cq != [] && |p.recvBuf| >= DESCRIPTOR_SIZE
  }

  /** What a step does to the side that takes it, and to the other. */
  function Local(p: Peer, q: Peer, step: Step): Result<(Peer, Peer)>
    requires LocalEnabled(p, q, step)
  {
    match step
    case PrepareStep(_) => Ok((Prepare(p), q))
    case StartStep(_) => var p' :- Start(p); Ok((p', q))
    case FetchStep(_, i) => Ok((Fetch(p, i), q))
    case DeliverStep(_) => Deliver(p, q)
    case AckStep(_) => Ok((Ack(p), q))
    case HandleStep(_, base) => var p' :- Handle(p, base); Ok((p', q))
  }

  lemma StepValue(s: System, step: Step)
    requires Enabled(s, step) && Apply(s, step).Ok?
    ensures LocalEnabled(s.Mine(step.side), s.Theirs(step.side), step)
    ensures var t := Apply(s, step).value;
      Local(s.Mine(step.side), s.Theirs(step.side), step) == Ok((t.Mine(step.side), t.Theirs(step.side)))
  {
  }

  predicate KeepsSent(p: Peer, q: Peer, step: Step, at: Option<nat>)
    requires LocalEnabled(p, q, step)
  {
    Local(p, q, step).Ok? ==>
      var (p', q') := Local(p, q, step).value;
      Greeting(p', q', if step.FetchStep? && IsGreeting(p.sq[step.index]) then Some(|p.got|) else at)
  }

  lemma SentStart(p: Peer, q: Peer, step: Step, at: Option<nat>)
    requires Both(p, q) && LocalEnabled(p, q, step) && Greeting(p, q, at) && step.StartStep?
    ensures KeepsSent(p, q, step, at)
  {
    if Start(p).Ok? {
      SenderStarts(p, q, at);
    }
  }

  lemma SentFetch(p: Peer, q: Peer, step: Step, at: Option<nat>)
    requires Both(p, q) && LocalEnabled(p, q, step) && Greeting(p, q, at) && step.FetchStep?
    ensures KeepsSent(p, q, step, at)
  {
    SenderFetches(p, q, at, step.index);
  }

  lemma SentRest(p: Peer, q: Peer, step: Step, at: Option<nat>)
    requires LocalEnabled(p, q, step) && Greeting(p, q, at) && (step.PrepareStep? || step.AckStep?)
    ensures KeepsSent(p, q, step, at)
  {
    SenderRests(p, if step.PrepareStep? then Prepare(p) else Ack(p), q, at);
  }

  lemma SentDeliver(p: Peer, q: Peer, step: Step, at: Option<nat>)
    requires Both(p, q) && LocalEnabled(p, q, step) && Greeting(p, q, at) && step.DeliverStep?
    ensures KeepsSent(p, q, step, at)
  {
    if Deliver(p, q).Ok? {
      SenderDelivers(p, q, at);
    }
  }

  lemma SentHandle(p: Peer, q: Peer, step: Step, at: Option<nat>)
    requires Both(p, q) && LocalEnabled(p, q, step) && Greeting(p, q, at) && step.HandleStep?
    ensures KeepsSent(p, q, step, at)
  {
    if Handle(p, step.base).Ok? {
      SenderHandles(p, q, at, step.base);
    }
  }

  lemma LocalSender(p: Peer, q: Peer, step: Step, at: Option<nat>)
    requires Both(p, q) && LocalEnabled(p, q, step) && Greeting(p, q, at)
    ensures KeepsSent(p, q, step, at)
  {
    if step.DeliverStep? {
      SentDeliver(p, q, step, at);
    } else if step.HandleStep? {
      SentHandle(p, q, step, at);
    } else if step.StartStep? {
      SentStart(p, q, step, at);
    } else if step.FetchStep? {
      SentFetch(p, q, step, at);
    } else {
      SentRest(p, q, step, at);
    }
  }

  lemma SenderRests(p: Peer, p': Peer, q: Peer, at: Option<nat>)
    requires Greeting(p, q, at) && p'.stage.Running? == p.stage.Running? && p'.got == p.got && p'.sendBuf == p.sendBuf
    requires p'.sq == p.sq && p'.hello == p.hello && p'.desc == p.desc && p'.fd == p.fd
    ensures Greeting(p', q, at)
  {
  }

  predicate KeepsReceived(q: Peer, p: Peer, step: Step, at: Option<nat>)
    requires LocalEnabled(q, p, step)
  {
    Local(q, p, step).Ok? ==>
      var (q', p') := Local(q, p, step).value;
      Greeting(p', q', at)
  }

  lemma ReceivedPrepare(q: Peer, p: Peer, step: Step, at: Option<nat>)
    requires Both(p, q) && LocalEnabled(q, p, step) && Greeting(p, q, at) && step.PrepareStep?
    ensures KeepsReceived(q, p, step, at)
  {
    ReceiverPrepares(p, q, at);
  }

  lemma ReceivedStart(q: Peer, p: Peer, step: Step, at: Option<nat>)
    requires LocalEnabled(q, p, step) && Greeting(p, q, at) && step.StartStep?
    ensures KeepsReceived(q, p, step, at)
  {
    if Start(q).Ok? {
      ReceiverStarts(p, q, at);
    }
  }

  lemma ReceivedFetch(q: Peer, p: Peer, step: Step, at: Option<nat>)
    requires LocalEnabled(q, p, step) && Greeting(p, q, at) && step.FetchStep?
    ensures KeepsReceived(q, p, step, at)
  {
    ReceiverRests(p, q, Fetch(q, step.index), at);
  }

  lemma ReceivedAck(q: Peer, p: Peer, step: Step, at: Option<nat>)
    requires LocalEnabled(q, p, step) && Greeting(p, q, at) && step.AckStep?
    ensures KeepsReceived(q, p, step, at)
  {
    ReceiverAcks(p, q, at);
  }

  lemma ReceivedDeliver(q: Peer, p: Peer, step: Step, at: Option<nat>)
    requires LocalEnabled(q, p, step) && Greeting(p, q, at) && step.DeliverStep?
    ensures KeepsReceived(q, p, step, at)
  {
    if Deliver(q, p).Ok? {
      ReceiverDelivers(p, q, at);
    }
  }

  lemma ReceivedHandle(q: Peer, p: Peer, step: Step, at: Option<nat>)
    requires Both(q, p) && LocalEnabled(q, p, step) && Greeting(p, q, at) && step.HandleStep?
    ensures KeepsReceived(q, p, step, at)
  {
    if Handle(q, step.base).Ok? {
      ReceiverHandles(p, q, at, step.base);
    }
  }

  lemma LocalReceiver(q: Peer, p: Peer, step: Step, at: Option<nat>)
    requires Both(q, p) && LocalEnabled(q, p, step) && Greeting(p, q, at)
    ensures KeepsReceived(q, p, step, at)
  {
    if step.DeliverStep? {
      ReceivedDeliver(q, p, step, at);
    } else if step.HandleStep? {
      ReceivedHandle(q, p, step, at);
    } else if step.PrepareStep? {
      ReceivedPrepare(q, p, step, at);
    } else if step.StartStep? {
      ReceivedStart(q, p, step, at);
    } else if step.FetchStep? {
      ReceivedFetch(q, p, step, at);
    } else {
      ReceivedAck(q, p, step, at);
    }
  }

  lemma ReceiverStarts(p: Peer, q: Peer, at: Option<nat>)
    requires Greeting(p, q, at) && Start(q).Ok?
    ensures Greeting(p, Start(q).value, at)
  {
    ReceiverRests(p, q, Start(q).value, at);
  }

  lemma ReceiverRests(p: Peer, q: Peer, q': Peer, at: Option<nat>)
    requires Greeting(p, q, at) && q'.got == q.got && q'.cq == q.cq && q'.recvBuf == q.recvBuf
    ensures Greeting(p, q', at)
  {
  }

  lemma OwnStep(s: System, step: Step, at: Option<nat>)
    requires Both(s.Mine(step.side), s.Theirs(step.side)) && Enabled(s, step) && Apply(s, step).Ok?
    requires Greeting(s.Mine(step.side), s.Theirs(step.side), at)
    ensures var t := Apply(s, step).value;
      Greeting(t.Mine(step.side), t.Theirs(step.side), Refetch(s, step, step.side, at))
  {
    StepValue(s, step);
    LocalSender(s.Mine(step.side), s.Theirs(step.side), step, at);
  }

  lemma OtherStep(s: System, step: Step, at: Option<nat>)
    requires Both(s.Mine(step.side), s.Theirs(step.side)) && Enabled(s, step) && Apply(s, step).Ok?
    requires Greeting(s.Theirs(step.side), s.Mine(step.side), at)
    ensures var t := Apply(s, step).value; Greeting(t.Theirs(step.side), t.Mine(step.side), at)
  {
    StepValue(s, step);
    LocalReceiver(s.Mine(step.side), s.Theirs(step.side), step, at);
  }

  lemma EitherWay(s: System, side: Side)
    requires Inv(s)
    ensures Both(s.Mine(side), s.Theirs(side))
  {
  }

  lemma GreetingStep(s: System, step: Step, side: Side, at: Option<nat>)
    requires Inv(s) && Enabled(s, step) && Apply(s, step).Ok? && Greeting(s.Mine(side), s.Theirs(side), at)
    ensures var t := Apply(s, step).value; Greeting(t.Mine(side), t.Theirs(side), Refetch(s, step, side, at))
  {
    EitherWay(s, step.side);
    if step.side == side {
      OwnStep(s, step, at);
    } else {
      OtherStep(s, step, at);
    }
  }

  lemma {:induction false} GreetingRun(s: System, steps: seq<Step>, side: Side, at: Option<nat>)
    requires Inv(s) && Runs(s, steps) && forall i | 0 <= i < |steps| :: TextFits(steps[i])
    requires Greeting(s.Mine(side), s.Theirs(side), at)
    ensures Outcome(s, steps).Ok? && Inv(Outcome(s, steps).value)
    ensures var t := Outcome(s, steps).value; Greeting(t.Mine(side), t.Theirs(side), FetchedAt(s, steps, side, at))
    decreases |steps|
  {
    if steps != [] {
      StepKeeps(s, steps[0]);
      GreetingStep(s, steps[0], side, at);
      GreetingRun(Apply(s, steps[0]).value, steps[1..], side, Refetch(s, steps[0], side, at));
    }
  }

  lemma {:induction false} ReachedGreeting(s: System, steps: seq<Step>, t: System, side: Side)
    requires Reaches(s, steps, t)
    ensures Inv(t) && Greeting(t.Mine(side), t.Theirs(side), FetchedAt(s, steps, side, None))
  {
    InitInv(s);
    GreetingRun(s, steps, side, None);
  }

  lemma HelloStays(s: System, step: Step)
    requires Enabled(s, step) && Apply(s, step).Ok?
    ensures var t := Apply(s, step).value; t.left.hello == s.left.hello && t.right.hello == s.right.hello
  {
    StepValue(s, step);
    if step.HandleStep? {
      HandlerFrame(s.Mine(step.side), step.base);
    }
  }

  lemma {:induction false} HelloFixed(s: System, steps: seq<Step>)
    requires Runs(s, steps) && Outcome(s, steps).Ok?
    ensures var t := Outcome(s, steps).value; t.left.hello == s.left.hello && t.right.hello == s.right.hello
    decreases |steps|
  {
    if steps != [] {
      HelloStays(s, steps[0]);
      HelloFixed(Apply(s, steps[0]).value, steps[1..]);
    }
  }

  // ----- the greeting -----

  /** Whatever has been fetched for a pending greeting is the greeting, if that was before this
      side handled its first message, and the first bytes of its descriptor if it was after;
      it is never after the second. */
  lemma {:induction false} GreetingCarries(s: System, steps: seq<Step>, t: System, side: Side, i: nat)
    requires Reaches(s, steps, t) && i < |t.Mine(side).sq| && IsGreeting(t.Mine(side).sq[i])
    requires t.Mine(side).sq[i].data.Some?
    ensures var p, at := t.Mine(side), FetchedAt(s, steps, side, None);
      && |p.hello| <= MESSAGE_SIZE && |p.got| <= 1
      && at.Some? && at.value <= |p.got|
      && p.sq[i].data.value == Carried(p.hello, KeyImage(p), at.value)
  {
    ReachedGreeting(s, steps, t, side);
    PendingGreeting(s, steps, t, side, i);
    FetchedInPast(s, steps, side, None);
  }

  lemma PendingGreeting(s: System, steps: seq<Step>, t: System, side: Side, i: nat)
    requires Reaches(s, steps, t) && i < |t.Mine(side).sq| && IsGreeting(t.Mine(side).sq[i])
    ensures i == 0 && Delivered(t.Theirs(side)) == 0 && |t.Mine(side).got| <= 1
  {
    ReachedGreeting(s, steps, t, side);
    var p, q := t.Mine(side), t.Theirs(side);
    if Delivered(q) >= 1 {
      NoGreetingLeft(p, q, i);
    }
    OnlySends(p, q, i);
  }

  lemma LocalGot(p: Peer, q: Peer, step: Step)
    requires Both(p, q) && LocalEnabled(p, q, step)
    requires Local(p, q, step).Ok?
    ensures var (p', q') := Local(p, q, step).value; |p.got| <= |p'.got| && q'.got == q.got
  {
    if step.DeliverStep? {
      DeliveryFrame(p, q);
    } else if step.HandleStep? {
      HandlerFrame(p, step.base);
    }
  }

  lemma GotGrows(s: System, step: Step, side: Side)
    requires Inv(s) && Enabled(s, step) && Apply(s, step).Ok?
    ensures |s.Mine(side).got| <= |Apply(s, step).value.Mine(side).got|
  {
    EitherWay(s, step.side);
    StepValue(s, step);
    LocalGot(s.Mine(step.side), s.Theirs(step.side), step);
  }

  /** A fetch happens when as many messages have been handled as there are then. */
  lemma {:induction false} FetchedInPast(s: System, steps: seq<Step>, side: Side, at: Option<nat>)
    requires Inv(s) && Runs(s, steps) && forall i | 0 <= i < |steps| :: TextFits(steps[i])
    requires at.Some? ==> at.value <= |s.Mine(side).got|
    ensures Outcome(s, steps).Ok?
    ensures var now := FetchedAt(s, steps, side, at);
      now.Some? ==> now.value <= |Outcome(s, steps).value.Mine(side).got|
    decreases |steps|
  {
    if steps != [] {
      StepKeeps(s, steps[0]);
      GotGrows(s, steps[0], side);
      FetchedInPast(Apply(s, steps[0]).value, steps[1..], side, Refetch(s, steps[0], side, at));
    }
  }

  /** The bytes of a text that a descriptor would cover are its own. */
  predicate Agree(text: seq<byte>, key: seq<byte>)
    requires |text| <= |key| && DESCRIPTOR_SIZE <= |key|
  {
    var m := Least(|text|, DESCRIPTOR_SIZE);
    text[..m] == key[..m]
  }

  /** When a side handles the other's greeting, `recv_buffer` begins with its text exactly if it
      was last fetched before its sender handled a message, and the descriptor has not landed
      on it yet; or where what was sent or landed instead happens to read the same. */
  lemma {:induction false} GreetingArrives(s: System, steps: seq<Step>, t: System, side: Side)
    requires Reaches(s, steps, t)
    requires t.Theirs(side).cq != [] && t.Theirs(side).cq[0] == RecvDone(TestForSyncData)
    ensures var p, q, at := t.Mine(side), t.Theirs(side), FetchedAt(s, steps, side, None);
      && p.hello == s.Mine(side).hello && |p.hello| <= MESSAGE_SIZE && at.Some? && at.value <= 1
      && (Shows(q.recvBuf, p.hello) <==>
            && (at.value == 0 || p.hello == KeyImage(p)[..|p.hello|])
            && (|Collect(q.cq, RecvTag)| == 1 || Agree(p.hello, KeyImage(p))))
  {
    ReachedGreeting(s, steps, t, side);
    HelloFixed(s, steps);
    var p, q, at := t.Mine(side), t.Theirs(side), FetchedAt(s, steps, side, None);
    NextTag(p, q);
    AtMostTwo(p, q);
    assert Delivered(q) == |Collect(q.cq, RecvTag)| <= 2;
    if Delivered(q) == 1 {
      SameText(q.recvBuf, Carried(p.hello, KeyImage(p), at.value), p.hello);
    } else {
      SameText(q.recvBuf, Covered(Carried(p.hello, KeyImage(p), at.value), KeyImage(p)), p.hello);
      CoveredSame(p.hello, KeyImage(p), at.value);
    }
  }

  lemma SameText(memory: seq<byte>, a: seq<byte>, b: seq<byte>)
    requires Shows(memory, a) && |a| == |b|
    ensures Shows(memory, b) <==> a == b
  {
  }

  lemma CoveredSame(hello: seq<byte>, key: seq<byte>, handled: nat)
    requires |hello| <= |key| && DESCRIPTOR_SIZE <= |key|
    ensures Covered(Carried(hello, key, handled), key) == hello <==>
      (handled == 0 || hello == key[..|hello|]) && Agree(hello, key)
  {
    var text := Carried(hello, key, handled);
    var m := Least(|hello|, DESCRIPTOR_SIZE);
    var r := Covered(text, key);
    assert r[..m] == key[..m] && r[m..] == text[m..];
    assert hello == hello[..m] + hello[m..];
    if handled != 0 {
      assert r == key[..|hello|];
    }
  }
}
