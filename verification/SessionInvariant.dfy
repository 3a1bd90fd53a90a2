/** What every step of the default session protocol keeps. Each predicate speaks of
    one direction, from `p` to `q`; the invariant holds in both. */
module SessionInvariant {
  import opened ByteLayout
  import opened Wrappers
  import opened Projection
  import opened SessionProtocol

  // ----- what a queue element stands for -----

  function SendTag(it: Posted): seq<MessageType> {
    if it.wr.Send? then [it.wr.tag] else []
  }

  function RecvTag(c: Completion): seq<MessageType> {
    if c.RecvDone? then [c.tag] else []
  }

  function OneSided(it: Posted): seq<()> {
    if it.wr.Send? then [] else [()]
  }

  function OneSidedDone(c: Completion): seq<()> {
    if c.WriteDone? || c.ReadDone? then [()] else []
  }

  function Notice(it: Posted): seq<()> {
    if it.wr.Write? && it.wr.notify then [()] else []
  }

  function NoticeDone(c: Completion): seq<()> {
    if c.RecvImmDone? then [()] else []
  }

  function ReceiveDone(c: Completion): seq<()> {
    if c.RecvDone? || c.RecvImmDone? then [()] else []
  }

  /** What is queued at a peer, by kind, next to what the run has recorded of it. */
  datatype Ledger = Ledger(
    stage: Stage, desc: Descriptor, peerSink: Option<Descriptor>,
    sent: seq<MessageType>, got: seq<MessageType>,
    outgoing: seq<MessageType>,     // SENDs not executed yet
    incoming: seq<MessageType>,     // messages received but not handled
    posted: nat, executed: nat, completed: nat,    // WRITEs and READs, by stage
    noticesOut: nat, noticesIn: nat,               // WRITE_WITH_IMMs, likewise
    rq: nat, receives: nat)         // posted receives, receive completions not handled

  function LedgerOf(p: Peer): Ledger {
    Ledger(p.stage, p.desc, p.peerSink, p.sent, p.got,
           Collect(p.sq, SendTag), Collect(p.cq, RecvTag),
           |Collect(p.sq, OneSided)|, |Collect(p.acks, OneSided)|, |Collect(p.cq, OneSidedDone)|,
           |Collect(p.sq, Notice)|, |Collect(p.cq, NoticeDone)|,
           p.rq, |Collect(p.cq, ReceiveDone)|)
  }

  /** Messages of `p` that `q` has received, handled or not. */
  function Delivered(q: Peer): nat {
    |q.got| + |Collect(q.cq, RecvTag)|
  }

  // ----- the invariant -----

  /** The tag of a peer's k-th SEND. */
  function TagAt(k: nat): MessageType {
    match k
    case 0 => TestForSyncData
    case 1 => RequestExchangeKey
    case 2 => ResponseExchangeKey
    case _ => Unset
  }

  predicate Sizes(p: Peer) {
    && |p.sendBuf| == |p.recvBuf| == MESSAGE_SIZE
    && |p.writeBuf| == |p.readBuf| == |p.sink| == SINK_SIZE
    && p.desc.Representable() && p.desc.length == SINK_SIZE
    && |p.hello| <= MESSAGE_SIZE && |p.lastText| <= SINK_SIZE
  }

  /** Every message sent is handled, or received, or still queued, in that order. */
  predicate Conserved(l: Ledger, m: Ledger) {
    m.got + m.incoming + l.outgoing == l.sent
  }

  /** A running peer has answered every message it handled, after its greeting. */
  predicate Paced(l: Ledger) {
    && |l.sent| == (if l.stage.Running? then |l.got| + 1 else 0)
    && (!l.stage.Running? ==> l.got == [])
    && forall k | 0 <= k < |l.sent| :: l.sent[k] == TagAt(k)
  }

  predicate Received(l: Ledger) {
    l.rq + l.receives == if l.stage.Fresh? then 0 else 2
  }

  /** At most one WRITE_WITH_IMM is ever between its post and its handler. */
  predicate Notified(l: Ledger, m: Ledger) {
    l.noticesOut + m.noticesIn <= if |l.got| < 2 then 0 else 1
  }

  /** One WRITE or READ is pending once the peer's descriptor is known, none before. */
  predicate Looping(l: Ledger, m: Ledger) {
    && l.posted + l.executed + l.completed == (if |l.got| < 2 then 0 else 1)
    && l.peerSink == (if |l.got| < 2 then None else Some(m.desc))
  }

  /** Who has sent, received and answered what, and which completions are due. */
  predicate Balanced(l: Ledger, m: Ledger) {
    Conserved(l, m) && Paced(l) && Received(l) && Notified(l, m) && Looping(l, m)
  }

  /** `send_buffer` while it carries the descriptor. */
  function KeyImage(p: Peer): (r: seq<byte>)
    ensures |r| == MESSAGE_SIZE && r[..DESCRIPTOR_SIZE] == EncodeDescriptor(p.desc, p.fd)
  {
    Padded(EncodeDescriptor(p.desc, p.fd), MESSAGE_SIZE)
  }

  /** `early` says that the sender has not yet handled the peer's third message. */
  predicate SendItem(it: Posted, early: bool, image: seq<byte>) {
    it.wr.Send? ==>
      && it.wr.len <= MESSAGE_SIZE
      && (it.wr.tag.RequestExchangeKey? ==> it.wr.len == DESCRIPTOR_SIZE)
      && (it.data.Some? ==> |it.data.value| == it.wr.len)
      && (early && !it.wr.tag.TestForSyncData? && it.data.Some? ==> Shows(image, it.data.value))
  }

  predicate SendItems(sq: seq<Posted>, early: bool, image: seq<byte>) {
    forall i | 0 <= i < |sq| :: SendItem(sq[i], early, image)
  }

  /** `memory` begins with `text`. */
  predicate Shows(memory: seq<byte>, text: seq<byte>) {
    |text| <= |memory| && memory[..|text|] == text
  }

  /** The descriptor is safe: in `p.sendBuf`, in what was fetched from there, and in
      `q.recvBuf` from its arrival until `q` has handled REQUEST_EXCHANGE_KEY. */
  predicate KeySafe(p: Peer, q: Peer) {
    && (1 <= |p.got| <= 2 ==> p.sendBuf == KeyImage(p))
    && SendItems(p.sq, |p.got| <= 2, KeyImage(p))
    && (|q.got| <= 1 && Delivered(q) >= 2 ==> Shows(q.recvBuf, EncodeDescriptor(p.desc, p.fd)))
  }

  predicate PostedItem(it: Posted, target: Descriptor, text: seq<byte>, writeBuf: seq<byte>, sink: seq<byte>) {
    match it.wr
    case Send(_, _) => true
    case Write(len, d, _) =>
      d == target && len == |text| && Shows(writeBuf, text) && (it.data.Some? ==> it.data.value == text)
    case Read(len, d) => d == target && len == SINK_SIZE && Shows(sink, text)
  }

  predicate PostedItems(sq: seq<Posted>, target: Descriptor, text: seq<byte>, writeBuf: seq<byte>, sink: seq<byte>) {
    forall i | 0 <= i < |sq| :: PostedItem(sq[i], target, text, writeBuf, sink)
  }

  predicate ExecutedItem(it: Posted, text: seq<byte>, sink: seq<byte>) {
    match it.wr
    case Send(_, _) => true
    case Write(_, _, _) => Shows(sink, text)
    case Read(_, _) => it.data.Some? && |it.data.value| == SINK_SIZE && Shows(it.data.value, text)
  }

  predicate ExecutedItems(acks: seq<Posted>, text: seq<byte>, sink: seq<byte>) {
    forall i | 0 <= i < |acks| :: ExecutedItem(acks[i], text, sink)
  }

  predicate CompletedItem(c: Completion, text: seq<byte>, readBuf: seq<byte>, sink: seq<byte>) {
    && (c.WriteDone? ==> Shows(sink, text))
    && (c.ReadDone? ==> Shows(readBuf, text))
  }

  predicate CompletedItems(cq: seq<Completion>, text: seq<byte>, readBuf: seq<byte>, sink: seq<byte>) {
    forall i | 0 <= i < |cq| :: CompletedItem(cq[i], text, readBuf, sink)
  }

  /** The text last written survives at every stage of the WRITE and READ that follows. */
  predicate TextSafe(p: Peer, q: Peer) {
    && PostedItems(p.sq, q.desc, p.lastText, p.writeBuf, q.sink)
    && ExecutedItems(p.acks, p.lastText, q.sink)
    && CompletedItems(p.cq, p.lastText, p.readBuf, q.sink)
  }

  predicate Flow(p: Peer, q: Peer) {
    Sizes(p) && Balanced(LedgerOf(p), LedgerOf(q))
  }

  predicate Both(p: Peer, q: Peer) {
    && Flow(p, q) && Flow(q, p)
    && KeySafe(p, q) && KeySafe(q, p)
    && TextSafe(p, q) && TextSafe(q, p)
  }

  predicate Inv(s: System) {
    Both(s.left, s.right)
  }

  // ----- bounds that follow from it -----

  /** Neither peer is more than one message ahead of the other. */
  lemma InStep(p: Peer, q: Peer)
    requires Both(p, q)
    ensures |q.got| <= |p.sent| && |p.got| <= |q.sent|
    ensures p.stage.Running? && q.stage.Running? ==> -1 <= |p.got| - |q.got| <= 1
    ensures |p.got| <= |q.got| + 1
  {
  }

  /** The next message to be delivered from `p` is its `Delivered(q)`-th. */
  lemma HeadTag(p: Peer, q: Peer)
    requires Both(p, q) && p.sq != [] && p.sq[0].wr.Send?
    ensures Delivered(q) < |p.sent| && p.sq[0].wr.tag == TagAt(Delivered(q))
  {
    var front := q.got + Collect(q.cq, RecvTag);
    assert p.sent[|front|] == Collect(p.sq, SendTag)[0];
  }

  /** The next message to be handled by `q` is its `|q.got|`-th. */
  lemma NextTag(p: Peer, q: Peer)
    requires Both(p, q) && q.cq != [] && q.cq[0].RecvDone?
    ensures |q.got| < |p.sent| && q.cq[0].tag == TagAt(|q.got|)
  {
    assert p.sent[|q.got|] == Collect(q.cq, RecvTag)[0];
  }

  /** Nothing one-sided is left once the one pending request has been taken out. */
  lemma NoOneSided(p: Peer)
    requires var l := LedgerOf(p); l.posted + l.executed + l.completed == 0
    ensures forall i | 0 <= i < |p.sq| :: p.sq[i].wr.Send?
    ensures forall i | 0 <= i < |p.acks| :: p.acks[i].wr.Send?
    ensures forall i | 0 <= i < |p.cq| :: !p.cq[i].WriteDone? && !p.cq[i].ReadDone?
  {
    CollectEmpty(p.sq, OneSided);
    CollectEmpty(p.acks, OneSided);
    CollectEmpty(p.cq, OneSidedDone);
    forall i | 0 <= i < |p.sq| ensures p.sq[i].wr.Send? {
      assert OneSided(p.sq[i]) == [];
    }
    forall i | 0 <= i < |p.acks| ensures p.acks[i].wr.Send? {
      assert OneSided(p.acks[i]) == [];
    }
    forall i | 0 <= i < |p.cq| ensures !p.cq[i].WriteDone? && !p.cq[i].ReadDone? {
      assert OneSidedDone(p.cq[i]) == [];
    }
  }

  // ----- preservation -----

  lemma InitInv(s: System)
    requires Initial(s) && |s.left.hello| <= MESSAGE_SIZE && |s.right.hello| <= MESSAGE_SIZE
    ensures Inv(s)
  {
  }

  lemma {:induction false} PushPosted(s: seq<Posted>, it: Posted)
    ensures Collect(s + [it], SendTag) == Collect(s, SendTag) + SendTag(it)
    ensures Collect(s + [it], OneSided) == Collect(s, OneSided) + OneSided(it)
    ensures Collect(s + [it], Notice) == Collect(s, Notice) + Notice(it)
  {
    CollectSnoc(s, it, SendTag);
    CollectSnoc(s, it, OneSided);
    CollectSnoc(s, it, Notice);
  }

  lemma {:induction false} PushCompletion(s: seq<Completion>, c: Completion)
    ensures Collect(s + [c], RecvTag) == Collect(s, RecvTag) + RecvTag(c)
    ensures Collect(s + [c], OneSidedDone) == Collect(s, OneSidedDone) + OneSidedDone(c)
    ensures Collect(s + [c], NoticeDone) == Collect(s, NoticeDone) + NoticeDone(c)
    ensures Collect(s + [c], ReceiveDone) == Collect(s, ReceiveDone) + ReceiveDone(c)
  {
    CollectSnoc(s, c, RecvTag);
    CollectSnoc(s, c, OneSidedDone);
    CollectSnoc(s, c, NoticeDone);
    CollectSnoc(s, c, ReceiveDone);
  }

  // Prepare

  lemma PrepareFlow(p: Peer, q: Peer)
    requires Flow(p, q) && Flow(q, p) && p.stage.Fresh?
    ensures Flow(Prepare(p), q) && Flow(q, Prepare(p))
  {
  }

  lemma PrepareKey(p: Peer, q: Peer)
    requires Flow(p, q) && KeySafe(p, q) && KeySafe(q, p) && p.stage.Fresh?
    ensures KeySafe(Prepare(p), q) && KeySafe(q, Prepare(p))
  {
    // A receive completion would have used up a posted receive: none has arrived yet.
    NoTags(p.cq);
  }

  lemma {:induction false} NoTags(cq: seq<Completion>)
    requires Collect(cq, ReceiveDone) == []
    ensures Collect(cq, RecvTag) == []
  {
    if cq != [] {
      NoTags(cq[1..]);
    }
  }


  // Start

  function HelloItem(p: Peer): Posted {
    Posted(Send(|p.hello|, TestForSyncData), None)
  }

  lemma StartBalance(l: Ledger, m: Ledger, l': Ledger)
    requires Balanced(l, m) && Balanced(m, l) && l.stage.Ready?
    requires l' == l.(stage := Running, sent := [TestForSyncData], outgoing := l.outgoing + [TestForSyncData])
    ensures Balanced(l', m) && Balanced(m, l')
  {
  }

  lemma StartFlow(p: Peer, q: Peer)
    requires Flow(p, q) && Flow(q, p) && p.stage.Ready?
    ensures Start(p).Ok? && Flow(Start(p).value, q) && Flow(q, Start(p).value)
  {
    PushPosted(p.sq, HelloItem(p));
    StartBalance(LedgerOf(p), LedgerOf(q), LedgerOf(Start(p).value));
  }

  lemma StartKey(p: Peer, q: Peer)
    requires Flow(p, q) && KeySafe(p, q) && KeySafe(q, p) && p.stage.Ready? && Start(p).Ok?
    ensures KeySafe(Start(p).value, q) && KeySafe(q, Start(p).value)
  {
    assert Start(p).value.sq == p.sq + [HelloItem(p)];
  }

  lemma StartText(p: Peer, q: Peer)
    requires TextSafe(p, q) && TextSafe(q, p) && Start(p).Ok?
    ensures TextSafe(Start(p).value, q) && TextSafe(q, Start(p).value)
  {
    assert Start(p).value.sq == p.sq + [HelloItem(p)];
  }

  // Fetch

  lemma FetchFlow(p: Peer, q: Peer, i: nat)
    requires Flow(p, q) && Flow(q, p) && CanFetch(p, i)
    ensures Flow(Fetch(p, i), q) && Flow(q, Fetch(p, i))
  {
    var it := Fetch(p, i).sq[i];
    assert LedgerOf(Fetch(p, i)) == LedgerOf(p) by {
      CollectSet(p.sq, i, it, SendTag);
      CollectSet(p.sq, i, it, OneSided);
      CollectSet(p.sq, i, it, Notice);
    }
  }

  /** Only the greeting is posted before the first message is handled. */
  lemma GreetingOnly(p: Peer, q: Peer, i: nat)
    requires Flow(p, q) && |p.got| == 0 && i < |p.sq| && p.sq[i].wr.Send?
    ensures p.sq[i].wr.tag.TestForSyncData?
  {
    var tags := Collect(p.sq, SendTag);
    CollectMember(p.sq, i, SendTag);
    TagOf(p.sq, i);
    var k :| 0 <= k < |tags| && tags[k] == p.sq[i].wr.tag;
    assert p.sent[|q.got| + |Collect(q.cq, RecvTag)| + k] == tags[k];
  }

  lemma {:induction false} TagOf(sq: seq<Posted>, i: nat)
    requires i < |sq| && sq[i].wr.Send?
    ensures exists k :: 0 <= k < |Collect(sq, SendTag)| && Collect(sq, SendTag)[k] == sq[i].wr.tag
  {
    if i == 0 {
      assert Collect(sq, SendTag)[0] == sq[0].wr.tag;
    } else {
      TagOf(sq[1..], i - 1);
      var k :| 0 <= k < |Collect(sq[1..], SendTag)| && Collect(sq[1..], SendTag)[k] == sq[i].wr.tag;
      assert Collect(sq, SendTag)[|SendTag(sq[0])| + k] == sq[i].wr.tag;
    }
  }

  lemma FetchKey(p: Peer, q: Peer, i: nat)
    requires Flow(p, q) && KeySafe(p, q) && KeySafe(q, p) && CanFetch(p, i)
    ensures KeySafe(Fetch(p, i), q) && KeySafe(q, Fetch(p, i))
  {
    if p.sq[i].wr.Send? && |p.got| == 0 {
      GreetingOnly(p, q, i);
    }
  }

  lemma FetchText(p: Peer, q: Peer, i: nat)
    requires TextSafe(p, q) && TextSafe(q, p) && CanFetch(p, i)
    ensures TextSafe(Fetch(p, i), q) && TextSafe(q, Fetch(p, i))
  {
  }

  // Ack

  lemma AckLedger(p: Peer)
    requires CanAck(p)
    ensures var l, n := LedgerOf(p), |OneSided(p.acks[0])|;
      LedgerOf(Ack(p)) == l.(executed := l.executed - n, completed := l.completed + n)
  {
    PushCompletion(p.cq, Completes(p.acks[0].wr));
    assert RecvTag(Completes(p.acks[0].wr)) == [];
    assert Collect(p.cq, RecvTag) + [] == Collect(p.cq, RecvTag);
  }

  lemma AckFlow(p: Peer, q: Peer)
    requires Flow(p, q) && Flow(q, p) && CanAck(p)
    ensures Flow(Ack(p), q) && Flow(q, Ack(p))
  {
    AckLedger(p);
  }

  lemma AckKey(p: Peer, q: Peer)
    requires KeySafe(p, q) && KeySafe(q, p) && CanAck(p)
    ensures KeySafe(Ack(p), q) && KeySafe(q, Ack(p))
  {
    PushCompletion(p.cq, Completes(p.acks[0].wr));
  }

  lemma AckText(p: Peer, q: Peer)
    requires Flow(p, q) && TextSafe(p, q) && TextSafe(q, p) && CanAck(p)
    ensures TextSafe(Ack(p), q) && TextSafe(q, Ack(p))
  {
    // A READ that completes is the only one-sided request, so nothing else looked at `read_buffer`.
    assert ExecutedItem(p.acks[0], p.lastText, q.sink);
    if p.acks[0].wr.Read? {
      AckReadAlone(p, q);
    }
  }

  lemma AckReadAlone(p: Peer, q: Peer)
    requires Flow(p, q) && p.acks != [] && p.acks[0].wr.Read?
    ensures forall i | 0 <= i < |p.cq| :: !p.cq[i].WriteDone? && !p.cq[i].ReadDone?
  {
    NoOneSided(p.(acks := p.acks[1..]));
  }

  // Deliver

  lemma DeliverSendLedger(p: Peer, q: Peer)
    requires CanDeliver(p, q) && p.sq[0].wr.Send? && Deliver(p, q).Ok?
    ensures var l, tag := LedgerOf(p), p.sq[0].wr.tag;
      && l.outgoing == [tag] + l.outgoing[1..]
      && LedgerOf(Deliver(p, q).value.0) == l.(outgoing := l.outgoing[1..])
  {
    PushPosted(p.acks, p.sq[0]);
  }

  lemma ReceiveSendLedger(p: Peer, q: Peer)
    requires CanDeliver(p, q) && p.sq[0].wr.Send? && Deliver(p, q).Ok?
    ensures var m, tag := LedgerOf(q), p.sq[0].wr.tag;
      LedgerOf(Deliver(p, q).value.1) == m.(incoming := m.incoming + [tag], receives := m.receives + 1, rq := m.rq - 1)
  {
    PushCompletion(q.cq, RecvDone(p.sq[0].wr.tag));
  }

  lemma DeliverSendBalance(l: Ledger, m: Ledger, tag: MessageType)
    requires Balanced(l, m) && Balanced(m, l) && m.rq > 0
    requires l.outgoing != [] && l.outgoing[0] == tag
    ensures var l' := l.(outgoing := l.outgoing[1..]);
      var m' := m.(incoming := m.incoming + [tag], receives := m.receives + 1, rq := m.rq - 1);
      Balanced(l', m') && Balanced(m', l')
  {
    assert m.got + m.incoming + l.outgoing == m.got + (m.incoming + [tag]) + l.outgoing[1..];
  }

  lemma DeliverSendFlow(p: Peer, q: Peer)
    requires Flow(p, q) && Flow(q, p) && CanDeliver(p, q) && p.sq[0].wr.Send? && Deliver(p, q).Ok?
    ensures var (p', q') := Deliver(p, q).value; Flow(p', q') && Flow(q', p')
  {
    DeliverSendLedger(p, q);
    ReceiveSendLedger(p, q);
    DeliverSendBalance(LedgerOf(p), LedgerOf(q), p.sq[0].wr.tag);
  }

  /** Which message of `p` is at the head decides what it does to the key in `q.recvBuf`. */
  lemma DeliverSendKey(p: Peer, q: Peer)
    requires Both(p, q) && CanDeliver(p, q) && p.sq[0].wr.Send?
    ensures |p.sq[0].data.value| <= |q.recvBuf|
    ensures |q.got| <= 1 && Delivered(q) >= 1 ==>
      Shows(Overlay(q.recvBuf, p.sq[0].data.value), EncodeDescriptor(p.desc, p.fd))
  {
    var it := p.sq[0];
    assert SendItem(it, |p.got| <= 2, KeyImage(p));
    if |q.got| <= 1 && Delivered(q) >= 1 {
      HeadTag(p, q);
      InStep(p, q);
      LandKey(EncodeDescriptor(p.desc, p.fd), KeyImage(p), it.data.value, q.recvBuf, Delivered(q) == 1);
    }
  }

  lemma DeliverSendSafe(p: Peer, q: Peer)
    requires Both(p, q) && CanDeliver(p, q) && p.sq[0].wr.Send?
    ensures Deliver(p, q).Ok?
    ensures var (p', q') := Deliver(p, q).value; KeySafe(p', q') && KeySafe(q', p')
  {
    DeliverSendKey(p, q);
    DeliverSendShape(p, q);
    KeyDelivered(p, q, Deliver(p, q).value.0, Deliver(p, q).value.1);
  }

  lemma DeliverSendShape(p: Peer, q: Peer)
    requires CanDeliver(p, q) && p.sq[0].wr.Send? && |p.sq[0].data.value| <= |q.recvBuf|
    ensures Deliver(p, q).Ok?
    ensures var (p', q') := Deliver(p, q).value;
      && p' == p.(sq := p.sq[1..], acks := p'.acks)
      && q' == q.(recvBuf := Overlay(q.recvBuf, p.sq[0].data.value), rq := q'.rq, cq := q'.cq)
      && Delivered(q') == Delivered(q) + 1
  {
    PushCompletion(q.cq, RecvDone(p.sq[0].wr.tag));
  }

  lemma KeyDelivered(p: Peer, q: Peer, p': Peer, q': Peer)
    requires KeySafe(p, q) && KeySafe(q, p) && p.sq != []
    requires p' == p.(sq := p.sq[1..], acks := p'.acks)
    requires q' == q.(recvBuf := q'.recvBuf, rq := q'.rq, cq := q'.cq) && Delivered(q') == Delivered(q) + 1
    requires |q.got| <= 1 && Delivered(q) >= 1 ==> Shows(q'.recvBuf, EncodeDescriptor(p.desc, p.fd))
    ensures KeySafe(p', q') && KeySafe(q', p')
  {
  }

  lemma DeliverSendText(p: Peer, q: Peer)
    requires TextSafe(p, q) && TextSafe(q, p) && CanDeliver(p, q) && p.sq[0].wr.Send? && Deliver(p, q).Ok?
    ensures var (p', q') := Deliver(p, q).value; TextSafe(p', q') && TextSafe(q', p')
  {
  }

  /** A message cut from the start of `image` lands without harm to the key in front of it. */
  lemma LandKey(key: seq<byte>, image: seq<byte>, data: seq<byte>, memory: seq<byte>, first: bool)
    requires Shows(image, key) && Shows(image, data) && |data| <= |memory|
    requires if first then |data| == |key| else Shows(memory, key)
    ensures Shows(Overlay(memory, data), key)
  {
    var r := Overlay(memory, data);
    forall i | 0 <= i < |key| ensures r[i] == key[i] {
      assert key[i] == image[..|key|][i] == image[i];
      if i < |data| {
        assert r[i] == data[i] == image[..|data|][i];
      } else {
        assert r[i] == memory[i] == memory[..|key|][i];
      }
    }
    assert r[..|key|] == key;
  }

  lemma DeliverWriteLedger(p: Peer, q: Peer)
    requires CanDeliver(p, q) && p.sq[0].wr.Write? && Deliver(p, q).Ok?
    ensures var l, n := LedgerOf(p), |Notice(p.sq[0])|;
      && l.posted > 0 && l.noticesOut >= n
      && LedgerOf(Deliver(p, q).value.0)
         == l.(posted := l.posted - 1, executed := l.executed + 1, noticesOut := l.noticesOut - n)
  {
    PushPosted(p.acks, p.sq[0]);
  }

  lemma ReceiveWriteLedger(p: Peer, q: Peer)
    requires CanDeliver(p, q) && p.sq[0].wr.Write? && Deliver(p, q).Ok?
    ensures var m, n := LedgerOf(q), |Notice(p.sq[0])|;
      && m.rq >= n
      && LedgerOf(Deliver(p, q).value.1)
         == m.(noticesIn := m.noticesIn + n, receives := m.receives + n, rq := m.rq - n)
  {
    PushCompletion(q.cq, RecvImmDone);
    assert Collect(q.cq, RecvTag) + RecvTag(RecvImmDone) == Collect(q.cq, RecvTag);
  }

  lemma DeliverWriteFlow(p: Peer, q: Peer)
    requires Flow(p, q) && Flow(q, p) && CanDeliver(p, q) && p.sq[0].wr.Write? && Deliver(p, q).Ok?
    ensures var (p', q') := Deliver(p, q).value; Flow(p', q') && Flow(q', p')
  {
    DeliverWriteLedger(p, q);
    ReceiveWriteLedger(p, q);
    DeliverWriteBalance(LedgerOf(p), LedgerOf(q), |Notice(p.sq[0])|);
  }

  lemma DeliverWriteBalance(l: Ledger, m: Ledger, n: nat)
    requires Balanced(l, m) && Balanced(m, l) && l.posted > 0 && l.noticesOut >= n && m.rq >= n
    ensures var l' := l.(posted := l.posted - 1, executed := l.executed + 1, noticesOut := l.noticesOut - n);
      var m' := m.(noticesIn := m.noticesIn + n, receives := m.receives + n, rq := m.rq - n);
      Balanced(l', m') && Balanced(m', l')
  {
  }

  /** A one-sided request at the head of the send queue is the only one `p` has. */
  lemma HeadAlone(p: Peer, q: Peer)
    requires Flow(p, q) && p.sq != [] && !p.sq[0].wr.Send?
    ensures forall i | 1 <= i < |p.sq| :: p.sq[i].wr.Send?
    ensures forall i | 0 <= i < |p.acks| :: p.acks[i].wr.Send?
    ensures forall i | 0 <= i < |p.cq| :: !p.cq[i].WriteDone? && !p.cq[i].ReadDone?
  {
    NoOneSided(p.(sq := p.sq[1..]));
    forall i | 1 <= i < |p.sq| ensures p.sq[i].wr.Send? {
      assert p.sq[i] == p.sq[1..][i - 1];
    }
  }

  lemma DeliverWriteText(p: Peer, q: Peer)
    requires Flow(p, q) && Sizes(q) && TextSafe(p, q) && TextSafe(q, p) && CanDeliver(p, q) && p.sq[0].wr.Write?
    ensures Deliver(p, q).Ok?
    ensures var (p', q') := Deliver(p, q).value; TextSafe(p', q') && TextSafe(q', p')
  {
    assert PostedItem(p.sq[0], q.desc, p.lastText, p.writeBuf, q.sink);
    HeadAlone(p, q);
    assert Shows(Deliver(p, q).value.1.sink, p.lastText);
  }

  lemma DeliverWriteKey(p: Peer, q: Peer)
    requires KeySafe(p, q) && KeySafe(q, p) && CanDeliver(p, q) && p.sq[0].wr.Write? && Deliver(p, q).Ok?
    ensures var (p', q') := Deliver(p, q).value; KeySafe(p', q') && KeySafe(q', p')
  {
    PushCompletion(q.cq, RecvImmDone);
  }

  lemma DeliverReadLedger(p: Peer, q: Peer)
    requires CanDeliver(p, q) && p.sq[0].wr.Read? && Deliver(p, q).Ok?
    ensures var l := LedgerOf(p);
      && l.posted > 0
      && LedgerOf(Deliver(p, q).value.0) == l.(posted := l.posted - 1, executed := l.executed + 1)
  {
    PushPosted(p.acks, Deliver(p, q).value.0.acks[|p.acks|]);
  }

  lemma DeliverReadFlow(p: Peer, q: Peer)
    requires Flow(p, q) && Flow(q, p) && CanDeliver(p, q) && p.sq[0].wr.Read? && Deliver(p, q).Ok?
    ensures var (p', q') := Deliver(p, q).value; Flow(p', q') && Flow(q', p')
  {
    DeliverReadLedger(p, q);
    DeliverWriteBalance(LedgerOf(p), LedgerOf(q), 0);
  }

  lemma DeliverReadText(p: Peer, q: Peer)
    requires Flow(p, q) && Sizes(q) && TextSafe(p, q) && TextSafe(q, p) && CanDeliver(p, q) && p.sq[0].wr.Read?
    ensures Deliver(p, q).Ok?
    ensures var (p', q') := Deliver(p, q).value; TextSafe(p', q') && TextSafe(q', p')
  {
    assert PostedItem(p.sq[0], q.desc, p.lastText, p.writeBuf, q.sink);
    HeadAlone(p, q);
  }

  lemma DeliverReadKey(p: Peer, q: Peer)
    requires KeySafe(p, q) && KeySafe(q, p) && CanDeliver(p, q) && p.sq[0].wr.Read? && Deliver(p, q).Ok?
    ensures var (p', q') := Deliver(p, q).value; KeySafe(p', q') && KeySafe(q', p')
  {
  }

  // Handle: completions that answer no message

  lemma PopSendDone(p: Peer, q: Peer)
    requires Both(p, q) && p.cq != [] && p.cq[0].SendDone?
    ensures Both(p.(cq := p.cq[1..]), q)
  {
    PopText(p, q);
    assert LedgerOf(p.(cq := p.cq[1..])) == LedgerOf(p);
  }

  lemma PopText(p: Peer, q: Peer)
    requires TextSafe(p, q) && p.cq != []
    ensures CompletedItems(p.cq[1..], p.lastText, p.readBuf, q.sink)
  {
  }

  lemma RecvImmFlow(p: Peer, q: Peer)
    requires Flow(p, q) && Flow(q, p) && p.cq != [] && p.cq[0].RecvImmDone?
    ensures var p' := p.(cq := p.cq[1..], rq := p.rq + 1); Flow(p', q) && Flow(q, p')
  {
    var l := LedgerOf(p);
    assert LedgerOf(p.(cq := p.cq[1..], rq := p.rq + 1)) ==
      l.(receives := l.receives - 1, noticesIn := l.noticesIn - 1, rq := l.rq + 1);
  }

  lemma RecvImmRest(p: Peer, q: Peer)
    requires KeySafe(p, q) && KeySafe(q, p) && TextSafe(p, q) && TextSafe(q, p)
    requires p.cq != [] && p.cq[0].RecvImmDone?
    ensures var p' := p.(cq := p.cq[1..], rq := p.rq + 1);
      KeySafe(p', q) && KeySafe(q, p') && TextSafe(p', q) && TextSafe(q, p')
  {
    PopText(p, q);
    assert Delivered(p.(cq := p.cq[1..], rq := p.rq + 1)) == Delivered(p);
  }

  lemma RecvImmValue(p: Peer, base: seq<byte>)
    requires p.cq != [] && p.cq[0].RecvImmDone? && |p.recvBuf| >= DESCRIPTOR_SIZE
    ensures Handle(p, base) == Ok(p.(cq := p.cq[1..], rq := p.rq + 1))
  {
  }

  lemma HandleRecvImm(p: Peer, q: Peer, base: seq<byte>)
    requires Both(p, q) && p.cq != [] && p.cq[0].RecvImmDone?
    ensures Handle(p, base).Ok? && Both(Handle(p, base).value, q)
  {
    RecvImmFlow(p, q);
    RecvImmRest(p, q);
    RecvImmValue(p, base);
  }

  function AfterWriteDone(p: Peer, d: Descriptor): Peer
    requires p.cq != []
  {
    p.(cq := p.cq[1..], readBuf := Zeros(|p.readBuf|), sq := p.sq + [Posted(Read(|p.readBuf|, d), None)])
  }

  function AfterReadDone(p: Peer, d: Descriptor, text: seq<byte>): Peer
    requires p.cq != [] && |text| <= |p.writeBuf|
  {
    p.(cq := p.cq[1..], writeBuf := Padded(text, |p.writeBuf|), lastText := text,
       sq := p.sq + [Posted(Write(|text|, d, false), None)])
  }

  lemma LoopLedger(p: Peer, p': Peer, it: Posted)
    requires LoopStep(p, p', it)
    ensures var l := LedgerOf(p); LedgerOf(p') == l.(completed := l.completed - 1, posted := l.posted + 1)
  {
    PushPosted(p.sq, it);
    assert Collect(p.sq, SendTag) + [] == Collect(p.sq, SendTag);
  }

  lemma WriteDoneKeeps(p: Peer, q: Peer)
    requires Both(p, q) && p.cq != [] && p.cq[0].WriteDone?
    ensures p.peerSink == Some(q.desc) && Both(AfterWriteDone(p, q.desc), q)
  {
    var p' := AfterWriteDone(p, q.desc);
    LoopFlow(p, q, p', p'.sq[|p.sq|]);
    LoopKey(p, q, p', p'.sq[|p.sq|]);
    assert CompletedItem(p.cq[0], p.lastText, p.readBuf, q.sink);
    LoopText(p, q, p', p'.sq[|p.sq|]);
  }

  lemma ReadDoneKeeps(p: Peer, q: Peer, text: seq<byte>)
    requires Both(p, q) && p.cq != [] && p.cq[0].ReadDone? && |text| <= SINK_SIZE
    ensures p.peerSink == Some(q.desc) && Both(AfterReadDone(p, q.desc, text), q)
  {
    var p' := AfterReadDone(p, q.desc, text);
    LoopFlow(p, q, p', p'.sq[|p.sq|]);
    LoopKey(p, q, p', p'.sq[|p.sq|]);
    LoopText(p, q, p', p'.sq[|p.sq|]);
  }

  /** A WRITE or READ completion has been handled by posting the next one, `it`. */
  predicate LoopStep(p: Peer, p': Peer, it: Posted) {
    && p.cq != [] && (p.cq[0].WriteDone? || p.cq[0].ReadDone?)
    && !it.wr.Send? && Notice(it) == []
    && p' == p.(cq := p.cq[1..], sq := p.sq + [it],
                writeBuf := p'.writeBuf, readBuf := p'.readBuf, lastText := p'.lastText)
  }

  lemma LoopFlow(p: Peer, q: Peer, p': Peer, it: Posted)
    requires Flow(p, q) && Flow(q, p) && LoopStep(p, p', it) && Sizes(p')
    ensures p.peerSink == Some(q.desc) && Flow(p', q) && Flow(q, p')
  {
    LoopLedger(p, p', it);
    var l := LedgerOf(p);
    assert l.completed > 0;
  }

  lemma LoopKey(p: Peer, q: Peer, p': Peer, it: Posted)
    requires KeySafe(p, q) && KeySafe(q, p) && LoopStep(p, p', it)
    ensures KeySafe(p', q) && KeySafe(q, p')
  {
  }

  lemma LoopText(p: Peer, q: Peer, p': Peer, it: Posted)
    requires Flow(p, q) && TextSafe(p, q) && TextSafe(q, p) && LoopStep(p, p', it)
    requires PostedItem(it, q.desc, p'.lastText, p'.writeBuf, q.sink)
    ensures TextSafe(p', q) && TextSafe(q, p')
  {
    NoOneSided(p.(cq := p.cq[1..]));
  }

  // Handle: messages

  /** The ledger after one message has been answered by another. */
  function Answered(l: Ledger): Ledger
    requires l.incoming != [] && l.receives > 0
  {
    var next := TagAt(|l.got| + 1);
    l.(got := l.got + [l.incoming[0]], incoming := l.incoming[1..], receives := l.receives - 1, rq := l.rq + 1,
       sent := l.sent + [next], outgoing := l.outgoing + [next])
  }

  lemma AnswerBalance(l: Ledger, m: Ledger)
    requires Balanced(l, m) && Balanced(m, l) && l.stage.Running? && l.incoming != [] && l.receives > 0
    requires |l.got| != 1
    ensures Balanced(Answered(l), m) && Balanced(m, Answered(l))
  {
    var l' := Answered(l);
    assert l'.got + l'.incoming == l.got + l.incoming;
    assert m.got + m.incoming + l'.outgoing == m.got + m.incoming + l.outgoing + [TagAt(|l.got| + 1)];
  }

  /** Handling REQUEST_EXCHANGE_KEY also records the descriptor and starts the write loop. */
  lemma RequestBalance(l: Ledger, m: Ledger)
    requires Balanced(l, m) && Balanced(m, l) && l.stage.Running? && l.incoming != [] && l.receives > 0
    requires |l.got| == 1
    ensures var l' := Answered(l).(peerSink := Some(m.desc), posted := l.posted + 1, noticesOut := l.noticesOut + 1);
      Balanced(l', m) && Balanced(m, l')
  {
    var l' := Answered(l);
    assert l'.got + l'.incoming == l.got + l.incoming;
    assert m.got + m.incoming + l'.outgoing == m.got + m.incoming + l.outgoing + [TagAt(|l.got| + 1)];
  }

  /** The peer after it has handled one message and posted a SEND of `len` bytes in answer. */
  function AfterAnswer(p: Peer, sendBuf: seq<byte>, len: nat, next: MessageType): Peer
    requires p.cq != [] && p.cq[0].RecvDone?
  {
    p.(cq := p.cq[1..], rq := p.rq + 1, got := p.got + [p.cq[0].tag], sent := p.sent + [next],
       sendBuf := sendBuf, sq := p.sq + [Posted(Send(len, next), None)])
  }

  lemma AnswerLedger(p: Peer, sendBuf: seq<byte>, len: nat)
    requires p.cq != [] && p.cq[0].RecvDone?
    ensures var l := LedgerOf(p);
      && l.incoming != [] && l.receives > 0
      && LedgerOf(AfterAnswer(p, sendBuf, len, TagAt(|p.got| + 1))) == Answered(l)
  {
    PushPosted(p.sq, Posted(Send(len, TagAt(|p.got| + 1)), None));
  }

  lemma AnswerText(p: Peer, q: Peer, sendBuf: seq<byte>, len: nat, next: MessageType)
    requires TextSafe(p, q) && TextSafe(q, p) && p.cq != [] && p.cq[0].RecvDone?
    ensures var p' := AfterAnswer(p, sendBuf, len, next); TextSafe(p', q) && TextSafe(q, p')
  {
    PopText(p, q);
  }

  lemma AnswerKey(p: Peer, q: Peer, sendBuf: seq<byte>, len: nat)
    requires Both(p, q) && p.cq != [] && p.cq[0].RecvDone? && len <= MESSAGE_SIZE
    requires |p.got| == 0 ==> len == DESCRIPTOR_SIZE && sendBuf == KeyImage(p)
    requires |p.got| == 1 ==> sendBuf == p.sendBuf
    ensures var p' := AfterAnswer(p, sendBuf, len, TagAt(|p.got| + 1)); KeySafe(p', q) && KeySafe(q, p')
  {
    var p' := AfterAnswer(p, sendBuf, len, TagAt(|p.got| + 1));
    assert Delivered(p') == Delivered(p);
    assert SendItem(p'.sq[|p.sq|], |p'.got| <= 2, KeyImage(p));
    forall i | 0 <= i < |p.sq| ensures SendItem(p.sq[i], |p'.got| <= 2, KeyImage(p)) {
      assert SendItem(p.sq[i], |p.got| <= 2, KeyImage(p));
    }
  }

  /** Answering any message but REQUEST_EXCHANGE_KEY. */
  lemma AnswerKeeps(p: Peer, q: Peer, sendBuf: seq<byte>, len: nat)
    requires Both(p, q) && p.stage.Running? && p.cq != [] && p.cq[0].RecvDone? && |p.got| != 1
    requires |sendBuf| == MESSAGE_SIZE && len <= MESSAGE_SIZE
    requires |p.got| == 0 ==> len == DESCRIPTOR_SIZE && sendBuf == KeyImage(p)
    ensures Both(AfterAnswer(p, sendBuf, len, TagAt(|p.got| + 1)), q)
  {
    AnswerLedger(p, sendBuf, len);
    AnswerBalance(LedgerOf(p), LedgerOf(q));
    AnswerText(p, q, sendBuf, len, TagAt(|p.got| + 1));
    AnswerKey(p, q, sendBuf, len);
  }

  /** When REQUEST_EXCHANGE_KEY is about to be handled, `recv_buffer` decodes to the peer's sink. */
  lemma RequestDecodes(p: Peer, q: Peer)
    requires Both(p, q) && p.cq != [] && p.cq[0] == RecvDone(RequestExchangeKey)
    ensures |p.got| == 1 && p.peerSink == None
    ensures |p.recvBuf| >= DESCRIPTOR_SIZE && DecodeDescriptor(p.recvBuf) == q.desc
  {
    NextTag(q, p);
    assert Delivered(p) >= 2;
    DecodeEncodeDescriptor(q.desc, q.fd, p.recvBuf);
  }

  /** The peer after REQUEST_EXCHANGE_KEY: answered, descriptor recorded, first WRITE posted. */
  function AfterRequest(p: Peer, d: Descriptor, len: nat, text: seq<byte>): Peer
    requires p.cq != [] && p.cq[0].RecvDone? && |text| <= |p.writeBuf|
  {
    var r := AfterAnswer(p, p.sendBuf, len, ResponseExchangeKey);
    r.(peerSink := Some(d), writeBuf := Padded(text, |p.writeBuf|), lastText := text,
       sq := r.sq + [Posted(Write(|text|, d, true), None)])
  }

  lemma RequestLedger(p: Peer, d: Descriptor, len: nat, text: seq<byte>)
    requires p.cq != [] && p.cq[0] == RecvDone(RequestExchangeKey) && |p.got| == 1 && |text| <= |p.writeBuf|
    ensures var l := LedgerOf(p);
      && l.incoming != [] && l.receives > 0
      && LedgerOf(AfterRequest(p, d, len, text)) ==
           Answered(l).(peerSink := Some(d), posted := l.posted + 1, noticesOut := l.noticesOut + 1)
  {
    AnswerLedger(p, p.sendBuf, len);
    var r := AfterAnswer(p, p.sendBuf, len, ResponseExchangeKey);
    PushPosted(r.sq, Posted(Write(|text|, d, true), None));
    assert Collect(r.sq, SendTag) + [] == Collect(r.sq, SendTag);
  }

  lemma RequestFlow(p: Peer, q: Peer, len: nat, text: seq<byte>)
    requires Flow(p, q) && Flow(q, p) && p.stage.Running?
    requires p.cq != [] && p.cq[0] == RecvDone(RequestExchangeKey) && |p.got| == 1 && |text| <= SINK_SIZE
    ensures var p' := AfterRequest(p, q.desc, len, text); Flow(p', q) && Flow(q, p')
  {
    RequestLedger(p, q.desc, len, text);
    RequestBalance(LedgerOf(p), LedgerOf(q));
  }

  lemma PostWriteKey(r: Peer, q: Peer, p': Peer, it: Posted)
    requires KeySafe(r, q) && KeySafe(q, r) && !it.wr.Send?
    requires p' == r.(peerSink := p'.peerSink, writeBuf := p'.writeBuf, lastText := p'.lastText, sq := r.sq + [it])
    ensures KeySafe(p', q) && KeySafe(q, p')
  {
  }

  lemma RequestKey(p: Peer, q: Peer, len: nat, text: seq<byte>)
    requires Both(p, q) && p.cq != [] && p.cq[0] == RecvDone(RequestExchangeKey)
    requires |p.got| == 1 && |text| <= SINK_SIZE && len <= MESSAGE_SIZE
    ensures var p' := AfterRequest(p, q.desc, len, text); KeySafe(p', q) && KeySafe(q, p')
  {
    AnswerKey(p, q, p.sendBuf, len);
    var r, p' := AfterAnswer(p, p.sendBuf, len, ResponseExchangeKey), AfterRequest(p, q.desc, len, text);
    PostWriteKey(r, q, p', Posted(Write(|text|, q.desc, true), None));
  }

  lemma RequestText(p: Peer, q: Peer, len: nat, text: seq<byte>)
    requires Flow(p, q) && TextSafe(p, q) && TextSafe(q, p) && p.cq != [] && p.cq[0] == RecvDone(RequestExchangeKey)
    requires |p.got| == 1 && |text| <= SINK_SIZE
    ensures var p' := AfterRequest(p, q.desc, len, text); TextSafe(p', q) && TextSafe(q, p')
  {
    NoOneSided(p);
    var p' := AfterRequest(p, q.desc, len, text);
    forall i | 0 <= i < |p'.sq| ensures PostedItem(p'.sq[i], q.desc, text, p'.writeBuf, q.sink) {
      if i < |p.sq| {
        assert p'.sq[i] == p.sq[i];
      }
    }
  }
}
