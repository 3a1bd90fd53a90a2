/** The window and the rings of the mesh service, in every reachable state. */
module MeshInvariant {
  import opened ByteLayout
  import opened Wrappers
  import opened Projection
  import opened Buffers
  import opened MeshService

  // ----- rings as queues of blocks -----

  /** The blocks inside the window of a ring, oldest first. */
  function WindowBlocks(r: Ring): (w: seq<nat>)
    requires Windowed(r)
    ensures |w| == r.Outstanding()
  {
    seq(r.next - r.last, i requires 0 <= i < r.next - r.last => (r.last + 1 + i) % |r.inUse|)
  }

  lemma WindowAdvance(r: Ring)
    requires Windowed(r) && r.Outstanding() < |r.inUse|
    ensures Windowed(Advance(r)) && WindowBlocks(Advance(r)) == WindowBlocks(r) + [NextBlock(r)]
  {
    AdvanceWindow(r);
  }

  lemma WindowRetire(r: Ring)
    requires Windowed(r) && r.Outstanding() > 0
    ensures Windowed(Retire(r)) && WindowBlocks(r) == [LastBlock(r)] + WindowBlocks(Retire(r))
  {
    RetireWindow(r);
  }

  function WorkBlock(w: Work): seq<nat> {
    [w.block]
  }

  function SentBlock(e: Event): seq<nat> {
    if e.RecvDone? then [] else [e.block]
  }

  function RecvBlock(e: Event): seq<nat> {
    if e.RecvDone? then [e.block] else []
  }

  /** Blocks of the send ring that a request still uses, oldest first. */
  function SendBlocks(ch: Channel): seq<nat> {
    Collect(ch.cq, SentBlock) + Collect(ch.acks, WorkBlock) + Collect(ch.sq, WorkBlock)
  }

  /** Blocks of the receive ring that hold a message or wait for one, oldest first. */
  function RecvBlocks(ch: Channel): seq<nat> {
    Collect(ch.cq, RecvBlock) + ch.receives
  }

  /** The outstanding requests use exactly the blocks of the window, in ring order. */
  predicate SendFifo(ch: Channel) {
    && Windowed(ch.sendRing)
    && SendBlocks(ch) == WindowBlocks(ch.sendRing)
    && ch.sqInflight == ch.sendRing.Outstanding()
  }

  /** The receive ring is always full, and messages fill its blocks in ring order. */
  predicate RecvFifo(ch: Channel) {
    && Windowed(ch.recvRing) && ch.recvRing.Outstanding() == |ch.recvRing.inUse|
    && RecvBlocks(ch) <= WindowBlocks(ch.recvRing)
    && ch.rqInflight == |RecvBlocks(ch)|
    && ch.arrived == ch.recvRing.last + 1 + |Collect(ch.cq, RecvBlock)|
  }

  predicate Rings(ch: Channel) {
    ch.WellFormed() && SendFifo(ch) && RecvFifo(ch)
  }

  // ----- what each operation does to the rings -----

  /** A request that finds room in the window finds its block free. */
  lemma PostKeepsFifo(ch: Channel, w: Work)
    requires Rings(ch) && ch.sqInflight < ch.Blocks() && w.block == NextBlock(ch.sendRing)
    ensures PostWork(ch, w).Ok? && Rings(PostWork(ch, w).value)
  {
    AdvanceWindow(ch.sendRing);
    WindowAdvance(ch.sendRing);
    CollectSnoc(ch.sq, w, WorkBlock);
  }

  /** A send completion belongs to the oldest block of the window: `last()` takes back the
      block of the very request that completed. */
  lemma CompletedBlock(ch: Channel)
    requires Rings(ch) && ch.cq != [] && !ch.cq[0].RecvDone?
    ensures ch.sendRing.Outstanding() > 0
    ensures ch.cq[0].block == LastBlock(ch.sendRing) && ch.sendRing.inUse[LastBlock(ch.sendRing)]
    ensures SendBlocks(ch) == [ch.cq[0].block] + SendBlocks(ch.(cq := ch.cq[1..]))
  {
    CompletedFirst(ch);
    WindowHead(ch.sendRing, ch.cq[0].block, SendBlocks(ch.(cq := ch.cq[1..])));
  }

  lemma WindowHead(r: Ring, b: nat, rest: seq<nat>)
    requires Windowed(r) && WindowBlocks(r) == [b] + rest
    ensures r.Outstanding() > 0 && b == LastBlock(r) && r.inUse[LastBlock(r)]
  {
    RetireWindow(r);
    assert WindowBlocks(r)[0] == b;
  }

  lemma CompletedFirst(ch: Channel)
    requires ch.cq != [] && !ch.cq[0].RecvDone?
    ensures SendBlocks(ch) == [ch.cq[0].block] + SendBlocks(ch.(cq := ch.cq[1..]))
  {
    PoppedCompletion(ch);
  }

  lemma CountOffKeepsSend(ch: Channel)
    requires Rings(ch) && ch.cq != [] && !ch.cq[0].RecvDone?
    ensures var r := CountOff(ch.(cq := ch.cq[1..])); r.Ok? && SendFifo(r.value)
  {
    CompletedBlock(ch);
    WindowRetire(ch.sendRing);
    var ch' := ch.(cq := ch.cq[1..]);
    assert SendBlocks(ch') == SendBlocks(ch)[1..] == WindowBlocks(Retire(ch.sendRing));
    assert SendBlocks(CountOff(ch').value) == SendBlocks(ch');
  }

  lemma CountOffKeepsFifo(ch: Channel)
    requires Rings(ch) && ch.cq != [] && !ch.cq[0].RecvDone?
    ensures var r := CountOff(ch.(cq := ch.cq[1..])); r.Ok? && Rings(r.value)
  {
    CountOffKeepsSend(ch);
    PoppedCompletion(ch);
  }

  /** A message is in the block that `last()` takes back and that `next()` then names. */
  lemma MessageBlock(ch: Channel)
    requires Rings(ch) && ch.cq != [] && ch.cq[0].RecvDone?
    ensures ch.cq[0].block == LastBlock(ch.recvRing) == NextBlock(Retire(ch.recvRing))
    ensures ch.recvRing.inUse[LastBlock(ch.recvRing)]
    ensures !Retire(ch.recvRing).inUse[NextBlock(Retire(ch.recvRing))]
  {
    RetireWindow(ch.recvRing);
    RetireAdvance(ch.recvRing);
    assert RecvBlocks(ch)[0] == ch.cq[0].block;
    assert WindowBlocks(ch.recvRing)[0] == LastBlock(ch.recvRing);
  }

  /** The ring after a message has been handled: retired and advanced, whether or not the
      block is posted again. */
  lemma ReceiveRingTurns(ch: Channel)
    requires Rings(ch) && ch.cq != [] && ch.cq[0].RecvDone?
    ensures var r := Advance(Retire(ch.recvRing)); var b := LastBlock(ch.recvRing);
      && Windowed(r) && r.Outstanding() == |r.inUse|
      && WindowBlocks(r) == WindowBlocks(ch.recvRing)[1..] + [b]
  {
    RetireWindow(ch.recvRing);
    WindowRetire(ch.recvRing);
    RetireAdvance(ch.recvRing);
    WindowAdvance(Retire(ch.recvRing));
  }

  /** A message has been handled and its block posted `again`, or not. */
  predicate Turned(ch: Channel, ch': Channel, again: seq<nat>)
    requires ch.WellFormed()
  {
    && ch.cq != [] && ch.cq[0].RecvDone?
    && (again == [] || (again == [LastBlock(ch.recvRing)] && |RecvBlocks(ch)| == ch.Blocks()))
    && ch' == ch.(cq := ch.cq[1..], recvRing := Advance(Retire(ch.recvRing)),
                  receives := ch.receives + again, rqInflight := ch.rqInflight - 1 + |again|,
                  sendMem := ch'.sendMem, peer := ch'.peer)
    && |ch'.sendMem| == |ch.sendMem|
  }

  lemma TurnSequence(b: nat, done: seq<nat>, receives: seq<nat>, again: seq<nat>)
    ensures ([b] + done + receives)[1..] + again == done + (receives + again)
  {
    assert ([b] + done + receives)[1..] == done + receives;
  }

  lemma PoppedMessage(ch: Channel)
    requires ch.cq != [] && ch.cq[0].RecvDone?
    ensures Collect(ch.cq, RecvBlock) == [ch.cq[0].block] + Collect(ch.cq[1..], RecvBlock)
    ensures Collect(ch.cq, SentBlock) == Collect(ch.cq[1..], SentBlock)
  {
    assert [] + Collect(ch.cq[1..], SentBlock) == Collect(ch.cq[1..], SentBlock);
  }

  lemma PoppedCompletion(ch: Channel)
    requires ch.cq != [] && !ch.cq[0].RecvDone?
    ensures Collect(ch.cq, SentBlock) == [ch.cq[0].block] + Collect(ch.cq[1..], SentBlock)
    ensures Collect(ch.cq, RecvBlock) == Collect(ch.cq[1..], RecvBlock)
  {
    assert [] + Collect(ch.cq[1..], RecvBlock) == Collect(ch.cq[1..], RecvBlock);
  }

  lemma TurnedBlocks(ch: Channel, ch': Channel, again: seq<nat>)
    requires ch.WellFormed() && Turned(ch, ch', again)
    ensures RecvBlocks(ch) != [] && RecvBlocks(ch') == RecvBlocks(ch)[1..] + again
    ensures |Collect(ch'.cq, RecvBlock)| == |Collect(ch.cq, RecvBlock)| - 1
    ensures SendBlocks(ch') == SendBlocks(ch)
  {
    PoppedMessage(ch);
    TurnSequence(ch.cq[0].block, Collect(ch.cq[1..], RecvBlock), ch.receives, again);
  }

  lemma TurnKeepsRecv(ch: Channel, ch': Channel, again: seq<nat>)
    requires Rings(ch) && Turned(ch, ch', again)
    ensures RecvFifo(ch')
  {
    TurnedBlocks(ch, ch', again);
    ReceiveRingTurns(ch);
    var w := WindowBlocks(ch.recvRing);
    assert RecvBlocks(ch)[1..] <= w[1..];
    if again != [] {
      assert RecvBlocks(ch)[1..] == w[1..];
    }
  }

  lemma TurnKeepsFifo(ch: Channel, ch': Channel, again: seq<nat>)
    requires Rings(ch) && Turned(ch, ch', again)
    ensures Rings(ch')
  {
    TurnedBlocks(ch, ch', again);
    TurnKeepsRecv(ch, ch', again);
  }

  lemma CompleteKeepsFifo(ch: Channel)
    requires Rings(ch) && ch.acks != []
    ensures Rings(Complete(ch))
  {
    var e := Completed(ch.acks[0]);
    CollectSnoc(ch.cq, e, SentBlock);
    CollectSnoc(ch.cq, e, RecvBlock);
    assert Collect(ch.cq, RecvBlock) + [] == Collect(ch.cq, RecvBlock);
    assert SendBlocks(Complete(ch)) == SendBlocks(ch);
  }

  lemma ExecuteKeepsSender(ch: Channel)
    requires Rings(ch) && ch.sq != []
    ensures Rings(ch.(sq := ch.sq[1..], acks := ch.acks + [ch.sq[0]]))
  {
    CollectSnoc(ch.acks, ch.sq[0], WorkBlock);
    assert SendBlocks(ch.(sq := ch.sq[1..], acks := ch.acks + [ch.sq[0]])) == SendBlocks(ch);
  }

  /** The k-th message (counting from 0) lands in block k modulo the ring size. */
  lemma ArrivalKeepsReceiver(ch: Channel, ch': Channel, tag: Message)
    requires Rings(ch) && ch.receives != []
    requires ch' == ch.(receives := ch.receives[1..], arrived := ch.arrived + 1,
                        cq := ch.cq + [RecvDone(tag, ch.receives[0])], recvMem := ch'.recvMem)
    requires |ch'.recvMem| == |ch.recvMem|
    ensures ch.receives[0] == ch.arrived % ch.Blocks()
    ensures Rings(ch')
  {
    var e := RecvDone(tag, ch.receives[0]);
    CollectSnoc(ch.cq, e, SentBlock);
    CollectSnoc(ch.cq, e, RecvBlock);
    assert Collect(ch.cq, SentBlock) + [] == Collect(ch.cq, SentBlock);
    assert SendBlocks(ch') == SendBlocks(ch);
    assert RecvBlocks(ch') == RecvBlocks(ch);
    assert WindowBlocks(ch.recvRing)[|Collect(ch.cq, RecvBlock)|] == ch.receives[0];
  }

  // ----- who has asked, who has answered -----

  function MessageOut(w: Work): seq<Message> {
    if w.SendWork? then [w.tag] else []
  }

  function MessageIn(e: Event): seq<Message> {
    if e.RecvDone? then [e.tag] else []
  }

  function WriteOut(w: Work): seq<()> {
    if w.WriteWork? then [()] else []
  }

  function WriteBack(e: Event): seq<()> {
    if e.WriteDone? then [()] else []
  }

  function SendBack(e: Event): seq<()> {
    if e.SendDone? then [()] else []
  }

  /** Numbers of requests, by kind: SENDs and WRITEs between post and handler, messages
      not executed yet, messages arrived but not handled. */
  datatype Tally = Tally(sends: nat, writes: nat, out: nat, arrived: nat)

  function TallyOf(ch: Channel): Tally {
    Tally(|Collect(ch.sq, MessageOut)| + |Collect(ch.acks, MessageOut)| + |Collect(ch.cq, SendBack)|,
          |Collect(ch.sq, WriteOut)| + |Collect(ch.acks, WriteOut)| + |Collect(ch.cq, WriteBack)|,
          |Collect(ch.sq, MessageOut)|, |Collect(ch.cq, MessageIn)|)
  }

  predicate Asking(sq: seq<Work>, cq: seq<Event>, tag: Message) {
    && (forall i | 0 <= i < |sq| :: sq[i].SendWork? ==> sq[i].tag == tag)
    && (forall i | 0 <= i < |cq| :: cq[i].RecvDone? ==> cq[i].tag == tag)
  }

  /** Every SEND still to be executed finds `d` in its block. */
  predicate Carrying(sq: seq<Work>, mem: seq<Option<Descriptor>>, d: Descriptor) {
    forall i | 0 <= i < |sq| :: sq[i].SendWork? ==> sq[i].block < |mem| && mem[sq[i].block] == Some(d)
  }

  /** Every message not handled yet has left `d` in its block. */
  predicate Holding(cq: seq<Event>, mem: seq<Option<Descriptor>>, d: Descriptor) {
    forall i | 0 <= i < |cq| :: cq[i].RecvDone? ==> cq[i].block < |mem| && mem[cq[i].block] == Some(d)
  }

  predicate Aiming(sq: seq<Work>, d: Descriptor) {
    forall i | 0 <= i < |sq| :: sq[i].WriteWork? ==> sq[i].target == d
  }

  /** One request, then one response, then a full window of WRITEs for ever. */
  predicate Progress(client: Tally, server: Tally, known: bool, blocks: nat) {
    && client.sends <= 1 && server.sends + client.out + server.arrived <= 1
    && client.out + server.arrived + server.out + client.arrived + (if known then 1 else 0) == 1
    && client.writes == (if known then blocks - 1 else 0)
    && server.writes == 0
  }

  predicate Counted(c: Channel, s: Channel) {
    && Progress(TallyOf(c), TallyOf(s), c.peer.Some?, c.Blocks())
    && c.rqInflight == (if c.peer.Some? then c.Blocks() - 1 else c.Blocks())
    && s.rqInflight == s.Blocks()
  }

  predicate Contents(c: Channel, s: Channel) {
    && Asking(c.sq, s.cq, RequestBuffer) && Asking(s.sq, c.cq, ResponseToRequestBuffer)
    && Carrying(s.sq, s.sendMem, s.own) && Holding(c.cq, c.recvMem, s.own) && Aiming(c.sq, s.own)
    && (c.peer.Some? ==> c.peer == Some(s.own)) && s.own.length >= BLOCK_SIZE
  }

  predicate Exchange(c: Channel, s: Channel) {
    Counted(c, s) && Contents(c, s)
  }

  predicate Inv(p: Pair) {
    Rings(p.client) && Rings(p.server) && Exchange(p.client, p.server)
  }

  lemma {:induction false} WorkSplit(sq: seq<Work>)
    ensures |Collect(sq, WorkBlock)| == |Collect(sq, MessageOut)| + |Collect(sq, WriteOut)|
  {
    if sq != [] {
      WorkSplit(sq[1..]);
    }
  }

  lemma {:induction false} EventSplit(cq: seq<Event>)
    ensures |Collect(cq, SentBlock)| == |Collect(cq, SendBack)| + |Collect(cq, WriteBack)|
    ensures |Collect(cq, RecvBlock)| == |Collect(cq, MessageIn)|
  {
    if cq != [] {
      EventSplit(cq[1..]);
    }
  }

  /** The window holds the SENDs and the WRITEs. */
  lemma InflightSplit(ch: Channel)
    requires Rings(ch)
    ensures ch.sqInflight == TallyOf(ch).sends + TallyOf(ch).writes
  {
    WorkSplit(ch.sq);
    WorkSplit(ch.acks);
    EventSplit(ch.cq);
  }

  lemma {:induction false} PushWork(s: seq<Work>, w: Work)
    ensures Collect(s + [w], MessageOut) == Collect(s, MessageOut) + MessageOut(w)
    ensures Collect(s + [w], WriteOut) == Collect(s, WriteOut) + WriteOut(w)
  {
    CollectSnoc(s, w, MessageOut);
    CollectSnoc(s, w, WriteOut);
  }

  lemma {:induction false} PushEvent(s: seq<Event>, e: Event)
    ensures Collect(s + [e], MessageIn) == Collect(s, MessageIn) + MessageIn(e)
    ensures Collect(s + [e], WriteBack) == Collect(s, WriteBack) + WriteBack(e)
    ensures Collect(s + [e], SendBack) == Collect(s, SendBack) + SendBack(e)
  {
    CollectSnoc(s, e, MessageIn);
    CollectSnoc(s, e, WriteBack);
    CollectSnoc(s, e, SendBack);
  }

  // ----- adapter steps -----

  lemma CompleteTally(ch: Channel)
    requires ch.acks != []
    ensures TallyOf(Complete(ch)) == TallyOf(ch)
  {
    PushEvent(ch.cq, Completed(ch.acks[0]));
  }

  /** A send-queue completion is no message. */
  lemma CompleteMessages(sq: seq<Work>, cq: seq<Event>, w: Work, tag: Message,
                         mem: seq<Option<Descriptor>>, d: Descriptor)
    ensures Asking(sq, cq, tag) ==> Asking(sq, cq + [Completed(w)], tag)
    ensures Holding(cq, mem, d) ==> Holding(cq + [Completed(w)], mem, d)
  {
  }

  lemma ClientCompletesExchange(c: Channel, s: Channel)
    requires Exchange(c, s) && c.acks != []
    ensures Exchange(Complete(c), s)
  {
    CompleteTally(c);
    CompleteMessages(s.sq, c.cq, c.acks[0], ResponseToRequestBuffer, c.recvMem, s.own);
  }

  lemma ServerCompletesExchange(c: Channel, s: Channel)
    requires Exchange(c, s) && s.acks != []
    ensures Exchange(c, Complete(s))
  {
    CompleteTally(s);
    CompleteMessages(c.sq, s.cq, s.acks[0], RequestBuffer, c.recvMem, s.own);
  }

  lemma ExecuteSendTally(from: Channel, to: Channel)
    requires CanExecute(from, to) && from.sq[0].SendWork?
    ensures var (from', to') := Execute(from, to).value; var t, u := TallyOf(from), TallyOf(to);
      && t.out > 0
      && TallyOf(from') == t.(out := t.out - 1)
      && TallyOf(to') == u.(arrived := u.arrived + 1)
  {
    PushWork(from.acks, from.sq[0]);
    PushEvent(to.cq, RecvDone(from.sq[0].tag, to.receives[0]));
  }

  lemma ExecuteWriteTally(from: Channel)
    requires from.sq != [] && from.sq[0].WriteWork?
    ensures TallyOf(from.(sq := from.sq[1..], acks := from.acks + [from.sq[0]])) == TallyOf(from)
  {
    PushWork(from.acks, from.sq[0]);
  }

  lemma RequestExecutes(c: Channel, s: Channel)
    requires Counted(c, s) && CanExecute(c, s) && c.sq[0].SendWork?
    ensures var (c', s') := Execute(c, s).value; Counted(c', s')
  {
    ExecuteSendTally(c, s);
  }

  lemma WriteExecutes(c: Channel, s: Channel)
    requires Counted(c, s) && CanExecute(c, s) && c.sq[0].WriteWork?
    ensures Counted(c.(sq := c.sq[1..], acks := c.acks + [c.sq[0]]), s.(sendMem := Overwritten(s.sendMem)))
  {
    ExecuteWriteTally(c);
    assert TallyOf(s.(sendMem := Overwritten(s.sendMem))) == TallyOf(s);
  }

  lemma ClientExecutesCounted(c: Channel, s: Channel)
    requires Counted(c, s) && CanExecute(c, s) && Execute(c, s).Ok?
    ensures var (c', s') := Execute(c, s).value; Counted(c', s')
  {
    if c.sq[0].SendWork? {
      RequestExecutes(c, s);
    } else {
      WriteExecutes(c, s);
    }
  }

  /** While a WRITE is pending the server has nothing to send any more. */
  lemma WriteMeansAnswered(c: Channel, s: Channel)
    requires Counted(c, s) && c.sq != [] && c.sq[0].WriteWork?
    ensures c.peer.Some? && s.sq == []
  {
    CollectMember(c.sq, 0, WriteOut);
    NothingElseSent(s);
    if s.sq != [] {
      CollectMember(s.sq, 0, WriteOut);
    }
  }

  /** The client's REQUEST arrives, or one of its WRITEs executes; what that overwrites has been sent. */
  lemma ClientExecutesContents(c: Channel, s: Channel)
    requires Exchange(c, s) && CanExecute(c, s)
    ensures Execute(c, s).Ok? && var (c', s') := Execute(c, s).value; Contents(c', s')
  {
    if c.sq[0].WriteWork? {
      WriteMeansAnswered(c, s);
    }
  }

  lemma ServerOnlySends(c: Channel, s: Channel)
    requires Exchange(c, s) && s.sq != []
    ensures s.sq[0].SendWork?
  {
    CollectMember(s.sq, 0, WriteOut);
  }

  /** A message with `d` arrives in block `b` of a buffer where no other message waits. */
  lemma ArrivalHolds(cq: seq<Event>, mem: seq<Option<Descriptor>>, b: nat, tag: Message, d: Descriptor)
    requires b < |mem| && forall i | 0 <= i < |cq| :: !cq[i].RecvDone?
    ensures Holding(cq + [RecvDone(tag, b)], mem[b := Some(d)], d)
  {
  }

  lemma TailMessages(sq: seq<Work>, cq: seq<Event>, tag: Message, mem: seq<Option<Descriptor>>, d: Descriptor, b: nat)
    requires sq != [] && sq[0].SendWork?
    ensures Asking(sq, cq, tag) ==> Asking(sq[1..], cq + [RecvDone(sq[0].tag, b)], tag)
    ensures Carrying(sq, mem, d) ==> Carrying(sq[1..], mem, d)
    ensures Aiming(sq, d) ==> Aiming(sq[1..], d)
  {
  }

  lemma ServerExecutesCounted(c: Channel, s: Channel)
    requires Counted(c, s) && CanExecute(s, c) && s.sq[0].SendWork?
    ensures var (s', c') := Execute(s, c).value; Counted(c', s')
    ensures TallyOf(c).arrived == 0
  {
    ExecuteSendTally(s, c);
  }

  /** The server's RESPONSE arrives. */
  lemma ServerExecutesContents(c: Channel, s: Channel)
    requires Contents(c, s) && CanExecute(s, c) && s.sq[0].SendWork?
    requires forall i | 0 <= i < |c.cq| :: !c.cq[i].RecvDone?
    ensures var (s', c') := Execute(s, c).value; Contents(c', s')
  {
    var b := c.receives[0];
    ArrivalHolds(c.cq, c.recvMem, b, s.sq[0].tag, s.own);
    TailMessages(s.sq, c.cq, ResponseToRequestBuffer, s.sendMem, s.own, b);
    assert s.sendMem[s.sq[0].block] == Some(s.own);
  }

  lemma ClientExecutesKeeps(p: Pair)
    requires Inv(p) && CanExecute(p.client, p.server)
    ensures Execute(p.client, p.server).Ok?
    ensures var (c', s') := Execute(p.client, p.server).value; Inv(Pair(c', s'))
  {
    ClientExecutesContents(p.client, p.server);
    ClientExecutesCounted(p.client, p.server);
    ExecuteKeepsRings(p.client, p.server);
  }

  lemma ServerExecutesKeeps(p: Pair)
    requires Inv(p) && CanExecute(p.server, p.client)
    ensures Execute(p.server, p.client).Ok?
    ensures var (s', c') := Execute(p.server, p.client).value; Inv(Pair(c', s'))
  {
    ServerOnlySends(p.client, p.server);
    ServerExecutesCounted(p.client, p.server);
    NothingElseArrived(p.client);
    ServerExecutesContents(p.client, p.server);
    ExecuteKeepsRings(p.server, p.client);
  }

  lemma NothingElseArrived(c: Channel)
    ensures TallyOf(c).arrived == 0 ==> forall i | 0 <= i < |c.cq| :: !c.cq[i].RecvDone?
  {
    if TallyOf(c).arrived == 0 {
      CollectEmpty(c.cq, MessageIn);
      forall i | 0 <= i < |c.cq| ensures !c.cq[i].RecvDone? {
        assert MessageIn(c.cq[i]) == [];
      }
    }
  }

  lemma ExecuteKeepsRings(from: Channel, to: Channel)
    requires Rings(from) && Rings(to) && CanExecute(from, to) && Execute(from, to).Ok?
    ensures var (from', to') := Execute(from, to).value; Rings(from') && Rings(to')
  {
    ExecuteKeepsSender(from);
    var (from', to') := Execute(from, to).value;
    if from.sq[0].SendWork? {
      ArrivalKeepsReceiver(to, to', from.sq[0].tag);
    }
  }

  // ----- handlers -----

  lemma WriteKeeps(ch: Channel)
    requires Rings(ch) && ch.peer.Some? && ch.peer.value.length >= BLOCK_SIZE && ch.sqInflight < ch.Blocks()
    ensures PostWrite(ch).Ok?
    ensures var r := PostWrite(ch).value;
      Rings(r) && r.sqInflight == ch.sqInflight + 1 && r.peer == ch.peer && r.Blocks() == ch.Blocks()
  {
    PostKeepsFifo(ch, WriteWork(ch.peer.value, NextBlock(ch.sendRing)));
  }

  lemma NextOfBurst(ch: Channel, k: nat)
    requires ch.WellFormed() && k > 0
    ensures PostWrites(ch, k).Ok? ==> PostWrites(ch, k - 1).Ok?
    ensures PostWrites(ch, k - 1).Ok? ==> PostWrites(ch, k) == PostWrite(PostWrites(ch, k - 1).value)
  {
  }

  /** `r` is `ch` after `k` more WRITEs, its rings still in order. */
  predicate Filled(ch: Channel, r: Channel, k: nat) {
    Rings(r) && r.sqInflight == ch.sqInflight + k && r.peer == ch.peer && r.Blocks() == ch.Blocks()
  }

  lemma FilledOnce(ch: Channel, r: Channel, k: nat)
    requires Filled(ch, r, k) && r.peer.Some? && r.peer.value.length >= BLOCK_SIZE && r.sqInflight < r.Blocks()
    ensures PostWrite(r).Ok? && Filled(ch, PostWrite(r).value, k + 1)
  {
    WriteKeeps(r);
  }

  /** A burst finds room, block by block. */
  lemma {:induction false} BurstKeeps(ch: Channel, k: nat)
    requires Rings(ch) && ch.peer.Some? && ch.peer.value.length >= BLOCK_SIZE && ch.sqInflight + k <= ch.Blocks()
    ensures PostWrites(ch, k).Ok? && Filled(ch, PostWrites(ch, k).value, k)
  {
    if k > 0 {
      BurstKeeps(ch, k - 1);
      NextOfBurst(ch, k);
      FilledOnce(ch, PostWrites(ch, k - 1).value, k - 1);
    }
  }

  /** A burst is nothing but WRITEs aimed at the peer. */
  lemma {:induction false} BurstExchange(ch: Channel, k: nat, tag: Message, cq: seq<Event>)
    requires ch.WellFormed() && ch.peer.Some? && PostWrites(ch, k).Ok?
    requires Asking(ch.sq, cq, tag) && Aiming(ch.sq, ch.peer.value)
    ensures var r := PostWrites(ch, k).value; var t := TallyOf(ch);
      && TallyOf(r) == t.(writes := t.writes + k)
      && Asking(r.sq, cq, tag) && Aiming(r.sq, ch.peer.value)
      && r.peer == ch.peer
  {
    if k > 0 {
      NextOfBurst(ch, k);
      BurstExchange(ch, k - 1, tag, cq);
      var next := PostWrites(ch, k - 1).value;
      PushWork(next.sq, WriteWork(ch.peer.value, NextBlock(next.sendRing)));
    }
  }

  lemma PopTally(ch: Channel)
    requires ch.cq != []
    ensures var t, e := TallyOf(ch), ch.cq[0];
      && (e.SendDone? ==> t.sends > 0) && (e.WriteDone? ==> t.writes > 0) && (e.RecvDone? ==> t.arrived > 0)
      && TallyOf(ch.(cq := ch.cq[1..]))
         == t.(sends := if e.SendDone? then t.sends - 1 else t.sends,
               writes := if e.WriteDone? then t.writes - 1 else t.writes,
               arrived := if e.RecvDone? then t.arrived - 1 else t.arrived)
  {
  }

  lemma PopMessages(sq: seq<Work>, cq: seq<Event>, tag: Message, mem: seq<Option<Descriptor>>, d: Descriptor)
    requires cq != []
    ensures Asking(sq, cq, tag) ==> Asking(sq, cq[1..], tag)
    ensures Holding(cq, mem, d) ==> Holding(cq[1..], mem, d)
  {
  }

  lemma ClientSendCounted(c: Channel, s: Channel)
    requires Counted(c, s) && c.WellFormed() && c.cq != [] && c.cq[0].SendDone? && ClientHandle(c).Ok?
    ensures Counted(ClientHandle(c).value, s)
  {
    PopTally(c);
  }

  lemma ClientSendContents(c: Channel, s: Channel)
    requires Contents(c, s) && c.WellFormed() && c.cq != [] && c.cq[0].SendDone? && ClientHandle(c).Ok?
    ensures Contents(ClientHandle(c).value, s)
  {
    PopMessages(s.sq, c.cq, ResponseToRequestBuffer, c.recvMem, s.own);
  }

  lemma ClientSendDone(p: Pair)
    requires Inv(p) && p.client.cq != [] && p.client.cq[0].SendDone?
    ensures var r := ClientHandle(p.client); r.Ok? && Inv(p.(client := r.value))
  {
    CountOffKeepsFifo(p.client);
    ClientSendCounted(p.client, p.server);
    ClientSendContents(p.client, p.server);
  }

  lemma ServerSendCounted(c: Channel, s: Channel)
    requires Counted(c, s) && s.WellFormed() && s.cq != [] && s.cq[0].SendDone? && ServerHandle(s).Ok?
    ensures Counted(c, ServerHandle(s).value)
  {
    PopTally(s);
  }

  lemma ServerSendContents(c: Channel, s: Channel)
    requires Contents(c, s) && s.WellFormed() && s.cq != [] && s.cq[0].SendDone? && ServerHandle(s).Ok?
    ensures Contents(c, ServerHandle(s).value)
  {
    PopMessages(c.sq, s.cq, RequestBuffer, c.recvMem, s.own);
  }

  lemma ServerSendDone(p: Pair)
    requires Inv(p) && p.server.cq != [] && p.server.cq[0].SendDone?
    ensures var r := ServerHandle(p.server); r.Ok? && Inv(p.(server := r.value))
  {
    CountOffKeepsFifo(p.server);
    ServerSendCounted(p.client, p.server);
    ServerSendContents(p.client, p.server);
  }

  lemma ServerNoWrites(p: Pair)
    requires Inv(p) && p.server.cq != []
    ensures !p.server.cq[0].WriteDone?
  {
    PopTally(p.server);
  }

  lemma WriteTally(ch: Channel)
    requires ch.WellFormed() && PostWrite(ch).Ok?
    ensures var t := TallyOf(ch); TallyOf(PostWrite(ch).value) == t.(writes := t.writes + 1)
  {
    PushWork(ch.sq, WriteWork(ch.peer.value, NextBlock(ch.sendRing)));
  }

  lemma ClientWriteRings(c: Channel)
    requires Rings(c) && c.cq != [] && c.cq[0].WriteDone?
    requires c.peer.Some? && c.peer.value.length >= BLOCK_SIZE
    ensures var r := ClientHandle(c); r.Ok? && Rings(r.value)
  {
    CountOffKeepsFifo(c);
    CompletedBlock(c);
    WriteKeeps(CountOff(c.(cq := c.cq[1..])).value);
  }

  lemma ClientWriteCounted(c: Channel, s: Channel)
    requires Counted(c, s) && c.WellFormed() && c.cq != [] && c.cq[0].WriteDone? && ClientHandle(c).Ok?
    ensures Counted(ClientHandle(c).value, s)
  {
    PopTally(c);
    WriteTally(CountOff(c.(cq := c.cq[1..])).value);
  }

  lemma ClientWriteContents(c: Channel, s: Channel)
    requires Contents(c, s) && c.WellFormed() && c.cq != [] && c.cq[0].WriteDone? && ClientHandle(c).Ok?
    ensures Contents(ClientHandle(c).value, s)
  {
    PopMessages(s.sq, c.cq, ResponseToRequestBuffer, c.recvMem, s.own);
  }

  /** A WRITE has completed: its block goes back, the next one goes out. */
  lemma ClientWriteDone(p: Pair)
    requires Inv(p) && p.client.cq != [] && p.client.cq[0].WriteDone?
    ensures var r := ClientHandle(p.client); r.Ok? && Inv(p.(client := r.value))
  {
    PopTally(p.client);
    ClientWriteRings(p.client);
    ClientWriteCounted(p.client, p.server);
    ClientWriteContents(p.client, p.server);
  }

  /** The client after it has copied the descriptor and before it bursts. */
  function Informed(c: Channel, d: Descriptor): Channel
    requires c.WellFormed() && c.cq != []
  {
    c.(cq := c.cq[1..], rqInflight := c.rqInflight - 1, recvRing := Advance(Retire(c.recvRing)), peer := Some(d))
  }

  /** The block the client copies from is the one the response was received into. */
  lemma ClientCopies(c: Channel, d: Descriptor)
    requires Rings(c) && c.cq != [] && c.cq[0].RecvDone? && c.cq[0].tag == ResponseToRequestBuffer
    requires c.cq[0].block < |c.recvMem| && c.recvMem[c.cq[0].block] == Some(d)
    ensures ClientHandle(c) == PostWrites(Informed(c, d), c.Blocks() - 1)
  {
    MessageBlock(c);
    CopyValue(c, d);
  }

  lemma CopyValue(c: Channel, d: Descriptor)
    requires c.WellFormed() && c.cq != [] && c.cq[0].RecvDone? && c.cq[0].tag == ResponseToRequestBuffer
    requires c.recvRing.inUse[LastBlock(c.recvRing)]
    requires var ring := Retire(c.recvRing); !ring.inUse[NextBlock(ring)] && c.recvMem[NextBlock(ring)] == Some(d)
    ensures ClientHandle(c) == PostWrites(Informed(c, d), c.Blocks() - 1)
  {
  }

  lemma InformedRings(c: Channel, d: Descriptor)
    requires Rings(c) && c.cq != [] && c.cq[0].RecvDone?
    ensures Rings(Informed(c, d))
  {
    TurnKeepsFifo(c, Informed(c, d), []);
  }

  /** At most the client's own REQUEST is in flight when its burst begins. */
  lemma ResponseFound(c: Channel, s: Channel)
    requires Rings(c) && Exchange(c, s) && c.cq != [] && c.cq[0].RecvDone?
    ensures c.peer == None && c.sqInflight <= 1
    ensures c.cq[0].tag == ResponseToRequestBuffer
    ensures c.cq[0].block < |c.recvMem| && c.recvMem[c.cq[0].block] == Some(s.own)
  {
    PopTally(c);
    InflightSplit(c);
  }

  /** `r` is the client after its burst. */
  predicate Burst(c: Channel, r: Channel, d: Descriptor) {
    && c.cq != [] && r.Blocks() == c.Blocks()
    && r == c.(cq := c.cq[1..], rqInflight := c.rqInflight - 1, recvRing := r.recvRing, peer := Some(d),
               sq := r.sq, sendRing := r.sendRing, sqInflight := r.sqInflight)
  }

  lemma ResponseCounted(c: Channel, s: Channel, r: Channel)
    requires Counted(c, s) && c.cq != [] && c.cq[0].RecvDone? && c.peer == None && c.Blocks() > 0
    requires Burst(c, r, s.own)
    requires var t := TallyOf(c); TallyOf(r) == t.(arrived := t.arrived - 1, writes := t.writes + (c.Blocks() - 1))
    ensures Counted(r, s)
  {
    PopTally(c);
  }

  lemma ResponseContents(c: Channel, s: Channel, r: Channel)
    requires Contents(c, s) && c.cq != [] && Burst(c, r, s.own)
    requires Asking(r.sq, s.cq, RequestBuffer) && Aiming(r.sq, s.own)
    ensures Contents(r, s)
  {
    PopMessages(s.sq, c.cq, ResponseToRequestBuffer, c.recvMem, s.own);
  }

  lemma InformedTally(c: Channel, d: Descriptor)
    requires c.WellFormed() && c.cq != [] && c.cq[0].RecvDone?
    ensures var t := TallyOf(c); t.arrived > 0 && TallyOf(Informed(c, d)) == t.(arrived := t.arrived - 1)
  {
    PopTally(c);
  }

  lemma BurstShape(c: Channel, d: Descriptor, r: Channel)
    requires c.WellFormed() && c.cq != [] && PostWrites(Informed(c, d), c.Blocks() - 1) == Ok(r)
    requires Aiming(c.sq, d)
    ensures Burst(c, r, d)
  {
    BurstFrame(Informed(c, d), c.Blocks() - 1);
  }

  lemma BurstTally(c: Channel, d: Descriptor, cq: seq<Event>, r: Channel)
    requires c.WellFormed() && c.cq != [] && c.cq[0].RecvDone?
    requires PostWrites(Informed(c, d), c.Blocks() - 1) == Ok(r)
    requires Asking(c.sq, cq, RequestBuffer) && Aiming(c.sq, d)
    ensures Asking(r.sq, cq, RequestBuffer) && Aiming(r.sq, d)
    ensures var t := TallyOf(c);
      t.arrived > 0 && TallyOf(r) == t.(arrived := t.arrived - 1, writes := t.writes + (c.Blocks() - 1))
  {
    InformedTally(c, d);
    BurstExchange(Informed(c, d), c.Blocks() - 1, RequestBuffer, cq);
  }

  lemma NoTargets(c: Channel, s: Channel)
    requires Contents(c, s)
    ensures Asking(c.sq, s.cq, RequestBuffer) && Aiming(c.sq, s.own)
  {
  }

  lemma ResponseExchange(c: Channel, s: Channel, r: Channel)
    requires Exchange(c, s) && c.WellFormed() && c.cq != [] && c.cq[0].RecvDone? && c.peer == None
    requires PostWrites(Informed(c, s.own), c.Blocks() - 1) == Ok(r)
    ensures Exchange(r, s)
  {
    NoTargets(c, s);
    BurstShape(c, s.own, r);
    BurstTally(c, s.own, s.cq, r);
    ResponseCounted(c, s, r);
    ResponseContents(c, s, r);
  }

  lemma ClientResponse(p: Pair)
    requires Inv(p) && p.client.cq != [] && p.client.cq[0].RecvDone?
    ensures var r := ClientHandle(p.client); r.Ok? && Inv(p.(client := r.value))
  {
    var c, s := p.client, p.server;
    ResponseFound(c, s);
    ClientCopies(c, s.own);
    InformedRings(c, s.own);
    BurstKeeps(Informed(c, s.own), c.Blocks() - 1);
    ResponseExchange(c, s, PostWrites(Informed(c, s.own), c.Blocks() - 1).value);
  }

  lemma {:induction false} BurstFrame(ch: Channel, k: nat)
    requires ch.WellFormed() && PostWrites(ch, k).Ok?
    ensures var r := PostWrites(ch, k).value;
      && r.Blocks() == ch.Blocks()
      && r == ch.(sq := r.sq, sendRing := r.sendRing, sqInflight := r.sqInflight)
  {
    if k > 0 {
      NextOfBurst(ch, k);
      BurstFrame(ch, k - 1);
    }
  }

  /** The server after it has turned its receive ring and filled the block of its answer. */
  function Answering(s: Channel): Channel
    requires s.WellFormed() && s.cq != []
  {
    s.(cq := s.cq[1..], recvRing := Advance(Retire(s.recvRing)), receives := s.receives + [LastBlock(s.recvRing)],
       sendMem := s.sendMem[NextBlock(s.sendRing) := Some(s.own)])
  }

  /** The block the server posts again is the one it has just read. */
  lemma ServerReposts(s: Channel)
    requires Rings(s) && s.cq != [] && s.cq[0] == RecvDone(RequestBuffer, s.cq[0].block)
    requires s.sqInflight < s.Blocks()
    ensures s.cq[0].block == LastBlock(s.recvRing)
    ensures ServerHandle(s) == PostSend(Answering(s), ResponseToRequestBuffer)
  {
    MessageBlock(s);
    RoomToSend(s);
    RepostValue(s);
  }

  lemma RoomToSend(s: Channel)
    requires Rings(s) && s.sqInflight < s.Blocks()
    ensures !s.sendRing.inUse[NextBlock(s.sendRing)]
  {
    AdvanceWindow(s.sendRing);
  }

  lemma RepostValue(s: Channel)
    requires s.WellFormed() && s.cq != [] && s.cq[0] == RecvDone(RequestBuffer, s.cq[0].block)
    requires s.recvRing.inUse[LastBlock(s.recvRing)] && !s.sendRing.inUse[NextBlock(s.sendRing)]
    requires var ring := Retire(s.recvRing); !ring.inUse[NextBlock(ring)] && NextBlock(ring) == LastBlock(s.recvRing)
    ensures ServerHandle(s) == PostSend(Answering(s), ResponseToRequestBuffer)
  {
    var ring := Retire(s.recvRing);
    var c1 := s.(cq := s.cq[1..], recvRing := ring, rqInflight := s.rqInflight - 1,
                 sendMem := s.sendMem[NextBlock(s.sendRing) := Some(s.own)]);
    var c2 := c1.(sendRing := Advance(c1.sendRing), sqInflight := c1.sqInflight + 1,
                  sq := c1.sq + [SendWork(ResponseToRequestBuffer, NextBlock(c1.sendRing))]);
    assert PostSend(c1, ResponseToRequestBuffer) == Ok(c2);
  }

  lemma AnsweringRings(s: Channel)
    requires Rings(s) && s.cq != [] && s.cq[0].RecvDone? && s.rqInflight == s.Blocks()
    ensures Rings(Answering(s))
  {
    TurnKeepsFifo(s, Answering(s), [LastBlock(s.recvRing)]);
  }

  lemma AnswerTally(s: Channel)
    requires s.WellFormed() && s.cq != [] && s.cq[0].RecvDone? && PostSend(Answering(s), ResponseToRequestBuffer).Ok?
    ensures var t := TallyOf(s);
      TallyOf(PostSend(Answering(s), ResponseToRequestBuffer).value)
      == t.(arrived := t.arrived - 1, sends := t.sends + 1, out := t.out + 1)
  {
    PushWork(s.sq, SendWork(ResponseToRequestBuffer, NextBlock(s.sendRing)));
  }

  lemma ServerRequest(p: Pair)
    requires Inv(p) && p.server.cq != [] && p.server.cq[0].RecvDone?
    ensures var r := ServerHandle(p.server); r.Ok? && Inv(p.(server := r.value))
  {
    var c, s := p.client, p.server;
    RequestFound(c, s);
    ServerReposts(s);
    AnsweringRings(s);
    PostKeepsFifo(Answering(s), SendWork(ResponseToRequestBuffer, NextBlock(s.sendRing)));
    AnswerCounted(c, s);
    AnswerContents(c, s);
  }

  /** Nothing else is in flight on the server's side when the request is handled. */
  lemma RequestFound(c: Channel, s: Channel)
    requires Rings(s) && Exchange(c, s) && s.cq != [] && s.cq[0].RecvDone?
    ensures s.cq[0].tag == RequestBuffer && s.rqInflight == s.Blocks() && s.sqInflight == 0 && TallyOf(s).out == 0
  {
    PopTally(s);
    InflightSplit(s);
  }

  lemma AnswerCounted(c: Channel, s: Channel)
    requires Counted(c, s) && s.WellFormed() && s.cq != [] && s.cq[0].RecvDone?
    requires PostSend(Answering(s), ResponseToRequestBuffer).Ok?
    ensures Counted(c, PostSend(Answering(s), ResponseToRequestBuffer).value)
  {
    PopTally(s);
    AnswerTally(s);
  }

  lemma NothingElseSent(s: Channel)
    requires TallyOf(s).out == 0
    ensures forall i | 0 <= i < |s.sq| :: !s.sq[i].SendWork?
  {
    CollectEmpty(s.sq, MessageOut);
    forall i | 0 <= i < |s.sq| ensures !s.sq[i].SendWork? {
      assert MessageOut(s.sq[i]) == [];
    }
  }

  lemma AnswerContents(c: Channel, s: Channel)
    requires Contents(c, s) && s.WellFormed() && s.cq != [] && s.cq[0].RecvDone? && TallyOf(s).out == 0
    requires PostSend(Answering(s), ResponseToRequestBuffer).Ok?
    ensures Contents(c, PostSend(Answering(s), ResponseToRequestBuffer).value)
  {
    NothingElseSent(s);
    PopMessages(c.sq, s.cq, RequestBuffer, c.recvMem, s.own);
  }
}
