/** The two programs of the benchmark stay aligned in every run. */
module LatBwTheorems {
  import opened Wrappers
  import opened LatBwBenchmark

  // ----- what each side has done by the time it is where it is -----

  /** Message `k` of the client, not the first or the last, belongs to round `RoundOf(k)` and is
      its request if `IndexOf(k) == 0`. */
  function RoundOf(k: nat): nat {
    (k + 1000) / 1001
  }

  function IndexOf(k: nat): nat {
    (k + 1000) % 1001
  }

  /** The client's messages in order: the request, per round a request and 1000 raw messages, BYEBYE. */
  function ClientMessage(k: nat): Packet {
    if k == 0 then Packet(RequestBuffer, 2)
    else if k > 1001 * ROUNDS then Packet(ByeBye, 64)
    else if IndexOf(k) == 0 then Packet(SendTestRequest, 2)
    else Packet(RawData, Size(RoundOf(k)))
  }

  function ServerMessage(k: nat): Packet {
    Reply(k)
  }

  /** The lengths of the receives in the order they are posted. */
  function ServerReceive(k: nat): nat {
    if k != 0 && IndexOf(k) == 0 then 64 else MB8
  }

  function ClientReceive(k: nat): nat {
    if k == 0 then MB8 else 64
  }

  /** SENDs posted, SEND completions handled, receives posted, messages handled. */
  datatype Tally = Tally(posted: int, acked: int, receives: int, handled: int)

  function ClientTally(pc: ClientPc): Tally {
    match pc
    case CStart => Tally(0, 0, 1, 0)
    case CAwait(p, sent, got) =>
      var n := if p == 0 then 0 else 1001 * p - 1000;
      Tally(n + 1, n + (if sent then 1 else 0), p + 1, p + (if got then 1 else 0))
    case CBegin(p) => Tally(1001 * p - 1000, 1001 * p - 1000, p, p)
    case CPost(p, i) => Tally(1001 * p - 999 + i, 1001 * p - 999 + i, p + 1, p + 1)
    case CPoll(p, i) => Tally(1001 * p - 998 + i, 1001 * p - 999 + i, p + 1, p + 1)
    case CQuiet => Tally(24025, 24025, 25, 25)
    case CEnd => Tally(24026, 24025, 25, 25)
  }

  function ServerTally(pc: ServerPc): Tally {
    match pc
    case SPrepare(p) => Tally(p, p, 1001 * p - 1000, 1001 * p - 1000)
    case SAwait(p) => if p == 0 then Tally(0, 0, 1, 0) else Tally(p, p, 1001 * p - 999, 1001 * p - 1000)
    case SFill(p, j) => Tally(p, p, 1001 * p - 999 + j, 1001 * p - 999)
    case SReply(p) => if p == 0 then Tally(0, 0, 1, 1) else Tally(p, p, 1001 * p + 1, 1001 * p - 999)
    case SAcked(p) => if p == 0 then Tally(1, 0, 1, 1) else Tally(p + 1, p, 1001 * p + 1, 1001 * p - 999)
    case SDrain(p, j) => Tally(p + 1, p + 1, 1001 * p + 1, 1001 * p - 999 + j)
    case SEnd => Tally(25, 25, 24026, 24026)
  }

  predicate ClientInRange(pc: ClientPc) {
    match pc
    case CAwait(p, sent, got) => p <= ROUNDS && !(sent && got)
    case CBegin(p) => 1 <= p <= ROUNDS
    case CPost(p, i) => 1 <= p <= ROUNDS && i < BLOCKS
    case CPoll(p, i) => 1 <= p <= ROUNDS && i < BLOCKS
    case _ => true
  }

  predicate ServerInRange(pc: ServerPc) {
    match pc
    case SPrepare(p) => 1 <= p <= ROUNDS + 1
    case SAwait(p) => p <= ROUNDS + 1
    case SFill(p, j) => 1 <= p <= ROUNDS && j < BLOCKS
    case SReply(p) => p <= ROUNDS
    case SAcked(p) => p <= ROUNDS
    case SDrain(p, j) => 1 <= p <= ROUNDS && j < BLOCKS
    case SEnd => true
  }

  // ----- the invariant -----

  function Between<T>(f: nat -> T, from: nat, end: nat): seq<T>
    decreases end - from
  {
    if from >= end then [] else [f(from)] + Between(f, from + 1, end)
  }

  function Acks(handled: int, done: int): seq<Event> {
    if handled < done then [SendDone] else []
  }

  function Arrival(f: nat -> Packet): nat -> Event {
    (k: nat) => RecvDone(f(k).tag)
  }

  /** A side at tally `t`, whose peer has had `into` messages delivered here: what is pending,
      completed and posted follows from the two counts. */
  predicate Settled(p: Port, t: Tally, into: nat, mine: nat -> Packet, theirs: nat -> Packet, receives: nat -> nat) {
    && 0 <= t.handled <= into <= t.receives && 0 <= t.acked <= p.out <= t.posted
    && t.posted <= p.out + 1 && p.out <= t.acked + 1
    && p.sq == Between(mine, p.out, t.posted)
    && p.cq == Acks(t.acked, p.out) + Between(Arrival(theirs), t.handled, into)
    && p.receives == Between(receives, into, t.receives)
  }

  /** Blocks of the ring in use at each place. */
  function ClientHeld(pc: ClientPc): int {
    if pc.CPoll? then 1 else 0
  }

  function ServerHeld(pc: ServerPc): int {
    match pc
    case SFill(_, j) => j
    case SReply(p) => if p == 0 then 0 else BLOCKS
    case SAcked(p) => if p == 0 then 0 else BLOCKS
    case SDrain(_, j) => BLOCKS - j
    case _ => 0
  }

  predicate Rings(st: State) {
    st.c.next - st.c.last == ClientHeld(st.cpc) && st.s.next - st.s.last == ServerHeld(st.spc)
  }

  predicate ClientAt(c: Port, t: Tally, into: nat) {
    Settled(c, t, into, ClientMessage, ServerMessage, ClientReceive)
  }

  predicate ServerAt(s: Port, t: Tally, into: nat) {
    Settled(s, t, into, ServerMessage, ClientMessage, ServerReceive)
  }

  predicate Inv(st: State) {
    && ClientInRange(st.cpc) && ServerInRange(st.spc) && Rings(st)
    && ClientAt(st.c, ClientTally(st.cpc), st.s.out) && ServerAt(st.s, ServerTally(st.spc), st.c.out)
  }

  // ----- sequences -----

  lemma {:induction false} BetweenSnoc<T>(f: nat -> T, from: nat, end: nat)
    requires from <= end
    ensures Between(f, from, end + 1) == Between(f, from, end) + [f(end)]
    decreases end - from
  {
    if from < end {
      BetweenSnoc(f, from + 1, end);
    }
  }

  lemma {:induction false} BetweenLength<T>(f: nat -> T, from: nat, end: nat)
    ensures |Between(f, from, end)| == (if from < end then end - from else 0)
    decreases end - from
  {
    if from < end {
      BetweenLength(f, from + 1, end);
    }
  }

  // ----- messages -----

  lemma {:induction false} SizeGrows(p: nat, q: nat)
    requires p <= q
    ensures Size(p) <= Size(q)
  {
    if p < q {
      SizeGrows(p, q - 1);
    }
  }

  /** The loop over the sizes 1, 2, 4, ... up to 8 MB makes 24 rounds. */
  lemma SizesFit(p: nat)
    ensures Size(1) == 1 && Size(p + 2) == 2 * Size(p + 1) && Size(24) == 8388608
    ensures Size(p) <= 8388608 <==> p <= 24
  {
    assert Size(6) == 32;
    assert Size(12) == 64 * Size(6);
    assert Size(18) == 64 * Size(12);
    assert Size(24) == 64 * Size(18);
    if p <= 24 {
      SizeGrows(p, 24);
    } else {
      SizeGrows(25, p);
    }
  }

  /** Every message fits the receive it will land in. */
  lemma MessagesFit(k: nat)
    requires k <= 1001 * ROUNDS + 1
    ensures ClientMessage(k).len <= ServerReceive(k)
    ensures ServerMessage(k).len <= ClientReceive(k) && (ServerMessage(k).len == if k == 0 then 64 else 0)
  {
    if 0 < k <= 1001 * ROUNDS {
      SizesFit(RoundOf(k));
    }
  }

  lemma Places(p: nat, r: nat)
    requires p >= 1 && r < 1001
    ensures RoundOf(1001 * p - 1000 + r) == p && IndexOf(1001 * p - 1000 + r) == r
  {
  }

  lemma RequestMessage(p: nat)
    requires 1 <= p <= ROUNDS + 1
    ensures p <= ROUNDS ==> ClientMessage(1001 * p - 1000) == Packet(SendTestRequest, 2)
    ensures ServerReceive(1001 * p - 1000) == 64
  {
    Places(p, 0);
  }

  lemma {:induction false} RawAt(k: nat, p: nat)
    requires 0 < k <= 1001 * ROUNDS && RoundOf(k) == p && IndexOf(k) != 0
    ensures ClientMessage(k) == Packet(RawData, Size(p)) && ServerReceive(k) == MB8
  {
  }

  lemma {:induction false} RawMessage(p: nat, i: nat)
    requires 1 <= p <= ROUNDS && i < BLOCKS
    ensures ClientMessage(1001 * p - 999 + i) == Packet(RawData, Size(p)) && ServerReceive(1001 * p - 999 + i) == MB8
  {
    Places(p, 1 + i);
    RawAt(1001 * p - 1000 + (1 + i), p);
  }

  /** The message that is next at each place where one is posted or handled. */
  lemma {:induction false} RawNext(p: nat, i: nat)
    requires 1 <= p <= ROUNDS && i < BLOCKS
    ensures var t := ClientTally(CPost(p, i));
      && t.posted >= 0 && ClientMessage(t.posted) == Packet(RawData, Size(p))
      && ClientTally(CPoll(p, i)) == t.(posted := t.posted + 1)
  {
    var k := ClientTally(CPost(p, i)).posted;
    Places(p, 1 + i);
    RawAt(k, p);
  }

  lemma DrainNext(p: nat, j: nat)
    requires 1 <= p <= ROUNDS && j < BLOCKS
    ensures var t := ServerTally(SDrain(p, j)); t.handled >= 0 && ClientMessage(t.handled).tag == RawData
  {
    RawMessage(p, j);
  }

  lemma FillNext(p: nat, j: nat)
    requires 1 <= p <= ROUNDS && j < BLOCKS
    ensures var t := ServerTally(SFill(p, j)); t.receives >= 0 && ServerReceive(t.receives) == MB8
  {
    RawMessage(p, j);
  }

  // ----- what one action does to a settled side -----

  lemma PostSettles(p: Port, t: Tally, into: nat, mine: nat -> Packet, theirs: nat -> Packet, receives: nat -> nat,
                    packet: Packet)
    requires Settled(p, t, into, mine, theirs, receives) && p.out == t.posted && packet == mine(t.posted)
    ensures Settled(PostSend(p, packet), t.(posted := t.posted + 1), into, mine, theirs, receives)
  {
    BetweenSnoc(mine, p.out, t.posted);
  }

  lemma ReceiveSettles(p: Port, t: Tally, into: nat, mine: nat -> Packet, theirs: nat -> Packet, receives: nat -> nat)
    requires Settled(p, t, into, mine, theirs, receives)
    ensures Settled(PostRecv(p, receives(t.receives)), t.(receives := t.receives + 1), into, mine, theirs, receives)
  {
    BetweenSnoc(receives, into, t.receives);
  }

  /** The completion of the pending SEND comes first. */
  lemma SendDoneSettles(p: Port, t: Tally, into: nat, mine: nat -> Packet, theirs: nat -> Packet, receives: nat -> nat)
    requires Settled(p, t, into, mine, theirs, receives) && t.acked < p.out
    ensures p.cq != [] && p.cq[0] == SendDone
    ensures Settled(Poll(p), t.(acked := t.acked + 1), into, mine, theirs, receives)
  {
  }

  lemma RecvDoneSettles(p: Port, t: Tally, into: nat, mine: nat -> Packet, theirs: nat -> Packet, receives: nat -> nat)
    requires Settled(p, t, into, mine, theirs, receives) && t.acked == p.out && p.cq != []
    ensures t.handled < into && p.cq[0] == RecvDone(theirs(t.handled).tag)
    ensures Settled(Poll(p), t.(handled := t.handled + 1), into, mine, theirs, receives)
  {
  }

  /** A side whose pending message has been delivered, and one that has received a message. */
  function Leave(p: Port): Port
    requires p.sq != []
  {
    p.(sq := p.sq[1..], cq := p.cq + [SendDone], out := p.out + 1)
  }

  function Arrive(p: Port, tag: Message): Port
    requires p.receives != []
  {
    p.(receives := p.receives[1..], cq := p.cq + [RecvDone(tag)])
  }

  /** A message leaves: its sender has no unhandled messages then. */
  lemma LeaveSettles(p: Port, t: Tally, into: nat, mine: nat -> Packet, theirs: nat -> Packet, receives: nat -> nat)
    requires Settled(p, t, into, mine, theirs, receives)
    requires p.out < t.posted <= t.acked + 1 && t.handled == into
    ensures p.sq != [] && p.sq[0] == mine(p.out)
    ensures Settled(Leave(p), t, into, mine, theirs, receives)
  {
  }

  lemma ArriveSettles(p: Port, t: Tally, into: nat, mine: nat -> Packet, theirs: nat -> Packet, receives: nat -> nat)
    requires Settled(p, t, into, mine, theirs, receives) && p.receives != []
    ensures into < t.receives && p.receives[0] == receives(into)
    ensures Settled(Arrive(p, theirs(into).tag), t, into + 1, mine, theirs, receives)
  {
    BetweenSnoc(Arrival(theirs), t.handled, into);
    var acks := Acks(t.acked, p.out);
    var rest := Between(Arrival(theirs), t.handled, into);
    assert acks + rest + [RecvDone(theirs(into).tag)] == acks + (rest + [RecvDone(theirs(into).tag)]);
  }

  // ----- the two sides keep pace -----

  /** With `h` answers the client has posted at most the next round's request. */
  lemma ClientPace(pc: ClientPc)
    requires ClientInRange(pc)
    ensures var t := ClientTally(pc);
      t.posted <= (if t.handled == 0 then 1 else 1001 * t.handled - 999) && t.posted <= t.acked + 1 && t.posted <= 24026
  {
  }

  /** To have posted `m` answers the server has handled everything up to the m-th request. */
  lemma ServerPace(pc: ServerPc)
    requires ServerInRange(pc)
    ensures var t := ServerTally(pc);
      && (t.posted == 1 ==> t.handled >= 1)
      && (t.posted >= 2 ==> t.handled >= 1001 * (t.posted - 1) - 999)
      && t.posted <= t.acked + 1
  {
  }

  /** A side whose message is still pending has handled everything that reached it. */
  lemma ClientWaits(st: State)
    requires Inv(st) && st.c.out < ClientTally(st.cpc).posted
    ensures ClientTally(st.cpc).handled == st.s.out
  {
    ClientPace(st.cpc);
    ServerPace(st.spc);
  }

  lemma ServerWaits(st: State)
    requires Inv(st) && st.s.out < ServerTally(st.spc).posted
    ensures ServerTally(st.spc).handled == st.c.out
  {
    ClientPace(st.cpc);
    ServerPace(st.spc);
  }

  // ----- steps -----

  lemma PendingMessage(p: Port, t: Tally, into: nat, mine: nat -> Packet, theirs: nat -> Packet, receives: nat -> nat)
    requires Settled(p, t, into, mine, theirs, receives) && p.sq != []
    ensures p.out < t.posted && p.sq == [mine(p.out)]
  {
    assert Between(mine, p.out + 1, t.posted) == [];
  }

  lemma PostedReceive(p: Port, t: Tally, into: nat, mine: nat -> Packet, theirs: nat -> Packet, receives: nat -> nat)
    requires Settled(p, t, into, mine, theirs, receives)
    ensures p.receives != [] <==> into < t.receives
    ensures into < t.receives ==> p.receives[0] == receives(into)
  {
  }

  predicate SameRing(p: Port, q: Port) {
    p.next == q.next && p.last == q.last
  }

  lemma BothSettled(st: State, c: Port, s: Port)
    requires Inv(st) && SameRing(c, st.c) && SameRing(s, st.s)
    requires ClientAt(c, ClientTally(st.cpc), s.out) && ServerAt(s, ServerTally(st.spc), c.out)
    ensures Inv(st.(c := c, s := s))
  {
  }

  lemma DeliverValue(from: Port, to: Port)
    requires CanDeliver(from, to) && from.sq[0].len <= to.receives[0]
    ensures Deliver(from, to) == Ok((Leave(from), Arrive(to, from.sq[0].tag)))
  {
  }

  lemma ClientLeaves(c: Port, t: Tally, into: nat)
    requires ClientAt(c, t, into) && c.sq != [] && t.posted <= t.acked + 1 && t.handled == into
    ensures c.out < t.posted && c.sq[0] == ClientMessage(c.out) && ClientAt(Leave(c), t, into)
  {
    PendingMessage(c, t, into, ClientMessage, ServerMessage, ClientReceive);
    LeaveSettles(c, t, into, ClientMessage, ServerMessage, ClientReceive);
  }

  lemma ServerHears(s: Port, u: Tally, into: nat)
    requires ServerAt(s, u, into) && s.receives != []
    ensures s.receives[0] == ServerReceive(into) && ServerAt(Arrive(s, ClientMessage(into).tag), u, into + 1)
  {
    PostedReceive(s, u, into, ServerMessage, ClientMessage, ServerReceive);
    ArriveSettles(s, u, into, ServerMessage, ClientMessage, ServerReceive);
  }

  lemma ServerLeaves(s: Port, u: Tally, into: nat)
    requires ServerAt(s, u, into) && s.sq != [] && u.posted <= u.acked + 1 && u.handled == into
    ensures s.out < u.posted && s.sq[0] == ServerMessage(s.out) && ServerAt(Leave(s), u, into)
  {
    PendingMessage(s, u, into, ServerMessage, ClientMessage, ServerReceive);
    LeaveSettles(s, u, into, ServerMessage, ClientMessage, ServerReceive);
  }

  lemma ClientHears(c: Port, t: Tally, into: nat)
    requires ClientAt(c, t, into) && c.receives != []
    ensures c.receives[0] == ClientReceive(into) && ClientAt(Arrive(c, ServerMessage(into).tag), t, into + 1)
  {
    PostedReceive(c, t, into, ClientMessage, ServerMessage, ClientReceive);
    ArriveSettles(c, t, into, ClientMessage, ServerMessage, ClientReceive);
  }

  lemma ClientPending(st: State)
    requires Inv(st) && st.c.sq != []
    ensures st.c.out < ClientTally(st.cpc).posted
  {
    PendingMessage(st.c, ClientTally(st.cpc), st.s.out, ClientMessage, ServerMessage, ClientReceive);
  }

  lemma ServerPending(st: State)
    requires Inv(st) && st.s.sq != []
    ensures st.s.out < ServerTally(st.spc).posted
  {
    PendingMessage(st.s, ServerTally(st.spc), st.c.out, ServerMessage, ClientMessage, ServerReceive);
  }

  /** The client's pending message, delivered: it fits, and both sides stay settled. */
  lemma ClientDelivery(c: Port, s: Port, t: Tally, u: Tally)
    requires ClientAt(c, t, s.out) && ServerAt(s, u, c.out) && CanDeliver(c, s)
    requires t.posted <= t.acked + 1 && t.handled == s.out && t.posted <= 24026
    ensures Deliver(c, s) == Ok((Leave(c), Arrive(s, c.sq[0].tag)))
    ensures ClientAt(Leave(c), t, s.out) && ServerAt(Arrive(s, c.sq[0].tag), u, c.out + 1)
  {
    ClientLeaves(c, t, s.out);
    ServerHears(s, u, c.out);
    MessagesFit(c.out);
    DeliverValue(c, s);
  }

  lemma ClientReady(st: State)
    requires Inv(st) && st.c.sq != []
    ensures var t := ClientTally(st.cpc); t.posted <= t.acked + 1 && t.handled == st.s.out && t.posted <= 24026
  {
    ClientPending(st);
    ClientPace(st.cpc);
    ClientWaits(st);
  }

  lemma ClientArrives(st: State)
    requires Inv(st) && Enabled(st, ClientDelivers)
    ensures Deliver(st.c, st.s) == Ok((Leave(st.c), Arrive(st.s, st.c.sq[0].tag)))
    ensures ClientAt(Leave(st.c), ClientTally(st.cpc), st.s.out)
    ensures ServerAt(Arrive(st.s, st.c.sq[0].tag), ServerTally(st.spc), st.c.out + 1)
  {
    ClientReady(st);
    ClientDelivery(st.c, st.s, ClientTally(st.cpc), ServerTally(st.spc));
  }

  lemma ClientDeliversKeeps(st: State)
    requires Inv(st) && Enabled(st, ClientDelivers)
    ensures var r := Apply(st, ClientDelivers); r.Ok? && Inv(r.value)
  {
    ClientArrives(st);
    BothSettled(st, Leave(st.c), Arrive(st.s, st.c.sq[0].tag));
  }

  lemma ServerDeliversKeeps(st: State)
    requires Inv(st) && Enabled(st, ServerDelivers)
    ensures var r := Apply(st, ServerDelivers); r.Ok? && Inv(r.value)
  {
    ServerPending(st);
    ServerPace(st.spc);
    ServerWaits(st);
    ServerLeaves(st.s, ServerTally(st.spc), st.c.out);
    ClientHears(st.c, ClientTally(st.cpc), st.s.out);
    DeliverValue(st.s, st.c);
    BothSettled(st, Arrive(st.c, st.s.sq[0].tag), Leave(st.s));
  }

  /** The client's action leads to a place whose tally is that of its new queues. */
  lemma ClientMoves(st: State, pc: ClientPc, c: Port, t: Tally)
    requires Inv(st) && ClientCanRun(st.cpc, st.c) && ClientRun(st.cpc, st.c) == Ok((pc, c))
    requires ClientInRange(pc) && c.next - c.last == ClientHeld(pc)
    requires ClientAt(c, t, st.s.out) && t == ClientTally(pc) && c.out == st.c.out
    ensures Apply(st, ClientRuns).Ok? && Inv(Apply(st, ClientRuns).value)
  {
  }

  lemma ServerMoves(st: State, pc: ServerPc, s: Port, t: Tally)
    requires Inv(st) && ServerCanRun(st.spc, st.s) && ServerRun(st.spc, st.s) == Ok((pc, s))
    requires ServerInRange(pc) && s.next - s.last == ServerHeld(pc)
    requires ServerAt(s, t, st.c.out) && t == ServerTally(pc) && s.out == st.s.out
    ensures Apply(st, ServerRuns).Ok? && Inv(Apply(st, ServerRuns).value)
  {
  }

  /** `ClientAt` and `ServerAt` do not look at the ring counters. */
  lemma ClientRing(c: Port, t: Tally, into: nat, next: int, last: int)
    requires ClientAt(c, t, into)
    ensures ClientAt(c.(next := next, last := last), t, into)
  {
  }

  lemma ServerRing(s: Port, t: Tally, into: nat, next: int, last: int)
    requires ServerAt(s, t, into)
    ensures ServerAt(s.(next := next, last := last), t, into)
  {
  }

  /** The client posts a SEND and waits. */
  lemma ClientPosts(st: State, pc: ClientPc, c: Port, t: Tally, packet: Packet)
    requires Inv(st) && ClientCanRun(st.cpc, st.c) && ClientRun(st.cpc, st.c) == Ok((pc, PostSend(c, packet)))
    requires ClientInRange(pc) && c.next - c.last == ClientHeld(pc) && c.out == st.c.out
    requires ClientAt(c, t, st.s.out) && c.out == t.posted && packet == ClientMessage(t.posted)
    requires ClientTally(pc) == t.(posted := t.posted + 1)
    ensures Apply(st, ClientRuns).Ok? && Inv(Apply(st, ClientRuns).value)
  {
    PostSettles(c, t, st.s.out, ClientMessage, ServerMessage, ClientReceive, packet);
    ClientMoves(st, pc, PostSend(c, packet), t.(posted := t.posted + 1));
  }

  lemma BeginKeeps(st: State)
    requires Inv(st) && st.cpc.CBegin?
    ensures var r := Apply(st, ClientRuns); r.Ok? && Inv(r.value)
  {
    var p := st.cpc.phase;
    var t := ClientTally(st.cpc);
    RequestMessage(p);
    ReceiveSettles(st.c, t, st.s.out, ClientMessage, ServerMessage, ClientReceive);
    ClientPosts(st, CAwait(p, false, false), PostRecv(st.c, 64), t.(receives := p + 1), Packet(SendTestRequest, 2));
  }

  lemma {:induction false} RawValue(p: nat, i: nat, c: Port)
    requires 1 <= p <= ROUNDS
    ensures ClientRun(CPost(p, i), c) == Ok((CPoll(p, i), PostSend(c.(next := c.next + 1), Packet(RawData, Size(p)))))
  {
    SizesFit(p);
  }

  lemma NothingPending(st: State)
    requires Inv(st) && st.cpc.CPost?
    ensures st.c.out == ClientTally(st.cpc).posted
  {
  }

  lemma RawKeeps(st: State)
    requires Inv(st) && st.cpc.CPost?
    ensures var r := Apply(st, ClientRuns); r.Ok? && Inv(r.value)
  {
    var p, i := st.cpc.phase, st.cpc.i;
    var t := ClientTally(st.cpc);
    RawNext(p, i);
    RawValue(p, i, st.c);
    NothingPending(st);
    ClientRing(st.c, t, st.s.out, st.c.next + 1, st.c.last);
    ClientPosts(st, CPoll(p, i), st.c.(next := st.c.next + 1), t, Packet(RawData, Size(p)));
  }

  lemma EndsKeep(st: State)
    requires Inv(st) && (st.cpc.CStart? || st.cpc.CQuiet?)
    ensures var r := Apply(st, ClientRuns); r.Ok? && Inv(r.value)
  {
    var packet := if st.cpc.CStart? then Packet(RequestBuffer, 2) else Packet(ByeBye, 64);
    var pc := if st.cpc.CStart? then CAwait(0, false, false) else CEnd;
    ClientPosts(st, pc, st.c, ClientTally(st.cpc), packet);
  }

  lemma WaitTally(p: nat, sent: bool, got: bool)
    requires p <= ROUNDS && !(sent && got)
    ensures var t := ClientTally(CAwait(p, sent, got));
      && (!sent ==> ClientTally(AfterWait(p, true, got)) == t.(acked := t.acked + 1))
      && (!got ==> ClientTally(AfterWait(p, sent, true)) == t.(handled := t.handled + 1))
    ensures !sent ==> ClientInRange(AfterWait(p, true, got)) && ClientHeld(AfterWait(p, true, got)) == 0
    ensures !got ==> ClientInRange(AfterWait(p, sent, true)) && ClientHeld(AfterWait(p, sent, true)) == 0
  {
  }

  lemma WaitValue(p: nat, sent: bool, got: bool, c: Port)
    requires c.cq != []
    ensures c.cq[0] == SendDone && !sent ==>
      ClientRun(CAwait(p, sent, got), c) == Ok((AfterWait(p, true, got), Poll(c)))
    ensures c.cq[0] == RecvDone(ServerMessage(p).tag) && !got ==>
      ClientRun(CAwait(p, sent, got), c) == Ok((AfterWait(p, sent, true), Poll(c)))
  {
  }

  /** What the wait still waits for has not been handled, and nothing else comes. */
  lemma WaitsFor(st: State)
    requires Inv(st) && st.cpc.CAwait?
    ensures var t := ClientTally(st.cpc);
      && (t.acked < st.c.out ==> !st.cpc.sent)
      && (t.handled < st.s.out ==> !st.cpc.got && t.handled == st.cpc.phase)
  {
  }

  /** One completion of the wait for two: the SEND's own or the answer, each once. */
  lemma WaitKeeps(st: State)
    requires Inv(st) && st.cpc.CAwait? && st.c.cq != []
    ensures var r := Apply(st, ClientRuns); r.Ok? && Inv(r.value)
  {
    var t := ClientTally(st.cpc);
    var CAwait(p, sent, got) := st.cpc;
    WaitsFor(st);
    WaitTally(p, sent, got);
    WaitValue(p, sent, got, st.c);
    if t.acked < st.c.out {
      SendDoneSettles(st.c, t, st.s.out, ClientMessage, ServerMessage, ClientReceive);
      ClientMoves(st, AfterWait(p, true, got), Poll(st.c), t.(acked := t.acked + 1));
    } else {
      RecvDoneSettles(st.c, t, st.s.out, ClientMessage, ServerMessage, ClientReceive);
      ClientMoves(st, AfterWait(p, sent, true), Poll(st.c), t.(handled := t.handled + 1));
    }
  }

  lemma RawDoneTally(p: nat, i: nat)
    requires 1 <= p <= ROUNDS && i < BLOCKS
    ensures var t, pc := ClientTally(CPoll(p, i)), AfterRaw(p, i);
      ClientTally(pc) == t.(acked := t.acked + 1) && ClientInRange(pc) && ClientHeld(pc) == 0
  {
  }

  lemma RawDoneComes(st: State)
    requires Inv(st) && st.cpc.CPoll? && st.c.cq != []
    ensures ClientTally(st.cpc).acked < st.c.out
  {
    var t := ClientTally(st.cpc);
    if t.acked == st.c.out {
      RecvDoneSettles(st.c, t, st.s.out, ClientMessage, ServerMessage, ClientReceive);
    }
  }

  lemma RawDoneKeeps(st: State)
    requires Inv(st) && st.cpc.CPoll? && st.c.cq != []
    ensures var r := Apply(st, ClientRuns); r.Ok? && Inv(r.value)
  {
    var p, i := st.cpc.phase, st.cpc.i;
    var t := ClientTally(st.cpc);
    RawDoneComes(st);
    RawDoneTally(p, i);
    SendDoneSettles(st.c, t, st.s.out, ClientMessage, ServerMessage, ClientReceive);
    ClientRing(Poll(st.c), t.(acked := t.acked + 1), st.s.out, st.c.next, st.c.last + 1);
    ClientMoves(st, AfterRaw(p, i), Poll(st.c).(last := st.c.last + 1), t.(acked := t.acked + 1));
  }

  lemma PrepareKeeps(st: State)
    requires Inv(st) && st.spc.SPrepare?
    ensures var r := Apply(st, ServerRuns); r.Ok? && Inv(r.value)
  {
    var t := ServerTally(st.spc);
    var p := st.spc.phase;
    RequestMessage(p);
    ReceiveSettles(st.s, t, st.c.out, ServerMessage, ClientMessage, ServerReceive);
    ServerMoves(st, SAwait(p), PostRecv(st.s, 64), t.(receives := t.receives + 1));
  }

  lemma ReplyTally(p: nat)
    ensures var t := ServerTally(SReply(p)); t.posted == p && ServerTally(SAcked(p)) == t.(posted := t.posted + 1)
    ensures ServerHeld(SAcked(p)) == ServerHeld(SReply(p))
  {
  }

  lemma ReplyKeeps(st: State)
    requires Inv(st) && st.spc.SReply?
    ensures var r := Apply(st, ServerRuns); r.Ok? && Inv(r.value)
  {
    var t := ServerTally(st.spc);
    var p := st.spc.phase;
    ReplyTally(p);
    PostSettles(st.s, t, st.c.out, ServerMessage, ClientMessage, ServerReceive, Reply(p));
    ServerMoves(st, SAcked(p), PostSend(st.s, Reply(p)), t.(posted := t.posted + 1));
  }

  lemma FillTally(p: nat, j: nat)
    requires 1 <= p <= ROUNDS && j < BLOCKS
    ensures var t, pc := ServerTally(SFill(p, j)), AfterFill(p, j);
      ServerTally(pc) == t.(receives := t.receives + 1) && ServerInRange(pc) && ServerHeld(pc) == j + 1
  {
  }

  /** One more of the round's receives. */
  lemma FillAdds(p: nat, j: nat, s: Port, t: Tally, into: nat)
    requires 1 <= p <= ROUNDS && j < BLOCKS && t == ServerTally(SFill(p, j)) && ServerAt(s, t, into)
    ensures ServerAt(PostRecv(s.(next := s.next + 1), MB8), t.(receives := t.receives + 1), into)
  {
    FillNext(p, j);
    ServerRing(s, t, into, s.next + 1, s.last);
    ReceiveSettles(s.(next := s.next + 1), t, into, ServerMessage, ClientMessage, ServerReceive);
  }

  lemma FillKeeps(st: State)
    requires Inv(st) && st.spc.SFill?
    ensures var r := Apply(st, ServerRuns); r.Ok? && Inv(r.value)
  {
    var t := ServerTally(st.spc);
    var p, j := st.spc.phase, st.spc.j;
    FillTally(p, j);
    FillAdds(p, j, st.s, t, st.c.out);
    ServerMoves(st, AfterFill(p, j), PostRecv(st.s.(next := st.s.next + 1), MB8), t.(receives := t.receives + 1));
  }

  lemma RequestTally(p: nat)
    requires p <= ROUNDS + 1
    ensures var t, pc := ServerTally(SAwait(p)), AfterRequest(p);
      ServerTally(pc) == t.(handled := t.handled + 1) && ServerInRange(pc) && ServerHeld(pc) == 0
  {
  }

  lemma RequestKeeps(st: State)
    requires Inv(st) && st.spc.SAwait? && st.s.cq != []
    ensures var r := Apply(st, ServerRuns); r.Ok? && Inv(r.value)
  {
    var t := ServerTally(st.spc);
    RequestTally(st.spc.phase);
    RecvDoneSettles(st.s, t, st.c.out, ServerMessage, ClientMessage, ServerReceive);
    ServerMoves(st, AfterRequest(st.spc.phase), Poll(st.s), t.(handled := t.handled + 1));
  }

  lemma AckTally(p: nat)
    requires p <= ROUNDS
    ensures var t, pc := ServerTally(SAcked(p)), AfterAck(p);
      ServerTally(pc) == t.(acked := t.acked + 1) && ServerInRange(pc) && ServerHeld(pc) == ServerHeld(SAcked(p))
  {
  }

  /** The answer's own completion comes before any raw message: the client sends none until
      the answer has been delivered. */
  lemma AckComes(st: State)
    requires Inv(st) && st.spc.SAcked? && st.s.cq != []
    ensures ServerTally(st.spc).acked < st.s.out
  {
    var t := ServerTally(st.spc);
    if st.s.out < t.posted {
      ServerWaits(st);
      RecvDoneSettles(st.s, t, st.c.out, ServerMessage, ClientMessage, ServerReceive);
    }
  }

  lemma AckedKeeps(st: State)
    requires Inv(st) && st.spc.SAcked? && st.s.cq != []
    ensures var r := Apply(st, ServerRuns); r.Ok? && Inv(r.value)
  {
    var t := ServerTally(st.spc);
    AckComes(st);
    AckTally(st.spc.phase);
    SendDoneSettles(st.s, t, st.c.out, ServerMessage, ClientMessage, ServerReceive);
    ServerMoves(st, AfterAck(st.spc.phase), Poll(st.s), t.(acked := t.acked + 1));
  }

  lemma DrainTally(p: nat, j: nat)
    requires 1 <= p <= ROUNDS && j < BLOCKS
    ensures var t, pc := ServerTally(SDrain(p, j)), AfterDrain(p, j);
      && t.handled == 1001 * p - 999 + j && ServerTally(pc) == t.(handled := t.handled + 1)
      && ServerInRange(pc) && ServerHeld(pc) == BLOCKS - j - 1
  {
  }

  lemma NoAckLeft(p: nat, j: nat, s: Port, into: nat)
    requires ServerAt(s, ServerTally(SDrain(p, j)), into)
    ensures ServerTally(SDrain(p, j)).acked == s.out
  {
  }

  /** What comes next while the server drains is the next raw message. */
  lemma DrainComes(p: nat, j: nat, s: Port, t: Tally, into: nat)
    requires 1 <= p <= ROUNDS && j < BLOCKS && t == ServerTally(SDrain(p, j))
    requires ServerAt(s, t, into) && s.cq != []
    ensures s.cq[0] == RecvDone(RawData) && ServerAt(Poll(s), t.(handled := t.handled + 1), into)
  {
    DrainNext(p, j);
    NoAckLeft(p, j, s, into);
    RecvDoneSettles(s, t, into, ServerMessage, ClientMessage, ServerReceive);
  }

  lemma DrainKeeps(st: State)
    requires Inv(st) && st.spc.SDrain? && st.s.cq != []
    ensures var r := Apply(st, ServerRuns); r.Ok? && Inv(r.value)
  {
    var t := ServerTally(st.spc);
    var p, j := st.spc.phase, st.spc.j;
    DrainTally(p, j);
    DrainComes(p, j, st.s, t, st.c.out);
    ServerRing(Poll(st.s), t.(handled := t.handled + 1), st.c.out, st.s.next, st.s.last + 1);
    ServerMoves(st, AfterDrain(p, j), Poll(st.s).(last := st.s.last + 1), t.(handled := t.handled + 1));
  }

  lemma ClientStepKeeps(st: State)
    requires Inv(st) && Enabled(st, ClientRuns)
    ensures var r := Apply(st, ClientRuns); r.Ok? && Inv(r.value)
  {
    match st.cpc
    case CStart => EndsKeep(st);
    case CQuiet => EndsKeep(st);
    case CBegin(_) => BeginKeeps(st);
    case CPost(_, _) => RawKeeps(st);
    case CAwait(_, _, _) => WaitKeeps(st);
    case CPoll(_, _) => RawDoneKeeps(st);
  }

  lemma ServerStepKeeps(st: State)
    requires Inv(st) && Enabled(st, ServerRuns)
    ensures var r := Apply(st, ServerRuns); r.Ok? && Inv(r.value)
  {
    match st.spc
    case SPrepare(_) => PrepareKeeps(st);
    case SReply(_) => ReplyKeeps(st);
    case SFill(_, _) => FillKeeps(st);
    case SAwait(_) => RequestKeeps(st);
    case SAcked(_) => AckedKeeps(st);
    case SDrain(_, _) => DrainKeeps(st);
  }

  lemma StepKeeps(st: State, step: Step)
    requires Inv(st) && Enabled(st, step)
    ensures Apply(st, step).Ok? && Inv(Apply(st, step).value)
  {
    match step
    case ClientRuns => ClientStepKeeps(st);
    case ServerRuns => ServerStepKeeps(st);
    case ClientDelivers => ClientDeliversKeeps(st);
    case ServerDelivers => ServerDeliversKeeps(st);
  }

  // ----- every run -----

  lemma InitInv()
    ensures Inv(Initial())
  {
  }

  predicate Reaches(steps: seq<Step>, st: State) {
    Runs(Initial(), steps) && Outcome(Initial(), steps) == Ok(st)
  }

  lemma {:induction false} RunKeeps(st: State, steps: seq<Step>)
    requires Inv(st) && Runs(st, steps)
    ensures Outcome(st, steps).Ok? && Inv(Outcome(st, steps).value)
    decreases |steps|
  {
    if steps != [] {
      StepKeeps(st, steps[0]);
      RunKeeps(Apply(st, steps[0]).value, steps[1..]);
    }
  }

  /** Every opcode and immediate check passes in every run, and every message fits its receive. */
  lemma {:induction false} NoRunFails(steps: seq<Step>)
    requires Runs(Initial(), steps)
    ensures Outcome(Initial(), steps).Ok?
  {
    InitInv();
    RunKeeps(Initial(), steps);
  }

  lemma ReachedInv(steps: seq<Step>, st: State)
    requires Reaches(steps, st)
    ensures Inv(st)
  {
    InitInv();
    RunKeeps(Initial(), steps);
  }

  /** Which checks each side makes, in whatever state it runs: an opcode where one is expected, the
      right answer, the right request at the beginning and at the end, and the size of a message. */
  lemma ClientChecks(pc: ClientPc, c: Port)
    requires ClientCanRun(pc, c)
    ensures ClientRun(pc, c).Ok? <==> match pc
      case CAwait(phase, sent, got) =>
        if c.cq[0].SendDone? then !sent
        else !got && c.cq[0].tag == if phase == 0 then ResponseToRequestBuffer else ResponseToSendTestRequest
      case CPost(phase, _) => Size(phase) <= 8388608
      case CPoll(_, _) => c.cq[0].SendDone?
      case _ => true
  {
  }

  lemma ServerChecks(pc: ServerPc, s: Port)
    requires ServerCanRun(pc, s)
    ensures ServerRun(pc, s).Ok? <==> match pc
      case SAwait(phase) =>
        && s.cq[0].RecvDone? && (phase == 0 ==> s.cq[0].tag == RequestBuffer)
        && (phase > 24 ==> s.cq[0].tag == ByeBye)
      case SAcked(_) => s.cq[0].SendDone?
      case SDrain(_, _) => s.cq[0] == RecvDone(RawData)
      case _ => true
  {
  }

  /** The server is in round `p`, or waits for the next request. */
  predicate ServesRound(pc: ServerPc, p: nat) {
    match pc
    case SAcked(q) => q == p
    case SDrain(q, _) => q == p
    case SPrepare(q) => q == p + 1
    case SAwait(q) => q == p + 1
    case _ => false
  }

  /** The two sides are aligned: while the client sends the raw messages of a round, the server
      has answered that round's request and has not gone beyond waiting for the next one. */
  lemma Lockstep(steps: seq<Step>, st: State)
    requires Reaches(steps, st) && (st.cpc.CPost? || st.cpc.CPoll?)
    ensures ServesRound(st.spc, st.cpc.phase)
  {
    ReachedInv(steps, st);
  }

  /** While a raw message is pending, its receive is posted and is a whole block: it never
      waits for the server. */
  lemma RawFindsReceive(steps: seq<Step>, st: State)
    requires Reaches(steps, st) && st.cpc.CPoll? && st.c.sq != []
    ensures st.c.sq == [Packet(RawData, Size(st.cpc.phase))]
    ensures st.s.receives != [] && st.s.receives[0] == 8388608
    ensures Enabled(st, ClientDelivers)
  {
    ReachedInv(steps, st);
    RawPending(st);
  }

  lemma RawPending(st: State)
    requires Inv(st) && st.cpc.CPoll? && st.c.sq != []
    ensures st.c.sq == [Packet(RawData, Size(st.cpc.phase))]
    ensures st.s.receives != [] && st.s.receives[0] == MB8
  {
    var p, i := st.cpc.phase, st.cpc.i;
    PendingMessage(st.c, ClientTally(st.cpc), st.s.out, ClientMessage, ServerMessage, ClientReceive);
    PostedReceive(st.s, ServerTally(st.spc), st.c.out, ServerMessage, ClientMessage, ServerReceive);
    Places(p, 1 + i);
    RawAt(st.c.out, p);
    ServerAhead(st);
  }

  /** The receives of a round have all been posted before its first raw message. */
  lemma ServerAhead(st: State)
    requires Inv(st) && (st.cpc.CPost? || st.cpc.CPoll?)
    ensures ServerTally(st.spc).receives >= 1001 * st.cpc.phase + 1
  {
  }

  /** Every answer finds its receive posted and fits it: the one that carries the descriptor has 64 bytes,
      room for its 24, and is the first; the others are empty. */
  lemma AnswersFit(steps: seq<Step>, st: State, i: nat)
    requires Reaches(steps, st) && i < |st.s.sq|
    ensures st.s.sq[i].tag == ResponseToRequestBuffer ==> st.s.sq[i].len == 64 && st.s.out == 0
    ensures st.s.sq[i].tag != ResponseToRequestBuffer ==>
      st.s.sq[i] == Packet(ResponseToSendTestRequest, 0) && st.s.out > 0
    ensures i == 0 && st.c.receives != [] && st.s.sq[i].len <= st.c.receives[0]
    ensures st.c.receives[0] == if st.s.out == 0 then 8388608 else 64
    ensures Enabled(st, ServerDelivers)
  {
    ReachedInv(steps, st);
    AnswerPending(st);
  }

  lemma AnswerPending(st: State)
    requires Inv(st) && st.s.sq != []
    ensures |st.s.sq| == 1 && st.s.sq[0] == ServerMessage(st.s.out)
    ensures st.c.receives != [] && st.c.receives[0] == ClientReceive(st.s.out)
  {
    ServerPending(st);
    ServerPace(st.spc);
    ServerWaits(st);
    QueueLengths(st.s, ServerTally(st.spc), st.c.out, ServerMessage, ClientMessage, ServerReceive);
    PendingMessage(st.s, ServerTally(st.spc), st.c.out, ServerMessage, ClientMessage, ServerReceive);
    PostedReceive(st.c, ClientTally(st.cpc), st.s.out, ClientMessage, ServerMessage, ClientReceive);
  }

  /** What the client sends where it is: requests of 2 bytes, raw messages of the round's size, BYEBYE. */
  predicate SendsHere(pc: ClientPc, m: Packet) {
    match pc
    case CAwait(p, _, _) => m == Packet(if p == 0 then RequestBuffer else SendTestRequest, 2)
    case CPoll(p, _) => m == Packet(RawData, Size(p))
    case CEnd => m == Packet(ByeBye, 64)
    case _ => false
  }

  lemma ClientSends(steps: seq<Step>, st: State)
    requires Reaches(steps, st) && st.c.sq != []
    ensures |st.c.sq| == 1 && SendsHere(st.cpc, st.c.sq[0])
  {
    ReachedInv(steps, st);
    QueueLengths(st.c, ClientTally(st.cpc), st.s.out, ClientMessage, ServerMessage, ClientReceive);
    PendingMessage(st.c, ClientTally(st.cpc), st.s.out, ClientMessage, ServerMessage, ClientReceive);
    ClientSent(st.cpc, st.c.out);
  }

  lemma ClientSent(pc: ClientPc, out: nat)
    requires ClientInRange(pc)
    requires var t := ClientTally(pc); t.acked <= out < t.posted <= out + 1
    ensures SendsHere(pc, ClientMessage(out))
  {
    match pc
    case CAwait(p, _, _) =>
      if p > 0 {
        RequestMessage(p);
      }
    case CPoll(p, i) => RawMessage(p, i);
    case _ =>
  }

  /** Receives stay within `max_recv_wr`, SENDs within `max_send_wr` and completions within the
      completion queue. */
  lemma QueuesFit(steps: seq<Step>, st: State)
    requires Reaches(steps, st)
    ensures |st.c.sq| <= 1 && |st.c.receives| <= 1 && |st.c.cq| <= 2
    ensures |st.s.sq| <= 1 && |st.s.receives| <= 1001 < QUEUE == 1024 && |st.s.cq| <= 1002 < 2 * QUEUE
  {
    ReachedInv(steps, st);
    var t, u := ClientTally(st.cpc), ServerTally(st.spc);
    QueueLengths(st.c, t, st.s.out, ClientMessage, ServerMessage, ClientReceive);
    QueueLengths(st.s, u, st.c.out, ServerMessage, ClientMessage, ServerReceive);
    Spread(st);
  }

  lemma QueueLengths(p: Port, t: Tally, into: nat, mine: nat -> Packet, theirs: nat -> Packet, receives: nat -> nat)
    requires Settled(p, t, into, mine, theirs, receives)
    ensures |p.sq| == t.posted - p.out && |p.receives| == t.receives - into
    ensures |p.cq| <= 1 + (into - t.handled)
  {
    BetweenLength(mine, p.out, t.posted);
    BetweenLength(receives, into, t.receives);
    BetweenLength(Arrival(theirs), t.handled, into);
  }

  lemma Spread(st: State)
    requires Inv(st)
    ensures var t, u := ClientTally(st.cpc), ServerTally(st.spc);
      && t.receives - st.s.out <= 1 && st.s.out - t.handled <= 1
      && u.receives - st.c.out <= BLOCKS + 1 && st.c.out - u.handled <= BLOCKS + 1
  {
    Ahead(st.cpc);
    Behind(st.spc);
    ClientPace(st.cpc);
    ServerPace(st.spc);
  }

  lemma Ahead(pc: ClientPc)
    requires ClientInRange(pc)
    ensures var t := ClientTally(pc); t.receives <= t.handled + 1
  {
  }

  lemma Behind(pc: ServerPc)
    requires ServerInRange(pc)
    ensures var u := ServerTally(pc); u.handled <= u.receives <= u.handled + BLOCKS + 1
  {
  }

  /** Both rings stay within one turn, and at each round's end every block is back. */
  lemma RingsReturn(steps: seq<Step>, st: State)
    requires Reaches(steps, st)
    ensures 0 <= st.c.next - st.c.last <= 1 && 0 <= st.s.next - st.s.last <= 1000
    ensures st.cpc.CBegin? || st.cpc.CQuiet? || st.cpc.CEnd? ==> st.c.next == st.c.last
    ensures st.spc.SPrepare? || st.spc.SAwait? || st.spc.SEnd? ==> st.s.next == st.s.last
  {
    ReachedInv(steps, st);
  }

  /** Before the one-sided tests nothing is left over on the client's side: their own
      completions are the only ones to come. */
  lemma QuietClient(steps: seq<Step>, st: State)
    requires Reaches(steps, st) && st.cpc.CQuiet?
    ensures st.c.sq == [] && st.c.cq == [] && st.s.sq == []
  {
    ReachedInv(steps, st);
  }

  lemma SomeStep(st: State) returns (step: Step)
    requires Inv(st) && !(st.cpc.CEnd? && st.spc.SEnd?)
    ensures Enabled(st, step)
  {
    if ClientCanRun(st.cpc, st.c) {
      step := ClientRuns;
    } else if ServerCanRun(st.spc, st.s) {
      step := ServerRuns;
    } else if CanDeliver(st.c, st.s) {
      step := ClientDelivers;
    } else {
      step := ServerDelivers;
      Stuck(st);
    }
  }

  /** The two sides never wait for each other: as long as one has not ended, some step is possible. */
  lemma Progress(steps: seq<Step>, st: State) returns (step: Step)
    requires Reaches(steps, st) && !(st.cpc.CEnd? && st.spc.SEnd?)
    ensures Enabled(st, step)
  {
    ReachedInv(steps, st);
    step := SomeStep(st);
  }

  lemma Stuck(st: State)
    requires Inv(st) && !ClientCanRun(st.cpc, st.c) && !ServerCanRun(st.spc, st.s)
    requires !(st.cpc.CEnd? && st.spc.SEnd?) && !CanDeliver(st.c, st.s)
    ensures CanDeliver(st.s, st.c)
  {
    QueueStates(st.c, ClientTally(st.cpc), st.s.out, ClientMessage, ServerMessage, ClientReceive);
    QueueStates(st.s, ServerTally(st.spc), st.c.out, ServerMessage, ClientMessage, ServerReceive);
    StuckCounts(st.cpc, st.spc, st.c.out, st.s.out);
  }

  lemma QueueStates(p: Port, t: Tally, into: nat, mine: nat -> Packet, theirs: nat -> Packet, receives: nat -> nat)
    requires Settled(p, t, into, mine, theirs, receives)
    ensures p.sq != [] <==> p.out < t.posted
    ensures p.receives != [] <==> into < t.receives
    ensures p.cq == [] <==> t.acked == p.out && t.handled == into
  {
  }

  predicate ClientPolls(pc: ClientPc) {
    pc.CAwait? || pc.CPoll?
  }

  predicate ServerPolls(pc: ServerPc) {
    pc.SAwait? || pc.SAcked? || pc.SDrain?
  }

  /** With nothing to poll on either side and no message of the client's on its way, an answer is. */
  lemma StuckCounts(cpc: ClientPc, spc: ServerPc, c: nat, s: nat)
    requires ClientInRange(cpc) && ServerInRange(spc) && !(cpc.CEnd? && spc.SEnd?)
    requires var t, u := ClientTally(cpc), ServerTally(spc);
      && t.handled <= s <= t.receives && t.acked <= c <= t.posted
      && u.handled <= c <= u.receives && u.acked <= s <= u.posted
      && (cpc.CEnd? || (ClientPolls(cpc) && t.acked == c && t.handled == s))
      && (spc.SEnd? || (ServerPolls(spc) && u.acked == s && u.handled == c))
      && !(c < t.posted && c < u.receives)
    ensures s < ServerTally(spc).posted && s < ClientTally(cpc).receives
  {
  }

  // ----- how long it takes -----

  function ClientRank(pc: ClientPc): int {
    match pc
    case CStart => 0
    case CAwait(p, sent, got) =>
      (if p == 0 then 1 else 2003 * p - 1999) + (if sent then 1 else 0) + (if got then 1 else 0)
    case CBegin(p) => 2003 * p - 2000
    case CPost(p, i) => 2003 * p - 1997 + 2 * i
    case CPoll(p, i) => 2003 * p - 1996 + 2 * i
    case CQuiet => 48075
    case CEnd => 48076
  }

  function ServerRank(pc: ServerPc): int {
    match pc
    case SPrepare(p) => 2004 * p - 2001
    case SAwait(p) => if p == 0 then 0 else 2004 * p - 2000
    case SFill(p, j) => 2004 * p - 1999 + j
    case SReply(p) => if p == 0 then 1 else 2004 * p - 999
    case SAcked(p) => if p == 0 then 2 else 2004 * p - 998
    case SDrain(p, j) => 2004 * p - 997 + j
    case SEnd => 48101
  }

  function Rank(st: State): int {
    ClientRank(st.cpc) + ServerRank(st.spc) + st.c.out + st.s.out
  }

  const STEPS: nat := 120228

  lemma ClientRankStep(pc: ClientPc, c: Port)
    requires ClientInRange(pc) && ClientCanRun(pc, c) && ClientRun(pc, c).Ok?
    ensures var (pc', c') := ClientRun(pc, c).value; ClientRank(pc') == ClientRank(pc) + 1 && c'.out == c.out
  {
  }

  lemma ServerRankStep(pc: ServerPc, s: Port)
    requires ServerInRange(pc) && ServerCanRun(pc, s) && ServerRun(pc, s).Ok?
    ensures var (pc', s') := ServerRun(pc, s).value; ServerRank(pc') == ServerRank(pc) + 1 && s'.out == s.out
  {
  }

  lemma RankStep(st: State, step: Step)
    requires ClientInRange(st.cpc) && ServerInRange(st.spc) && Enabled(st, step) && Apply(st, step).Ok?
    ensures Rank(Apply(st, step).value) == Rank(st) + 1
  {
    match step
    case ClientRuns => ClientRankStep(st.cpc, st.c);
    case ServerRuns => ServerRankStep(st.spc, st.s);
    case ClientDelivers =>
    case ServerDelivers =>
  }

  lemma RankBound(st: State)
    requires Inv(st)
    ensures Rank(st) <= STEPS && (Rank(st) == STEPS <==> st.cpc.CEnd? && st.spc.SEnd?)
  {
    ClientEnds(st.cpc);
    ServerEnds(st.spc);
  }

  lemma ClientEnds(pc: ClientPc)
    requires ClientInRange(pc)
    ensures ClientRank(pc) <= 48076 && (ClientRank(pc) == 48076 <==> pc.CEnd?)
    ensures ClientTally(pc).posted <= 24026
  {
  }

  lemma ServerEnds(pc: ServerPc)
    requires ServerInRange(pc)
    ensures ServerRank(pc) <= 48101 && (ServerRank(pc) == 48101 <==> pc.SEnd?)
    ensures ServerTally(pc).posted <= 25
  {
  }

  lemma {:induction false} RunRank(st: State, steps: seq<Step>)
    requires Inv(st) && Runs(st, steps)
    ensures Outcome(st, steps).Ok? && Rank(Outcome(st, steps).value) == Rank(st) + |steps|
    decreases |steps|
  {
    if steps != [] {
      StepKeeps(st, steps[0]);
      RankStep(st, steps[0]);
      RunRank(Apply(st, steps[0]).value, steps[1..]);
    }
  }

  /** Whatever the interleaving, the benchmark takes the same number of steps, and both sides have
      ended exactly when they have been taken. With `Progress`: every run can be completed. */
  lemma EveryRunEnds(steps: seq<Step>, st: State)
    requires Reaches(steps, st)
    ensures |steps| <= STEPS
    ensures |steps| == STEPS <==> st.cpc.CEnd? && st.spc.SEnd?
  {
    ReachedInv(steps, st);
    InitInv();
    RunRank(Initial(), steps);
    RankBound(st);
  }
}
