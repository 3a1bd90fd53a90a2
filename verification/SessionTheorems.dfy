/** What the default session protocol promises, for every run: any interleaving of the two
    peers' handlers with the adapters' fetches, executions and completions. */
module SessionTheorems {
  import opened ByteLayout
  import opened Wrappers
  import opened Projection
  import opened SessionProtocol
  import opened SessionInvariant
  import opened SessionSafety

  // ----- key exchange -----

  lemma HandlerStays(p: Peer, base: seq<byte>)
    requires p.cq != [] && |p.recvBuf| >= DESCRIPTOR_SIZE && Handle(p, base).Ok?
    ensures Handle(p, base).value.desc == p.desc
  {
  }

  lemma SinksStay(s: System, step: Step)
    requires Enabled(s, step) && Apply(s, step).Ok?
    ensures var t := Apply(s, step).value; t.left.desc == s.left.desc && t.right.desc == s.right.desc
  {
    if step.HandleStep? {
      HandlerStays(s.Mine(step.side), step.base);
      assert Apply(s, step).value == s.With(step.side, Handle(s.Mine(step.side), step.base).value, s.Theirs(step.side));
    }
  }

  /** Nobody's sink moves. */
  lemma {:induction false} SinksFixed(s: System, steps: seq<Step>)
    requires Runs(s, steps) && Outcome(s, steps).Ok?
    ensures var t := Outcome(s, steps).value; t.left.desc == s.left.desc && t.right.desc == s.right.desc
    decreases |steps|
  {
    if steps != [] {
      SinksStay(s, steps[0]);
      SinksFixed(Apply(s, steps[0]).value, steps[1..]);
    }
  }

  /** Whenever a peer is about to handle REQUEST_EXCHANGE_KEY, `recv_buffer` decodes to the
      sink the other peer allocated, whatever has landed there since and whenever the
      adapter fetched its sources; and no descriptor has been inserted before. */
  lemma KeyExchanged(s: System, steps: seq<Step>, t: System, side: Side)
    requires Reaches(s, steps, t)
    requires t.Mine(side).cq != [] && t.Mine(side).cq[0] == RecvDone(RequestExchangeKey)
    ensures |t.Mine(side).recvBuf| >= DESCRIPTOR_SIZE
    ensures DecodeDescriptor(t.Mine(side).recvBuf) == s.Theirs(side).desc
    ensures t.Mine(side).peerSink == None
  {
    ReachedInv(s, steps, t);
    SinksFixed(s, steps);
    RequestDecodes(t.Mine(side), t.Theirs(side));
  }

  // ----- read-back -----

  /** Every READ completion finds in `read_buffer` the text this side last wrote to the
      peer's sink, and every WRITE completion finds it in that sink. */
  lemma ReadBack(s: System, steps: seq<Step>, t: System, side: Side, i: nat)
    requires Reaches(s, steps, t) && i < |t.Mine(side).cq|
    ensures var p, q := t.Mine(side), t.Theirs(side);
      && (p.cq[i].ReadDone? ==> Shows(p.readBuf, p.lastText))
      && (p.cq[i].WriteDone? ==> Shows(q.sink, p.lastText))
  {
    ReachedInv(s, steps, t);
    var p, q := t.Mine(side), t.Theirs(side);
    assert CompletedItem(p.cq[i], p.lastText, p.readBuf, q.sink);
  }

  /** Exactly one WRITE or READ is between its post and its handler once the peer's
      descriptor is known, none before; so no lookup of the descriptor ever fails. */
  lemma OneLoop(s: System, steps: seq<Step>, t: System, side: Side)
    requires Reaches(s, steps, t)
    ensures var p := t.Mine(side); var l := LedgerOf(p);
      && l.posted + l.executed + l.completed == (if RequestExchangeKey in p.got then 1 else 0)
      && p.peerSink == (if RequestExchangeKey in p.got then Some(s.Theirs(side).desc) else None)
      && forall i | 0 <= i < |p.cq| && (p.cq[i].WriteDone? || p.cq[i].ReadDone?) :: p.peerSink.Some?
  {
    ReachedInv(s, steps, t);
    SinksFixed(s, steps);
    PhaseOrder(s, steps, t, side);
    var p := t.Mine(side);
    if |p.got| >= 2 {
      assert p.got[1] == RequestExchangeKey;
    }
    forall i | 0 <= i < |p.cq| && (p.cq[i].WriteDone? || p.cq[i].ReadDone?) ensures p.peerSink.Some? {
      CollectMember(p.cq, i, OneSidedDone);
    }
  }

  /** Every WRITE and READ that is pending names the other side's sink and stays within it; a READ asks
      for all of its 10000 bytes. */
  lemma SinkNamed(s: System, steps: seq<Step>, t: System, side: Side, i: nat)
    requires Reaches(s, steps, t) && i < |t.Mine(side).sq|
    ensures match t.Mine(side).sq[i].wr
      case Write(len, target, _) => target == s.Theirs(side).desc && len <= 10000
      case Read(len, source) => source == s.Theirs(side).desc && len == 10000
      case Send(len, _) => len <= 2560
    ensures s.Theirs(side).desc.length == 10000
  {
    ReachedInv(s, steps, t);
    SinksFixed(s, steps);
    var p, q := t.Mine(side), t.Theirs(side);
    assert PostedItem(p.sq[i], q.desc, p.lastText, p.writeBuf, q.sink);
    assert SendItem(p.sq[i], |p.got| <= 2, KeyImage(p));
  }

  // ----- the barrier -----

  predicate Gate(s: System) {
    && (s.left.stage.Running? ==> !s.right.stage.Fresh?)
    && (s.right.stage.Running? ==> !s.left.stage.Fresh?)
  }

  lemma StageStays(p: Peer, base: seq<byte>)
    requires p.cq != [] && |p.recvBuf| >= DESCRIPTOR_SIZE && Handle(p, base).Ok?
    ensures Handle(p, base).value.stage == p.stage
  {
  }

  lemma GateKept(s: System, step: Step)
    requires Gate(s) && Enabled(s, step) && Apply(s, step).Ok?
    ensures Gate(Apply(s, step).value)
  {
    if step.HandleStep? {
      StageStays(s.Mine(step.side), step.base);
      assert Apply(s, step).value == s.With(step.side, Handle(s.Mine(step.side), step.base).value, s.Theirs(step.side));
    }
  }

  lemma {:induction false} GateHolds(s: System, steps: seq<Step>)
    requires Gate(s) && Runs(s, steps) && Outcome(s, steps).Ok?
    ensures Gate(Outcome(s, steps).value)
    decreases |steps|
  {
    if steps != [] {
      GateKept(s, steps[0]);
      GateHolds(Apply(s, steps[0]).value, steps[1..]);
    }
  }

  /** No side greets the other, or handles anything, before the other has posted its receives. */
  lemma BarrierHeld(s: System, steps: seq<Step>, t: System, side: Side)
    requires Reaches(s, steps, t) && t.Mine(side).stage.Running?
    ensures !t.Theirs(side).stage.Fresh?
    ensures t.Theirs(side).rq + |Collect(t.Theirs(side).cq, ReceiveDone)| == 2
  {
    GateHolds(s, steps);
    ReachedInv(s, steps, t);
  }

  // ----- phases and tokens -----

  /** Each peer sends SYNC, REQUEST, RESPONSE and then UNSET for ever, and handles the
      other's messages in the order they were sent. */
  lemma PhaseOrder(s: System, steps: seq<Step>, t: System, side: Side)
    requires Reaches(s, steps, t)
    ensures var p, q := t.Mine(side), t.Theirs(side);
      && (|p.sent| > 0 ==> p.sent[0] == TestForSyncData)
      && (|p.sent| > 1 ==> p.sent[1] == RequestExchangeKey)
      && (|p.sent| > 2 ==> p.sent[2] == ResponseExchangeKey)
      && (forall k | 3 <= k < |p.sent| :: p.sent[k] == Unset)
      && p.got <= q.sent
      && (forall k | 0 <= k < |p.got| :: p.got[k] == RequestExchangeKey <==> k == 1)
  {
    ReachedInv(s, steps, t);
    var p, q := t.Mine(side), t.Theirs(side);
    assert p.got <= q.sent;
    forall k | 0 <= k < |p.got| ensures p.got[k] == TagAt(k) {
      assert p.got[k] == q.sent[k];
    }
  }

  /** SENDs of `p` posted but not handled by `q`. */
  function Tokens(p: Peer, q: Peer): nat {
    |Collect(p.sq, SendTag)| + |Collect(q.cq, RecvTag)|
  }

  /** Two SENDs circulate, once both peers run; each peer has sent one more than it handled. */
  lemma TokenConservation(s: System, steps: seq<Step>, t: System)
    requires Reaches(s, steps, t) && t.left.stage.Running? && t.right.stage.Running?
    ensures Tokens(t.left, t.right) + Tokens(t.right, t.left) == 2
    ensures |t.left.sent| == |t.left.got| + 1 && |t.right.sent| == |t.right.got| + 1
    ensures t.right.got + Collect(t.right.cq, RecvTag) + Collect(t.left.sq, SendTag) == t.left.sent
    ensures t.left.got + Collect(t.left.cq, RecvTag) + Collect(t.right.sq, SendTag) == t.right.sent
  {
    ReachedInv(s, steps, t);
  }

  // ----- receives -----

  function Consumes(it: Posted): seq<()> {
    if NeedsReceive(it.wr) then [()] else []
  }

  lemma {:induction false} ConsumesSplit(sq: seq<Posted>)
    ensures |Collect(sq, Consumes)| == |Collect(sq, SendTag)| + |Collect(sq, Notice)|
  {
    if sq != [] {
      ConsumesSplit(sq[1..]);
    }
  }

  lemma {:induction false} ReceivesSplit(cq: seq<Completion>)
    ensures |Collect(cq, ReceiveDone)| == |Collect(cq, RecvTag)| + |Collect(cq, NoticeDone)|
  {
    if cq != [] {
      ReceivesSplit(cq[1..]);
    }
  }

  /** Posted receives and received but unhandled messages make two. At most three requests
      that need a receive are on their way to a peer, so when it has none posted at most
      one waits for it. */
  lemma ReceiveBound(s: System, steps: seq<Step>, t: System, side: Side)
    requires Reaches(s, steps, t) && !t.Theirs(side).stage.Fresh?
    ensures var p, q := t.Mine(side), t.Theirs(side);
      var waiting, arrived := |Collect(p.sq, Consumes)|, |Collect(q.cq, ReceiveDone)|;
      && q.rq + arrived == 2
      && waiting + arrived <= 3
      && (q.rq == 0 ==> waiting <= 1)
  {
    ReachedInv(s, steps, t);
    var p, q := t.Mine(side), t.Theirs(side);
    ConsumesSplit(p.sq);
    ReceivesSplit(q.cq);
    InStep(p, q);
    InStep(q, p);
  }

  // ----- deadlock freedom -----

  /** A step that gets something done: a first fetch, an execution, a completion. */
  predicate AdapterProgress(s: System, step: Step) {
    && Enabled(s, step)
    && match step
       case FetchStep(side, i) => s.Mine(side).sq[i].data.None?
       case DeliverStep(_) => true
       case AckStep(_) => true
       case _ => false
  }

  /** When the adapters have nothing left to do, some handler can run: a request that waits
      for a receive waits for completions its peer has not handled. */
  lemma DeadlockFree(s: System, steps: seq<Step>, t: System)
    requires Reaches(s, steps, t) && t.left.stage.Running? && t.right.stage.Running?
    requires forall step :: !AdapterProgress(t, step)
    ensures Enabled(t, HandleStep(Left, [])) || Enabled(t, HandleStep(Right, []))
  {
    ReachedInv(s, steps, t);
    if t.left.cq == [] && t.right.cq == [] {
      assert t.left.rq == t.right.rq == 2;
      TokenConservation(s, steps, t);
      if t.left.sq != [] {
        HeadMoves(t.left, t.right, t, Left);
      } else {
        HeadMoves(t.right, t.left, t, Right);
      }
    }
  }

  lemma HeadMoves(p: Peer, q: Peer, t: System, side: Side)
    requires Both(p, q) && p.sq != [] && q.rq > 0 && p == t.Mine(side) && q == t.Theirs(side)
    ensures AdapterProgress(t, FetchStep(side, 0)) || AdapterProgress(t, DeliverStep(side))
  {
    var it := p.sq[0];
    assert SendItem(it, |p.got| <= 2, KeyImage(p));
    assert PostedItem(it, q.desc, p.lastText, p.writeBuf, q.sink);
    if !it.wr.Read? && it.data.None? {
      assert AdapterProgress(t, FetchStep(side, 0));
    } else {
      assert AdapterProgress(t, DeliverStep(side));
    }
  }

  function Unfetched(it: Posted): seq<()> {
    if !it.wr.Read? && it.data.None? then [()] else []
  }

  function WorkOf(p: Peer): nat {
    2 * |p.sq| + |p.acks| + |Collect(p.sq, Unfetched)|
  }

  function Work(s: System): nat {
    WorkOf(s.left) + WorkOf(s.right)
  }

  lemma {:induction false} FirstFetch(sq: seq<Posted>, i: nat, data: seq<byte>)
    requires i < |sq| && !sq[i].wr.Read? && sq[i].data.None?
    ensures |Collect(sq[i := sq[i].(data := Some(data))], Unfetched)| == |Collect(sq, Unfetched)| - 1
  {
    var sq' := sq[i := sq[i].(data := Some(data))];
    if i == 0 {
      assert sq'[1..] == sq[1..];
    } else {
      assert sq'[1..] == sq[1..][i - 1 := sq[i].(data := Some(data))];
      FirstFetch(sq[1..], i - 1, data);
    }
  }

  /** The adapters cannot keep busy on their own: between two handlers they get done at most
      `Work` things, after which `DeadlockFree` applies. */
  lemma AdaptersCalmDown(s: System, step: Step)
    requires AdapterProgress(s, step) && Apply(s, step).Ok?
    ensures Work(Apply(s, step).value) < Work(s)
  {
    var p := s.Mine(step.side);
    if step.FetchStep? {
      var wr := p.sq[step.index].wr;
      var source := if wr.Send? then p.sendBuf else p.writeBuf;
      FirstFetch(p.sq, step.index, source[..wr.len]);
    }
  }

  // ----- handlers -----

  /** Wherever a run stops, a handler fails a CHECK exactly when a text it formats is too long: the
      answer to a message that is not a greeting has to fit 2560 bytes, and a text with its heading
      of 24 bytes has to fit 10000. */
  lemma ChecksHold(s: System, steps: seq<Step>, t: System, side: Side, base: seq<byte>)
    requires Reaches(s, steps, t) && t.Mine(side).stage.Running? && t.Mine(side).cq != []
    ensures |t.Mine(side).recvBuf| >= DESCRIPTOR_SIZE
    ensures Handle(t.Mine(side), base).Ok? <==> match t.Mine(side).cq[0]
      case RecvDone(tag) => tag == TestForSyncData || |base| <= 2560
      case ReadDone => |base| <= 9976
      case _ => true
  {
    ReachedInv(s, steps, t);
    CompletionHandled(t.Mine(side), t.Theirs(side), base);
  }
}
