/** What connection setup promises, for every run of one connect and any number of resets on
    either side, over streams that are delivered in any pieces. */
module BarrierTheorems {
  import opened ByteLayout
  import opened Wrappers
  import opened TcpStreams
  import opened ConnectionSetup

  // ----- the invariant -----

  /** How many calls an end point has begun and completed. */
  function CallsBegun(p: EndPoint): nat {
    match p.place
    case New => 0
    case Testing | Built | Cleared => 2 * p.round + 1
    case Exchanging | Informed | Initialised | Receiving | Sending => 2 * p.round + 2
    case Waiting | Connected => 2 * p.round + 3
  }

  function CallsDone(p: EndPoint): nat {
    if p.place.InCall() then CallsBegun(p) - 1 else CallsBegun(p)
  }

  predicate Framing(p: EndPoint) {
    && p.adapter.info.Representable() && p.adapter.info.uniqueId[0] != 0
    && |p.sent| == CallsBegun(p) && |p.got| == CallsDone(p)
    && (forall k | 0 <= k < |p.sent| :: p.sent[k] == Frame(p.adapter.info, k))
    && (forall k | 0 <= k < |p.got| :: |p.got[k]| == FrameSize(k))
    && (p.place.New? || p.place.Testing? || p.place.Built? ==> p.round == 0)
    && (if p.place.InCall() then |p.piece| < FrameSize(|p.got|) else p.piece == [])
  }

  /** What `p` has taken and what is on its way to it is what `q` has sent. */
  predicate Link(p: EndPoint, q: EndPoint) {
    Flatten(p.got) + (p.piece + p.coming) == Flatten(q.sent)
  }

  function QpAt(place: Place): Option<QpState> {
    match place
    case New | Testing | Built => None
    case Exchanging | Informed | Cleared => Some(QpReset)
    case Initialised => Some(QpInit)
    case Receiving => Some(QpRtr)
    case Sending | Waiting | Connected => Some(QpRts)
  }

  predicate PastRtr(place: Place) {
    place.Receiving? || place.Sending? || place.Waiting? || place.Connected?
  }

  /** The queue pair is where the program is, and the adapter knows its peer. */
  predicate Knows(a: Adapter, place: Place, round: nat, peer: AdapterInfo) {
    && a.qp == QpAt(place)
    && (place.Initialised? || PastRtr(place) || round > 0 ==> a.remote == Some(peer))
    && (place.Initialised? ==> a.info.linkLayer != 0)
    && (PastRtr(place) || round > 0 ==> Accepts(a, peer))
    && (PastRtr(place) ==> a.dest == Some(peer))
  }

  predicate Known(p: EndPoint, q: EndPoint) {
    Knows(p.adapter, p.place, p.round, q.adapter.info)
  }

  predicate Inv(p: EndPoint, q: EndPoint) {
    Framing(p) && Framing(q) && Link(p, q) && Link(q, p) && Known(p, q) && Known(q, p)
  }

  predicate SystemInv(s: System) {
    Inv(s.left, s.right)
  }

  // ----- frames -----

  lemma FrameSizes(p: EndPoint, q: EndPoint)
    requires Framing(p) && Framing(q)
    ensures Matching(p.got, q.sent) && NoneEmpty(p.got)
  {
    forall k | 0 <= k < |p.got| && k < |q.sent| ensures |p.got[k]| == |q.sent[k]| {
      assert q.sent[k] == Frame(q.adapter.info, k);
    }
    forall k | 0 <= k < |p.got| ensures p.got[k] != [] {
      assert |p.got[k]| == FrameSize(k);
    }
  }

  /** Every frame completed is the other side's frame of the same call. */
  lemma GotIsSent(p: EndPoint, q: EndPoint)
    requires Framing(p) && Framing(q) && Link(p, q)
    ensures |p.got| <= |q.sent| && p.got == q.sent[..|p.got|]
    ensures p.piece + p.coming == Flatten(q.sent[|p.got|..])
  {
    FrameSizes(p, q);
    Framed(p.got, p.piece + p.coming, q.sent);
  }

  /** The information just received is the other adapter's. */
  lemma InfoReceived(p: EndPoint, q: EndPoint)
    requires Framing(p) && Framing(q) && Link(p, q) && p.place.Informed?
    ensures |p.got| > 0 && |p.got[|p.got| - 1]| == INFO_SIZE
    ensures DecodeInfo(p.got[|p.got| - 1]) == q.adapter.info
  {
    GotIsSent(p, q);
    var k := |p.got| - 1;
    assert p.got[k] == q.sent[k] == Frame(q.adapter.info, k) && k % 2 == 1;
    DecodeEncodeInfo(q.adapter.info);
  }

  // ----- steps -----

  lemma EnterFraming(p: EndPoint, a: Adapter, f: seq<byte>, place: Place)
    requires Framing(p) && !p.place.InCall() && place.InCall() && a.info == p.adapter.info
    requires f == Frame(p.adapter.info, |p.sent|)
    requires place.Testing? ==> p.round == 0
    requires CallsBegun(p.(place := place)) == |p.sent| + 1
    ensures Framing(p.(adapter := a, sent := p.sent + [f], place := place))
  {
  }

  lemma EnterLink(p: EndPoint, q: EndPoint, p': EndPoint, f: seq<byte>)
    requires Link(p, q) && Link(q, p) && Framing(q)
    requires p'.sent == p.sent + [f] && p'.got == p.got && p'.piece == p.piece && p'.coming == p.coming
    ensures var q' := q.(coming := q.coming + f); Link(p', q') && Link(q', p') && Framing(q')
  {
    FlattenSnoc(p.sent, f);
    assert Flatten(q.got) + (q.piece + (q.coming + f)) == Flatten(q.got) + (q.piece + q.coming) + f;
  }

  /** A call begins. */
  lemma EnterKeeps(p: EndPoint, q: EndPoint, a: Adapter, f: seq<byte>, place: Place)
    requires Inv(p, q) && !p.place.InCall() && place.InCall() && a.info == p.adapter.info
    requires f == Frame(p.adapter.info, |p.sent|)
    requires place.Testing? ==> p.round == 0
    requires CallsBegun(p.(place := place)) == |p.sent| + 1
    requires Knows(a, place, p.round, q.adapter.info)
    ensures var r := Enter(p.(adapter := a), q, f, place); Inv(r.mine, r.theirs)
  {
    var p' := p.(adapter := a, sent := p.sent + [f], place := place);
    EnterFraming(p, a, f, place);
    EnterLink(p, q, p', f);
  }

  lemma TakeFraming(p: EndPoint, n: nat)
    requires Framing(p) && Enabled(p, Take(n))
    ensures Framing(Taken(p, n))
  {
  }

  lemma TakeLink(p: EndPoint, q: EndPoint, n: nat)
    requires Link(p, q) && Enabled(p, Take(n))
    ensures Link(Taken(p, n), q)
    ensures Taken(p, n).sent == p.sent && Taken(p, n).adapter == p.adapter
  {
    var piece := p.piece + p.coming[..n];
    assert p.coming == p.coming[..n] + p.coming[n..];
    assert piece + p.coming[n..] == p.piece + p.coming;
    if |piece| >= FrameSize(|p.got|) {
      FlattenSnoc(p.got, piece);
      assert Flatten(p.got) + piece + ([] + p.coming[n..]) == Flatten(p.got) + (piece + p.coming[n..]);
    }
  }

  /** The steps that fail: a check of `connecting` that the other adapter does not pass. */
  predicate Rejects(p: EndPoint, q: EndPoint, act: Act) {
    || (act.MoveInit? && p.adapter.info.linkLayer == 0)
    || (act.MoveRtr? && !Accepts(p.adapter, q.adapter.info))
  }

  lemma TakeKnows(p: EndPoint, q: EndPoint, n: nat)
    requires Known(p, q) && Enabled(p, Take(n))
    ensures Known(Taken(p, n), q)
  {
  }

  lemma LinkBack(p: EndPoint, q: EndPoint, p': EndPoint)
    requires Link(q, p) && Known(q, p) && p'.sent == p.sent && p'.adapter.info == p.adapter.info
    ensures Link(q, p') && Known(q, p')
  {
  }

  lemma TakeKeeps(p: EndPoint, q: EndPoint, n: nat)
    requires Inv(p, q) && Enabled(p, Take(n))
    ensures Inv(Taken(p, n), q)
  {
    TakeFraming(p, n);
    TakeLink(p, q, n);
    TakeKnows(p, q, n);
    LinkBack(p, q, Taken(p, n));
  }

  lemma SyncKeeps(p: EndPoint, q: EndPoint, act: Act)
    requires Inv(p, q) && Enabled(p, act) && (act.TestSync? || act.SyncBarrier?)
    ensures var r := Apply(p, q, act); r.Ok? && Inv(r.value.mine, r.value.theirs)
  {
    EnterKeeps(p, q, p.adapter, Q, if act.TestSync? then Testing else Waiting);
  }

  lemma SyncInfoKeeps(p: EndPoint, q: EndPoint)
    requires Inv(p, q) && Enabled(p, SyncInfo)
    ensures var r := Apply(p, q, SyncInfo); r.Ok? && Inv(r.value.mine, r.value.theirs)
  {
    EnterKeeps(p, q, Load(p.adapter), EncodeInfo(p.adapter.info), Exchanging);
  }

  /** A step that touches the adapter only. */
  lemma AdapterStep(p: EndPoint, q: EndPoint, a: Adapter, place: Place, round: nat)
    requires Inv(p, q) && !p.place.InCall() && !place.InCall() && a.info == p.adapter.info
    requires !place.New? && !place.Testing? && !place.Built?
    requires CallsBegun(p.(place := place, round := round)) == CallsBegun(p)
    requires Knows(a, place, round, q.adapter.info)
    ensures Inv(p.(adapter := a, place := place, round := round), q)
  {
    var p' := p.(adapter := a, place := place, round := round);
    assert Link(p', q);
    LinkBack(p, q, p');
  }

  lemma ResetKeeps(p: EndPoint, q: EndPoint)
    requires Inv(p, q) && Enabled(p, ResetHca)
    ensures var r := Apply(p, q, ResetHca); r.Ok? && Inv(r.value.mine, r.value.theirs)
  {
    AdapterStep(p, q, p.adapter.(qp := Some(QpReset), dest := None), Cleared, p.round + 1);
  }

  lemma InitValue(a: Adapter, peer: AdapterInfo)
    requires a.qp == Some(QpReset) && peer.uniqueId != [] && peer.uniqueId[0] != 0
    ensures ToInit(a, peer) ==
      if a.info.linkLayer == 0 then CheckFailed else Ok(a.(remote := Some(peer), qp := Some(QpInit)))
  {
  }

  lemma InitKeeps(p: EndPoint, q: EndPoint)
    requires Inv(p, q) && Enabled(p, MoveInit)
    ensures var r := Apply(p, q, MoveInit);
      if p.adapter.info.linkLayer == 0 then r.CheckFailed? else r.Ok? && Inv(r.value.mine, r.value.theirs)
  {
    InfoReceived(p, q);
    InitValue(p.adapter, q.adapter.info);
    if p.adapter.info.linkLayer != 0 {
      AdapterStep(p, q, p.adapter.(remote := Some(q.adapter.info), qp := Some(QpInit)), Initialised, p.round);
    }
  }

  lemma RtrKeeps(p: EndPoint, q: EndPoint)
    requires Inv(p, q) && Enabled(p, MoveRtr)
    ensures var r := Apply(p, q, MoveRtr);
      if !Accepts(p.adapter, q.adapter.info) then r.CheckFailed? else r.Ok? && Inv(r.value.mine, r.value.theirs)
  {
    if Accepts(p.adapter, q.adapter.info) {
      AdapterStep(p, q, p.adapter.(qp := Some(QpRtr), dest := p.adapter.remote), Receiving, p.round);
    }
  }

  lemma RtsKeeps(p: EndPoint, q: EndPoint)
    requires Inv(p, q) && Enabled(p, MoveRts)
    ensures var r := Apply(p, q, MoveRts); r.Ok? && Inv(r.value.mine, r.value.theirs)
  {
    AdapterStep(p, q, p.adapter.(qp := Some(QpRts)), Sending, p.round);
  }

  /** Every move of a queue pair is legal. */
  lemma ActLegal(p: EndPoint, q: EndPoint, act: Act)
    requires Known(p, q) && Enabled(p, act)
    ensures LegalAct(p.adapter, act)
  {
  }

  /** The only way to fail is a check. */
  lemma ActKeeps(p: EndPoint, q: EndPoint, act: Act)
    requires Inv(p, q) && Enabled(p, act)
    ensures var r := Apply(p, q, act);
      if Rejects(p, q, act) then r.CheckFailed? else r.Ok? && Inv(r.value.mine, r.value.theirs)
  {
    match act
    case TestSync => SyncKeeps(p, q, act);
    case SyncBarrier => SyncKeeps(p, q, act);
    case SyncInfo => SyncInfoKeeps(p, q);
    case Take(n) => TakeKeeps(p, q, n);
    case ResetHca => ResetKeeps(p, q);
    case MoveInit => InitKeeps(p, q);
    case MoveRtr => RtrKeeps(p, q);
    case MoveRts => RtsKeeps(p, q);
  }

  lemma StepKeeps(s: System, step: Step)
    requires SystemInv(s) && StepEnabled(s, step)
    ensures LegalAct(Mine(s, step.isLeft).adapter, step.act)
    ensures var r := StepApply(s, step);
      if Rejects(Mine(s, step.isLeft), Mine(s, !step.isLeft), step.act) then r.CheckFailed?
      else r.Ok? && SystemInv(r.value)
  {
    ActLegal(Mine(s, step.isLeft), Mine(s, !step.isLeft), step.act);
    ActKeeps(Mine(s, step.isLeft), Mine(s, !step.isLeft), step.act);
  }

  // ----- every run -----

  lemma InitInv(s: System)
    requires Initial(s)
    ensures SystemInv(s)
  {
  }

  predicate Reaches(s: System, steps: seq<Step>, t: System) {
    Initial(s) && Runs(s, steps) && Outcome(s, steps) == Ok(t)
  }

  predicate SameAdapters(s: System, t: System) {
    s.left.adapter.info == t.left.adapter.info && s.right.adapter.info == t.right.adapter.info
  }

  lemma AdapterStays(s: System, step: Step)
    requires StepEnabled(s, step) && StepApply(s, step).Ok?
    ensures SameAdapters(s, StepApply(s, step).value)
  {
  }

  lemma {:induction false} RunKeeps(s: System, steps: seq<Step>)
    requires SystemInv(s) && Runs(s, steps) && Outcome(s, steps).Ok?
    ensures SystemInv(Outcome(s, steps).value) && SameAdapters(s, Outcome(s, steps).value)
    decreases |steps|
  {
    if steps != [] {
      StepKeeps(s, steps[0]);
      AdapterStays(s, steps[0]);
      RunKeeps(StepApply(s, steps[0]).value, steps[1..]);
    }
  }

  lemma ReachedInv(s: System, steps: seq<Step>, t: System)
    requires Reaches(s, steps, t)
    ensures SystemInv(t) && SameAdapters(s, t)
  {
    InitInv(s);
    RunKeeps(s, steps);
  }

  /** On a run of one connect and any number of resets on either side, every move of a queue pair
      is one that verbs accepts. */
  lemma MovesLegal(s: System, steps: seq<Step>, t: System, step: Step)
    requires Reaches(s, steps, t) && StepEnabled(t, step)
    ensures LegalAct(Mine(t, step.isLeft).adapter, step.act)
  {
    ReachedInv(s, steps, t);
    StepKeeps(t, step);
  }

  /** Between two adapters that take each other no run fails: every check passes, however many
      resets there are. */
  lemma {:induction false} NoRunFails(s: System, steps: seq<Step>)
    requires SystemInv(s) && Runs(s, steps)
    requires Accepts(s.left.adapter, s.right.adapter.info) && Accepts(s.right.adapter, s.left.adapter.info)
    ensures Outcome(s, steps).Ok?
    decreases |steps|
  {
    if steps != [] {
      StepKeeps(s, steps[0]);
      AcceptanceStays(s, steps[0]);
      NoRunFails(StepApply(s, steps[0]).value, steps[1..]);
    }
  }

  lemma AcceptanceStays(s: System, step: Step)
    requires StepEnabled(s, step) && StepApply(s, step).Ok?
    ensures var t := StepApply(s, step).value;
      && t.left.adapter.gidIndex == s.left.adapter.gidIndex && t.right.adapter.gidIndex == s.right.adapter.gidIndex
      && SameAdapters(s, t)
  {
  }

  // ----- the barrier -----

  /** Once `p` is connected, the other side is in the same round and past its moves, or has
      begun its next reset and waits for `p` to follow. */
  lemma OtherSide(p: EndPoint, q: EndPoint)
    requires Inv(p, q) && p.place.Connected?
    ensures p.round <= q.round <= p.round + 1
    ensures q.round == p.round ==> q.place.Waiting? || q.place.Connected?
    ensures q.round != p.round ==> q.place.Cleared? || q.place.Exchanging?
  {
    GotIsSent(p, q);
    GotIsSent(q, p);
  }

  lemma BothRemotes(p: EndPoint, q: EndPoint)
    requires Inv(p, q) && p.place.Connected?
    ensures p.adapter.qp == Some(QpRts)
    ensures p.adapter.remote == p.adapter.dest == Some(q.adapter.info) && Accepts(p.adapter, q.adapter.info)
    ensures q.adapter.remote == Some(p.adapter.info) && Accepts(q.adapter, p.adapter.info)
  {
    OtherSide(p, q);
  }

  lemma OtherQueuePair(p: EndPoint, q: EndPoint)
    requires Inv(p, q) && p.place.Connected?
    ensures q.adapter.qp == Some(QpRts) <==> q.round == p.round
    ensures q.round == p.round ==> q.adapter.dest == Some(p.adapter.info)
    ensures q.round != p.round ==> q.round == p.round + 1 && q.adapter.qp == Some(QpReset)
  {
    OtherSide(p, q);
    assert q.adapter.qp == QpAt(q.place);
  }

  /** When `connecting` returns on one side, that side's queue pair is in RTS, each side has
      taken the other's information for its remote and passed its checks, and the other queue
      pair is in RTS too unless that side has already begun its next reset. */
  lemma Barrier(s: System, steps: seq<Step>, t: System, isLeft: bool)
    requires Reaches(s, steps, t) && Mine(t, isLeft).place.Connected?
    ensures var p, q := Mine(t, isLeft), Mine(t, !isLeft);
      && p.adapter.qp == Some(QpRts)
      && p.adapter.remote == p.adapter.dest == Some(Mine(s, !isLeft).adapter.info)
      && Accepts(p.adapter, q.adapter.info)
      && q.adapter.remote == Some(Mine(s, isLeft).adapter.info) && Accepts(q.adapter, p.adapter.info)
      && (q.adapter.qp == Some(QpRts) <==> q.round == p.round)
      && (q.round == p.round ==> q.adapter.dest == Some(Mine(s, isLeft).adapter.info))
      && (q.round != p.round ==> q.round == p.round + 1 && q.adapter.qp == Some(QpReset))
  {
    ReachedInv(s, steps, t);
    BothRemotes(Mine(t, isLeft), Mine(t, !isLeft));
    OtherQueuePair(Mine(t, isLeft), Mine(t, !isLeft));
  }

  // ----- progress -----

  /** The whole frame of a call has arrived once the other side has begun that call. */
  lemma Arrived(p: EndPoint, q: EndPoint)
    requires Framing(p) && Framing(q) && Link(p, q)
    ensures |q.sent| > |p.got| ==> |p.piece| + |p.coming| >= FrameSize(|p.got|)
  {
    GotIsSent(p, q);
    if |q.sent| > |p.got| {
      var rest := q.sent[|p.got|..];
      assert rest[0] == Frame(q.adapter.info, |p.got|);
      assert Flatten(rest) == rest[0] + Flatten(rest[1..]);
    }
  }

  /** An end point that waits inside a call for a byte waits for the other to begin the same call. */
  lemma Blocked(p: EndPoint, q: EndPoint)
    requires Inv(p, q) && p.place.InCall() && p.coming == []
    ensures CallsBegun(q) == CallsDone(p)
  {
    GotIsSent(p, q);
    Arrived(p, q);
  }

  predicate CanMove(p: EndPoint) {
    || (p.place.InCall() && p.coming != [])
    || (!p.place.InCall() && !p.place.Connected?)
  }

  lemma MoveExists(p: EndPoint) returns (act: Act)
    requires Framing(p) && CanMove(p)
    ensures Enabled(p, act) && !act.ResetHca?
  {
    match p.place
    case New => act := TestSync;
    case Built => act := SyncInfo;
    case Cleared => act := SyncInfo;
    case Informed =>
      act := MoveInit;
      assert |p.got[|p.got| - 1]| == FrameSize(|p.got| - 1);
    case Initialised => act := MoveRtr;
    case Receiving => act := MoveRts;
    case Sending => act := SyncBarrier;
    case Testing => act := Take(1);
    case Exchanging => act := Take(1);
    case Waiting => act := Take(1);
    case Connected =>
  }

  lemma SomeStep(s: System, isLeft: bool) returns (step: Step)
    requires SystemInv(s)
    requires Mine(s, isLeft).round <= Mine(s, !isLeft).round && !Mine(s, isLeft).place.Connected?
    ensures StepEnabled(s, step) && !step.act.ResetHca?
  {
    var p, q := Mine(s, isLeft), Mine(s, !isLeft);
    if CanMove(p) {
      var act := MoveExists(p);
      step := Step(isLeft, act);
    } else {
      Blocked(p, q);
      if q.place.InCall() && q.coming == [] {
        Blocked(q, p);
        assert false;
      }
      var act := MoveExists(q);
      step := Step(!isLeft, act);
    }
  }

  /** As long as a side that is not ahead in resets has not returned, some step other than a
      reset is possible: no `connecting` waits for ever for a peer that has called it too. */
  lemma Progress(s: System, steps: seq<Step>, t: System, isLeft: bool) returns (step: Step)
    requires Reaches(s, steps, t)
    requires Mine(t, isLeft).round <= Mine(t, !isLeft).round && !Mine(t, isLeft).place.Connected?
    ensures StepEnabled(t, step) && !step.act.ResetHca?
  {
    ReachedInv(s, steps, t);
    step := SomeStep(t, isLeft);
  }

  /** Bytes still to be received and calls and moves still to be made before `connecting` returns. */
  function Remaining(p: EndPoint): int {
    match p.place
    case New => 163
    case Testing => 162 - |p.piece|
    case Built | Cleared => 161
    case Exchanging => 160 - |p.piece|
    case Informed => 5
    case Initialised => 4
    case Receiving => 3
    case Sending => 2
    case Waiting => 1 - |p.piece|
    case Connected => 0
  }

  /** Every step other than a reset brings one side nearer to the end of its connect. */
  lemma StepShortens(p: EndPoint, q: EndPoint, act: Act)
    requires Framing(p) && Enabled(p, act) && !act.ResetHca? && Apply(p, q, act).Ok?
    ensures var r := Apply(p, q, act).value;
      Remaining(r.mine) < Remaining(p) && Remaining(r.theirs) == Remaining(q)
  {
  }

  lemma RemainingBound(p: EndPoint)
    requires Framing(p)
    ensures 0 <= Remaining(p) <= 163
  {
  }

  /** Between resets a run is never longer than what remains, whatever the pieces in which the
      streams deliver. With `Progress`: both sides return. */
  lemma {:induction false} ConnectIsFinite(s: System, steps: seq<Step>)
    requires SystemInv(s) && Runs(s, steps) && Outcome(s, steps).Ok?
    requires forall i | 0 <= i < |steps| :: !steps[i].act.ResetHca?
    ensures |steps| <= Remaining(s.left) + Remaining(s.right)
    decreases |steps|
  {
    if steps == [] {
      RemainingBound(s.left);
      RemainingBound(s.right);
    } else {
      var step := steps[0];
      StepKeeps(s, step);
      StepShortens(Mine(s, step.isLeft), Mine(s, !step.isLeft), step.act);
      ConnectIsFinite(StepApply(s, step).value, steps[1..]);
    }
  }

  // ----- a reset can overtake the return -----

  /** What of an end point does not depend on how its stream is cut. */
  datatype Outline = Outline(place: Place, round: nat, piece: seq<byte>, qp: Option<QpState>)

  function OutlineOf(p: EndPoint): Outline {
    Outline(p.place, p.round, p.piece, p.adapter.qp)
  }

  lemma {:induction false} OneMore(s: System, steps: seq<Step>, t: System, step: Step)
    requires Runs(s, steps) && Outcome(s, steps) == Ok(t) && StepEnabled(t, step)
    ensures Runs(s, steps + [step]) && Outcome(s, steps + [step]) == StepApply(t, step)
    decreases |steps|
  {
    if steps == [] {
      assert (steps + [step])[0] == step && (steps + [step])[1..] == [];
    } else {
      assert (steps + [step])[0] == steps[0] && (steps + [step])[1..] == steps[1..] + [step];
      OneMore(StepApply(s, steps[0]).value, steps[1..], t, step);
    }
  }

  /** Take the next step of the program of one side. */
  lemma Advance(s: System, steps: seq<Step>, t: System, isLeft: bool) returns (more: seq<Step>, u: System)
    requires Reaches(s, steps, t)
    requires Accepts(Mine(t, isLeft).adapter, Mine(t, !isLeft).adapter.info)
    requires var p, q := Mine(t, isLeft), Mine(t, !isLeft);
      p.place.InCall() ==> p.piece == [] && CallsBegun(q) > CallsDone(p)
    ensures Reaches(s, more, u)
    ensures var p, p' := Mine(t, isLeft), Mine(u, isLeft);
      && p'.place == Following(p.place) && p'.piece == []
      && p'.round == p.round + if p.place.Connected? then 1 else 0
    ensures OutlineOf(Mine(u, !isLeft)) == OutlineOf(Mine(t, !isLeft))
    ensures u.left.adapter.gidIndex == t.left.adapter.gidIndex && u.right.adapter.gidIndex == t.right.adapter.gidIndex
    ensures SameAdapters(t, u)
  {
    ReachedInv(s, steps, t);
    var p, q := Mine(t, isLeft), Mine(t, !isLeft);
    var act: Act;
    if p.place.InCall() {
      Arrived(p, q);
      act := Take(FrameSize(|p.got|));
    } else if p.place.Connected? {
      act := ResetHca;
    } else {
      act := MoveExists(p);
    }
    var step := Step(isLeft, act);
    StepKeeps(t, step);
    u := StepApply(t, step).value;
    more := steps + [step];
    OneMore(s, steps, t, step);
    AcceptanceStays(t, step);
    StepPlace(p, q, act);
  }

  function Following(place: Place): Place {
    match place
    case New => Testing
    case Testing => Built
    case Built => Exchanging
    case Cleared => Exchanging
    case Exchanging => Informed
    case Informed => Initialised
    case Initialised => Receiving
    case Receiving => Sending
    case Sending => Waiting
    case Waiting => Connected
    case Connected => Cleared
  }

  lemma StepPlace(p: EndPoint, q: EndPoint, act: Act)
    requires Framing(p) && Enabled(p, act) && Apply(p, q, act).Ok?
    requires act.Take? ==> p.piece == [] && act.n == FrameSize(|p.got|)
    ensures var r := Apply(p, q, act).value;
      && r.mine.place == Following(p.place) && r.mine.piece == []
      && r.mine.round == p.round + (if p.place.Connected? then 1 else 0)
      && OutlineOf(r.theirs) == OutlineOf(q)
  {
  }

  /** Both sides are at the same place of their first connect. */
  predicate Abreast(t: System, place: Place) {
    && t.left.place == t.right.place == place && t.left.round == t.right.round == 0
    && t.left.piece == [] && t.right.piece == []
    && Accepts(t.left.adapter, t.right.adapter.info) && Accepts(t.right.adapter, t.left.adapter.info)
  }

  lemma AdvanceBoth(s: System, steps: seq<Step>, t: System, place: Place) returns (more: seq<Step>, u: System)
    requires Reaches(s, steps, t) && Abreast(t, place) && !place.Connected?
    ensures Reaches(s, more, u) && Abreast(u, Following(place))
  {
    more, u := Advance(s, steps, t, true);
    more, u := Advance(s, more, u, false);
  }

  lemma BothBegin(s: System) returns (steps: seq<Step>, t: System)
    requires Initial(s)
    requires Accepts(s.left.adapter, s.right.adapter.info) && Accepts(s.right.adapter, s.left.adapter.info)
    ensures Reaches(s, steps, t) && Abreast(t, Exchanging)
  {
    assert Reaches(s, [], s);
    steps, t := AdvanceBoth(s, [], s, New);
    steps, t := AdvanceBoth(s, steps, t, Testing);
    steps, t := AdvanceBoth(s, steps, t, Built);
  }

  lemma BothMove(s: System, steps: seq<Step>, t: System) returns (more: seq<Step>, u: System)
    requires Reaches(s, steps, t) && Abreast(t, Exchanging)
    ensures Reaches(s, more, u) && Abreast(u, Waiting)
  {
    more, u := AdvanceBoth(s, steps, t, Exchanging);
    more, u := AdvanceBoth(s, more, u, Informed);
    more, u := AdvanceBoth(s, more, u, Initialised);
    more, u := AdvanceBoth(s, more, u, Receiving);
    more, u := AdvanceBoth(s, more, u, Sending);
  }

  /** One side returns and resets, then the other returns. */
  lemma OneOvertakes(s: System, steps: seq<Step>, t: System) returns (more: seq<Step>, u: System)
    requires Reaches(s, steps, t) && Abreast(t, Waiting)
    ensures Reaches(s, more, u) && u.left.place.Connected? && u.right.place.Cleared?
  {
    more, u := Advance(s, steps, t, false);
    more, u := Advance(s, more, u, false);
    more, u := Advance(s, more, u, true);
  }

  /** Any two adapters that take each other can connect, and then one side can return to find
      the other queue pair in RESET already: the case that `Barrier` makes an exception of. */
  lemma ResetOvertakes(s: System) returns (steps: seq<Step>, t: System)
    requires Initial(s)
    requires Accepts(s.left.adapter, s.right.adapter.info) && Accepts(s.right.adapter, s.left.adapter.info)
    ensures Reaches(s, steps, t)
    ensures t.left.place.Connected? && t.left.adapter.qp == Some(QpRts) && t.right.adapter.qp == Some(QpReset)
  {
    steps, t := BothBegin(s);
    steps, t := BothMove(s, steps, t);
    steps, t := OneOvertakes(s, steps, t);
    ReachedInv(s, steps, t);
  }
}
