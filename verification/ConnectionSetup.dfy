/** Connection setup: two end points exchange adapter information and one-byte barriers over
    their byte streams and move their queue pairs to RTS, again after every reset. */
module ConnectionSetup {
  import opened ByteLayout
  import opened Wrappers

  // ----- AdapterInfo -----

  /** `AdapterInfo`: who the adapter is and how to reach its queue pair. */
  datatype AdapterInfo = AdapterInfo(
    gid: seq<byte>, qpNum: nat, lid: nat, linkLayer: nat, mtu: nat, uniqueId: seq<byte>)
  {
    predicate Representable() {
      && |gid| == 16 && qpNum < Pow256(4) && lid < Pow256(2) && linkLayer < Pow256(1) && mtu < Pow256(4)
      && |uniqueId| == 128
    }
  }

  const INFO_SIZE: nat := 155

  /** The packed layout: gid 16, qp_num 4, lid 2, link_layer 1, active_mtu 4, unique_id 128. */
  function EncodeInfo(i: AdapterInfo): (r: seq<byte>)
    requires i.Representable()
    ensures |r| == INFO_SIZE
  {
    i.gid + EncodeLE(i.qpNum, 4) + EncodeLE(i.lid, 2) + EncodeLE(i.linkLayer, 1) + EncodeLE(i.mtu, 4) + i.uniqueId
  }

  function DecodeInfo(s: seq<byte>): AdapterInfo
    requires |s| == INFO_SIZE
  {
    AdapterInfo(s[..16], DecodeLE(s[16..20]), DecodeLE(s[20..22]), DecodeLE(s[22..23]), DecodeLE(s[23..27]), s[27..])
  }

  lemma DecodeEncodeInfo(i: AdapterInfo)
    requires i.Representable()
    ensures DecodeInfo(EncodeInfo(i)) == i
  {
    var e := EncodeInfo(i);
    assert e[..16] == i.gid && e[27..] == i.uniqueId;
    assert e[16..20] == EncodeLE(i.qpNum, 4) && e[20..22] == EncodeLE(i.lid, 2);
    assert e[22..23] == EncodeLE(i.linkLayer, 1) && e[23..27] == EncodeLE(i.mtu, 4);
    DecodeEncodeLE(i.qpNum, 4);
    DecodeEncodeLE(i.lid, 2);
    DecodeEncodeLE(i.linkLayer, 1);
    DecodeEncodeLE(i.mtu, 4);
  }

  /** Where each field is, numbers with their lowest byte first: the GID in bytes 0 to 15, the number of
      the queue pair in 16 to 19, the LID in 20 and 21, the link layer in 22, the MTU in 23 to 26, the
      name from 27 on. */
  lemma InfoLayout(i: AdapterInfo)
    requires i.Representable()
    ensures var s := EncodeInfo(i);
      && |s| == 155 && i.gid == s[..16] && i.uniqueId == s[27..]
      && i.qpNum == Quad(s, 16) && i.mtu == Quad(s, 23)
      && s[20] == i.lid % 256 && s[21] == i.lid / 256 && s[22] == i.linkLayer
  {
    FourByteNumber(i.qpNum);
    FourByteNumber(i.mtu);
    var s := EncodeInfo(i);
    assert s[27..] == i.uniqueId;
    assert EncodeLE(i.lid, 2) == [i.lid % 256] + EncodeLE(i.lid / 256, 1);
    assert EncodeLE(i.linkLayer, 1) == [i.linkLayer % 256];
    assert Pow256(2) == 256 * Pow256(1) == 65536;
  }

  // ----- the adapter -----

  datatype QpState = QpReset | QpInit | QpRtr | QpRts

  /** The moves that section 10.3.1 of the InfiniBand Architecture Specification Volume 1 allows
      between these states. */
  predicate LegalMove(from: QpState, to: QpState) {
    match to
    case QpReset => true
    case QpInit => from.QpReset? || from.QpInit?
    case QpRtr => from.QpInit?
    case QpRts => from.QpRtr? || from.QpRts?
  }

  const ETHERNET: nat := 2

  /** `info` is what the device reports for this adapter; there is no queue pair before `loading`.
      `remote` is what the adapter has noted of its peer, `dest` the peer its queue pair has been
      programmed with. */
  datatype Adapter = Adapter(
    info: AdapterInfo, gidIndex: int, remote: Option<AdapterInfo>, qp: Option<QpState>, dest: Option<AdapterInfo>)

  function Load(a: Adapter): Adapter {
    if a.qp.Some? then a else a.(qp := Some(QpReset))
  }

  /** A legal move changes the state; the one to RTR programs the peer, the one to RESET forgets
      it. A refused one changes nothing, and nobody looks at its result. */
  function ModifyQp(a: Adapter, to: QpState): Result<Adapter> {
    if a.qp.None? then CheckFailed
    else if !LegalMove(a.qp.value, to) then Ok(a)
    else
      match to
      case QpReset => Ok(a.(qp := Some(to), dest := None))
      case QpRtr => Ok(a.(qp := Some(to), dest := a.remote))
      case _ => Ok(a.(qp := Some(to)))
  }

  /** Where a move ends: RESET is always reached, INIT from RESET and INIT, RTR from INIT only, RTS from
      RTR and RTS; any other move leaves the queue pair where it is. */
  lemma WhereMovesEnd(a: Adapter, to: QpState)
    requires a.qp.Some?
    ensures ModifyQp(a, to).Ok?
    ensures var was, r := a.qp.value, ModifyQp(a, to).value;
      match to
      case QpReset => r == a.(qp := Some(QpReset), dest := None)
      case QpInit => r == if was.QpReset? || was.QpInit? then a.(qp := Some(QpInit)) else a
      case QpRtr => r == if was.QpInit? then a.(qp := Some(QpRtr), dest := a.remote) else a
      case QpRts => r == if was.QpRtr? || was.QpRts? then a.(qp := Some(QpRts)) else a
  {
  }

  /** The checks of `connecting` before the first move: the second one assigns, so that it
      looks at this side's link layer only. */
  function ToInit(a: Adapter, peer: AdapterInfo): Result<Adapter> {
    if peer.uniqueId == [] || peer.uniqueId[0] == 0 || a.info.linkLayer == 0 then CheckFailed
    else ModifyQp(a.(remote := Some(peer)), QpInit)
  }

  function ToRtr(a: Adapter): Result<Adapter> {
    if a.info.linkLayer == ETHERNET && (a.remote.None? || a.remote.value.linkLayer != ETHERNET || a.gidIndex < 0)
    then CheckFailed
    else ModifyQp(a, QpRtr)
  }

  function ToRts(a: Adapter): Result<Adapter> {
    ModifyQp(a, QpRts)
  }

  function ConnectTo(a: Adapter, peer: AdapterInfo): Result<Adapter> {
    var a1 :- ToInit(a, peer);
    var a2 :- ToRtr(a1);
    ToRts(a2)
  }

  /** `unique_id` is not the empty string. */
  predicate Named(peer: AdapterInfo) {
    peer.uniqueId != [] && peer.uniqueId[0] != 0
  }

  /** What the checks ask of the two sides. */
  predicate Accepts(a: Adapter, peer: AdapterInfo) {
    && Named(peer)
    && a.info.linkLayer != 0
    && (a.info.linkLayer == ETHERNET ==> peer.linkLayer == ETHERNET && a.gidIndex >= 0)
  }

  /** `connecting` succeeds exactly if the checks pass, from each of the four states the library
      drives the queue pair through, and always ends in RTS with the new peer noted; it programs
      that peer only from RESET or INIT. */
  lemma ConnectIff(a: Adapter, peer: AdapterInfo)
    ensures ConnectTo(a, peer).Ok? <==> a.qp.Some? && Accepts(a, peer)
    ensures Accepts(a, peer) <==>
      Named(peer) && a.info.linkLayer != 0 && (a.info.linkLayer == 2 ==> peer.linkLayer == 2 && a.gidIndex >= 0)
    ensures ConnectTo(a, peer).Ok? ==>
      var unprogrammed := a.qp.value.QpReset? || a.qp.value.QpInit?;
      ConnectTo(a, peer).value ==
        a.(remote := Some(peer), qp := Some(QpRts), dest := if unprogrammed then Some(peer) else a.dest)
  {
  }

  /** So the queue pair talks to the peer that the adapter has noted exactly if it was in RESET or
      INIT, or was programmed with that very peer before: connecting anew takes a reset. */
  lemma ProgrammedIff(a: Adapter, peer: AdapterInfo)
    requires ConnectTo(a, peer).Ok?
    ensures var c := ConnectTo(a, peer).value;
      c.dest == c.remote <==> a.qp.value.QpReset? || a.qp.value.QpInit? || a.dest == Some(peer)
  {
    ConnectIff(a, peer);
  }

  /** Connecting a second time without a reset keeps the first peer. */
  lemma ConnectTwice(a: Adapter, first: AdapterInfo, second: AdapterInfo)
    requires a.qp == Some(QpReset) && Accepts(a, first) && Accepts(a, second)
    ensures ConnectTo(a, first).Ok? && ConnectTo(ConnectTo(a, first).value, second).Ok?
    ensures var c := ConnectTo(ConnectTo(a, first).value, second).value;
      c.qp == Some(QpRts) && c.remote == Some(second) && c.dest == Some(first)
  {
    ConnectIff(a, first);
    ConnectIff(ConnectTo(a, first).value, second);
  }

  /** Two adapters take each other exactly if both report a link layer, agree on whether it is
      Ethernet, and have a GID index if it is. */
  lemma MutualIff(a: Adapter, b: Adapter)
    requires Named(a.info) && Named(b.info)
    ensures Accepts(a, b.info) && Accepts(b, a.info) <==>
      && a.info.linkLayer != 0 && b.info.linkLayer != 0
      && (a.info.linkLayer == 2 <==> b.info.linkLayer == 2)
      && (a.info.linkLayer == 2 ==> a.gidIndex >= 0 && b.gidIndex >= 0)
  {
  }

  /** By the numbers of verbs, link layer 0 is unspecified, 1 InfiniBand and 2 Ethernet. An InfiniBand
      adapter takes every peer that has a name, whatever the peer's link layer and its own GID index;
      an Ethernet adapter takes Ethernet peers only, and only with a GID index that is not negative. */
  lemma LinkLayers(a: Adapter, peer: AdapterInfo)
    requires a.qp.Some?
    ensures a.info.linkLayer == 0 ==> ConnectTo(a, peer) == CheckFailed
    ensures a.info.linkLayer == 1 ==> (ConnectTo(a, peer).Ok? <==> Named(peer))
    ensures a.info.linkLayer == 2 ==>
      (ConnectTo(a, peer).Ok? <==> Named(peer) && peer.linkLayer == 2 && a.gidIndex >= 0)
    ensures ConnectTo(a, peer).Ok? <==> Accepts(a, peer)
  {
    ConnectIff(a, peer);
  }

  // ----- end points -----

  /** Where an end point is: in its constructor (New, Testing), between calls (Built, Connected,
      Cleared after `reset_hca`), or inside `connecting`. Testing, Exchanging and Waiting are
      inside `sock_sync_data`. */
  datatype Place =
    | New | Testing | Built
    | Exchanging | Informed | Initialised | Receiving | Sending | Waiting
    | Connected | Cleared
  {
    predicate InCall() {
      Testing? || Exchanging? || Waiting?
    }
  }

  /** `sent` and `got` are the frames of the calls made and completed, `piece` the part of the
      present one, `coming` the bytes on their way here; `round` counts the resets begun. */
  datatype EndPoint = EndPoint(
    adapter: Adapter, place: Place, round: nat,
    sent: seq<seq<byte>>, got: seq<seq<byte>>, piece: seq<byte>, coming: seq<byte>)

  const Q: seq<byte> := [81]

  /** Call 0 is the constructor's; every connect makes two more. */
  function FrameSize(k: nat): (n: nat)
    ensures n > 0
  {
    if k % 2 == 1 then INFO_SIZE else 1
  }

  function Frame(info: AdapterInfo, k: nat): (f: seq<byte>)
    requires info.Representable()
    ensures |f| == FrameSize(k)
  {
    if k % 2 == 1 then EncodeInfo(info) else Q
  }

  datatype Pair = Pair(mine: EndPoint, theirs: EndPoint)

  datatype Act = TestSync | ResetHca | SyncInfo | Take(n: nat) | MoveInit | MoveRtr | MoveRts | SyncBarrier

  /** The move of the queue pair that an action makes, if any, is one that verbs accepts. */
  predicate LegalAct(a: Adapter, act: Act) {
    match act
    case ResetHca => a.qp.Some? && LegalMove(a.qp.value, QpReset)
    case MoveInit => a.qp.Some? && LegalMove(a.qp.value, QpInit)
    case MoveRtr => a.qp.Some? && LegalMove(a.qp.value, QpRtr)
    case MoveRts => a.qp.Some? && LegalMove(a.qp.value, QpRts)
    case _ => true
  }

  predicate Enabled(p: EndPoint, act: Act) {
    match act
    case TestSync => p.place.New?
    case ResetHca => p.place.Connected?
    case SyncInfo => p.adapter.info.Representable() && (p.place.Built? || p.place.Cleared?)
    case Take(n) => p.place.InCall() && 0 < n <= |p.coming| && |p.piece| + n <= FrameSize(|p.got|)
    case MoveInit => p.place.Informed? && p.got != [] && |p.got[|p.got| - 1]| == INFO_SIZE
    case MoveRtr => p.place.Initialised?
    case MoveRts => p.place.Receiving?
    case SyncBarrier => p.place.Sending?
  }

  /** `sock_sync_data` begins: the frame goes out whole. */
  function Enter(p: EndPoint, q: EndPoint, f: seq<byte>, place: Place): Pair {
    Pair(p.(sent := p.sent + [f], place := place), q.(coming := q.coming + f))
  }

  function AfterCall(place: Place): Place
    requires place.InCall()
  {
    match place
    case Testing => Built
    case Exchanging => Informed
    case Waiting => Connected
  }

  /** One `recv` inside the call; the call returns with its last byte. */
  function Taken(p: EndPoint, n: nat): EndPoint
    requires Enabled(p, Take(n))
  {
    var piece := p.piece + p.coming[..n];
    var next := p.(piece := piece, coming := p.coming[n..]);
    if |piece| < FrameSize(|p.got|) then next
    else next.(got := p.got + [piece], piece := [], place := AfterCall(p.place))
  }

  function Apply(p: EndPoint, q: EndPoint, act: Act): Result<Pair>
    requires Enabled(p, act)
  {
    match act
    case TestSync => Ok(Enter(p, q, Q, Testing))
    case ResetHca =>
      var a :- ModifyQp(p.adapter, QpReset);
      Ok(Pair(p.(adapter := a, place := Cleared, round := p.round + 1), q))
    case SyncInfo => Ok(Enter(p.(adapter := Load(p.adapter)), q, EncodeInfo(p.adapter.info), Exchanging))
    case Take(n) => Ok(Pair(Taken(p, n), q))
    case MoveInit =>
      var a :- ToInit(p.adapter, DecodeInfo(p.got[|p.got| - 1]));
      Ok(Pair(p.(adapter := a, place := Initialised), q))
    case MoveRtr =>
      var a :- ToRtr(p.adapter);
      Ok(Pair(p.(adapter := a, place := Receiving), q))
    case MoveRts =>
      var a :- ToRts(p.adapter);
      Ok(Pair(p.(adapter := a, place := Sending), q))
    case SyncBarrier => Ok(Enter(p, q, Q, Waiting))
  }

  // ----- two end points -----

  datatype System = System(left: EndPoint, right: EndPoint)

  datatype Step = Step(isLeft: bool, act: Act)

  function Mine(s: System, isLeft: bool): EndPoint {
    if isLeft then s.left else s.right
  }

  function With(isLeft: bool, pair: Pair): System {
    if isLeft then System(pair.mine, pair.theirs) else System(pair.theirs, pair.mine)
  }

  predicate StepEnabled(s: System, step: Step) {
    Enabled(Mine(s, step.isLeft), step.act)
  }

  function StepApply(s: System, step: Step): Result<System>
    requires StepEnabled(s, step)
  {
    var pair :- Apply(Mine(s, step.isLeft), Mine(s, !step.isLeft), step.act);
    Ok(With(step.isLeft, pair))
  }

  predicate Runs(s: System, steps: seq<Step>)
    decreases |steps|
  {
    steps == [] ||
    (StepEnabled(s, steps[0]) && (StepApply(s, steps[0]).Ok? ==> Runs(StepApply(s, steps[0]).value, steps[1..])))
  }

  function Outcome(s: System, steps: seq<Step>): Result<System>
    requires Runs(s, steps)
    decreases |steps|
  {
    if steps == [] then Ok(s)
    else
      var next :- StepApply(s, steps[0]);
      Outcome(next, steps[1..])
  }

  /** Just accepted: `unique_id` holds the adapter's name, which is not empty. */
  predicate Fresh(p: EndPoint) {
    && p.place.New? && p.round == 0 && p.sent == [] && p.got == [] && p.piece == [] && p.coming == []
    && p.adapter.info.Representable() && p.adapter.info.uniqueId[0] != 0
    && p.adapter.qp == None && p.adapter.remote == None && p.adapter.dest == None
  }

  predicate Initial(s: System) {
    Fresh(s.left) && Fresh(s.right)
  }
}
