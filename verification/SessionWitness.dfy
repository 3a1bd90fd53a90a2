/** What the default session protocol does not promise: the text of the greeting. */
module SessionWitness {
  import opened ByteLayout
  import opened Wrappers
  import opened SessionProtocol
  import opened SessionInvariant
  import opened SessionSafety
  import opened SessionGreeting

  lemma {:induction false} OneMore(s: System, steps: seq<Step>, t: System, step: Step)
    requires Runs(s, steps) && Outcome(s, steps) == Ok(t) && Enabled(t, step)
    ensures Runs(s, steps + [step]) && Outcome(s, steps + [step]) == Apply(t, step)
    decreases |steps|
  {
    if steps == [] {
      assert (steps + [step])[0] == step && (steps + [step])[1..] == [];
    } else {
      assert (steps + [step])[0] == steps[0] && (steps + [step])[1..] == steps[1..] + [step];
      OneMore(Apply(s, steps[0]).value, steps[1..], t, step);
    }
  }

  /** A run ends in `t`, after the left peer's greeting was last fetched when it had handled `at` messages. */
  predicate Gets(s: System, steps: seq<Step>, t: System, at: Option<nat>) {
    Reaches(s, steps, t) && FetchedAt(s, steps, Left, None) == at
  }

  lemma {:induction false} FetchedSnoc(s: System, steps: seq<Step>, t: System, step: Step, at: Option<nat>)
    requires Runs(s, steps) && Outcome(s, steps) == Ok(t) && Enabled(t, step) && Apply(t, step).Ok?
    ensures Runs(s, steps + [step])
    ensures FetchedAt(s, steps + [step], Left, at) == Refetch(t, step, Left, FetchedAt(s, steps, Left, at))
    decreases |steps|
  {
    OneMore(s, steps, t, step);
    if steps == [] {
      assert (steps + [step])[0] == step && (steps + [step])[1..] == [];
    } else {
      assert (steps + [step])[0] == steps[0] && (steps + [step])[1..] == steps[1..] + [step];
      FetchedSnoc(Apply(s, steps[0]).value, steps[1..], t, step, Refetch(s, steps[0], Left, at));
    }
  }

  /** Extend a run by a step that is enabled and does not fail. */
  lemma Extend(s: System, steps: seq<Step>, t: System, at: Option<nat>, step: Step, u: System)
    returns (more: seq<Step>)
    requires Gets(s, steps, t, at) && Enabled(t, step) && TextFits(step) && Apply(t, step) == Ok(u)
    ensures Gets(s, more, u, Refetch(t, step, Left, at))
  {
    more := steps + [step];
    OneMore(s, steps, t, step);
    FetchedSnoc(s, steps, t, step, None);
  }

  function Started(p: Peer): Peer
    requires |p.hello| <= |p.sendBuf|
  {
    var q := Prepare(p);
    q.(stage := Running, sendBuf := Padded(p.hello, |p.sendBuf|),
       sq := p.sq + [HelloItem(p)], sent := p.sent + [TestForSyncData])
  }

  /** Both peers have started; neither greeting has been fetched. */
  lemma BothStart(s: System) returns (steps: seq<Step>)
    requires Initial(s) && |s.left.hello| <= MESSAGE_SIZE && |s.right.hello| <= MESSAGE_SIZE
    ensures Gets(s, steps, System(Started(s.left), Started(s.right)), None)
  {
    var l, r := s.left, s.right;
    assert Gets(s, [], s, None);
    steps := Extend(s, [], s, None, PrepareStep(Left), System(Prepare(l), r));
    steps := Extend(s, steps, System(Prepare(l), r), None, PrepareStep(Right), System(Prepare(l), Prepare(r)));
    steps := Extend(s, steps, System(Prepare(l), Prepare(r)), None, StartStep(Left), System(Started(l), Prepare(r)));
    steps := Extend(s, steps, System(Started(l), Prepare(r)), None, StartStep(Right), System(Started(l), Started(r)));
  }

  function Fetched(p: Peer): Posted
    requires |p.hello| <= |p.sendBuf|
  {
    HelloItem(p).(data := Some(Padded(p.hello, |p.sendBuf|)[..|p.hello|]))
  }

  /** The right peer's greeting has been delivered to the left one and handled there. */
  function Sender(r: Peer): Peer
    requires |r.hello| <= |r.sendBuf|
  {
    Started(r).(sq := [], acks := r.acks + [Fetched(r)])
  }

  /** The left peer, its greeting pending as `it`, with the other's delivered and not handled. */
  function Hearing(l: Peer, text: seq<byte>, it: Posted): Peer
    requires |l.hello| <= |l.sendBuf| && |text| <= |l.recvBuf|
  {
    Started(l).(recvBuf := Overlay(Zeros(|l.recvBuf|), text), rq := l.rq + 1, cq := [RecvDone(TestForSyncData)],
                sq := [it])
  }

  function Greeted(l: Peer, text: seq<byte>, it: Posted): Peer
    requires |l.hello| <= |l.sendBuf| && |text| <= |l.recvBuf| && DESCRIPTOR_SIZE <= |l.sendBuf|
  {
    Hearing(l, text, it).(rq := l.rq + 2, cq := [], got := l.got + [TestForSyncData],
                          sendBuf := Padded(EncodeDescriptor(l.desc, l.fd), |l.sendBuf|),
                          sq := [it, Posted(Send(DESCRIPTOR_SIZE, RequestExchangeKey), None)],
                          sent := [TestForSyncData, RequestExchangeKey])
  }

  lemma HandlesSync(l: Peer, l1: Peer, text: seq<byte>, it: Posted)
    requires FreshPeer(l) && |l.hello| <= MESSAGE_SIZE && |text| <= MESSAGE_SIZE
    requires l1 == Hearing(l, text, it)
    ensures Handle(l1, []) == Ok(Greeted(l, text, it))
  {
    SyncHandled(l1, []);
    var g := Greeted(l, text, it);
    var a := AfterAnswer(l1, KeyImage(l1), DESCRIPTOR_SIZE, RequestExchangeKey);
    assert a.cq == g.cq && a.got == g.got && a.sent == g.sent && a.sq == g.sq;
    assert a.sendBuf == g.sendBuf && a.rq == g.rq;
  }

  lemma DeliversSync(l: Peer, r: Peer, l1: Peer, r1: Peer, it: Posted)
    requires FreshPeer(l) && FreshPeer(r) && |r.hello| <= MESSAGE_SIZE && |l.hello| <= MESSAGE_SIZE
    requires l1 == Started(l).(sq := [it]) && r1 == Started(r).(sq := [Fetched(r)])
    ensures CanDeliver(r1, l1) && |Fetched(r).data.value| <= |l.recvBuf|
    ensures Deliver(r1, l1) == Ok((Sender(r), Hearing(l, Fetched(r).data.value, it)))
  {
    assert r1.sq[1..] == [] && l1.cq + [RecvDone(TestForSyncData)] == [RecvDone(TestForSyncData)];
    var (a, b) := Deliver(r1, l1).value;
    assert a.acks == Sender(r).acks && a == Sender(r);
    assert b.recvBuf == Overlay(Zeros(|l.recvBuf|), Fetched(r).data.value);
  }

  /** The left peer, its own greeting pending as `it`, hears the other's and answers. */
  lemma LeftAnswers(s: System, steps: seq<Step>, it: Posted, at: Option<nat>) returns (more: seq<Step>)
    requires Initial(s) && |s.left.hello| <= MESSAGE_SIZE && |s.right.hello| <= MESSAGE_SIZE
    requires Gets(s, steps, System(Started(s.left).(sq := [it]), Started(s.right)), at)
    ensures |Fetched(s.right).data.value| <= MESSAGE_SIZE
    ensures Gets(s, more, System(Greeted(s.left, Fetched(s.right).data.value, it), Sender(s.right)), at)
  {
    var l, r := s.left, s.right;
    var l1 := Started(l).(sq := [it]);
    var r1 := Started(r).(sq := [Fetched(r)]);
    assert Started(r).sq == [HelloItem(r)] && Started(r).sq[0 := Fetched(r)] == [Fetched(r)];
    more := Extend(s, steps, System(l1, Started(r)), at, FetchStep(Right, 0), System(l1, r1));
    var text := Fetched(r).data.value;
    DeliversSync(l, r, l1, r1, it);
    var l2 := Hearing(l, text, it);
    more := Extend(s, more, System(l1, r1), at, DeliverStep(Right), System(l2, Sender(r)));
    HandlesSync(l, l2, text, it);
    more := Extend(s, more, System(l2, Sender(r)), at, HandleStep(Left, []), System(Greeted(l, text, it), Sender(r)));
  }

  /** From any start there is a run in which the left peer's greeting, fetched only after its send
      buffer has been refilled, arrives as the first bytes of its descriptor instead. */
  lemma GreetingLost(s: System) returns (steps: seq<Step>, t: System)
    requires Initial(s) && |s.left.hello| <= MESSAGE_SIZE && |s.right.hello| <= MESSAGE_SIZE
    ensures Gets(s, steps, t, Some(1)) && t.right.got == [] && t.right.cq == [RecvDone(TestForSyncData)]
    ensures |s.left.hello| <= |t.right.recvBuf|
    ensures t.right.recvBuf[..|s.left.hello|]
      == Padded(EncodeDescriptor(s.left.desc, s.left.fd), MESSAGE_SIZE)[..|s.left.hello|]
  {
    var l, r := s.left, s.right;
    steps := BothStart(s);
    assert Started(l) == Started(l).(sq := [HelloItem(l)]);
    steps := LeftAnswers(s, steps, HelloItem(l), None);
    var a, b := Greeted(l, Fetched(r).data.value, HelloItem(l)), Sender(r);
    var data := a.sendBuf[..|l.hello|];
    var a1 := a.(sq := [HelloItem(l).(data := Some(data)), a.sq[1]]);
    assert a.sq[0 := HelloItem(l).(data := Some(data))] == a1.sq;
    steps := Extend(s, steps, System(a, b), None, FetchStep(Left, 0), System(a1, b));
    t := Apply(System(a1, b), DeliverStep(Left)).value;
    steps := Extend(s, steps, System(a1, b), Some(1), DeliverStep(Left), t);
  }

  /** The left peer's greeting is fetched before anything is handled, and not delivered yet when the
      left peer has answered the other's. */
  lemma FetchedInTime(s: System) returns (steps: seq<Step>)
    requires Initial(s) && |s.left.hello| <= MESSAGE_SIZE && |s.right.hello| <= MESSAGE_SIZE
    ensures |Fetched(s.right).data.value| <= MESSAGE_SIZE
    ensures var l := Greeted(s.left, Fetched(s.right).data.value, Fetched(s.left));
      Gets(s, steps, System(l, Sender(s.right)), Some(0))
  {
    var l, r := s.left, s.right;
    steps := BothStart(s);
    var l1 := Started(l).(sq := [Fetched(l)]);
    assert Started(l).sq == [HelloItem(l)] && Started(l).sq[0 := Fetched(l)] == [Fetched(l)];
    steps := Extend(s, steps, System(Started(l), Started(r)), None, FetchStep(Left, 0), System(l1, Started(r)));
    steps := LeftAnswers(s, steps, Fetched(l), Some(0));
  }

  /** The left peer's greeting has been delivered too, so that its REQUEST_EXCHANGE_KEY is next. */
  lemma RequestNext(s: System) returns (steps: seq<Step>, t: System)
    requires Initial(s) && |s.left.hello| <= MESSAGE_SIZE && |s.right.hello| <= MESSAGE_SIZE
    ensures Gets(s, steps, t, Some(0)) && t.right.got == [] && t.right.cq == [RecvDone(TestForSyncData)]
    ensures t.left.sq == [Posted(Send(DESCRIPTOR_SIZE, RequestExchangeKey), None)] && t.right.rq == 1
    ensures t.left.sendBuf == Padded(EncodeDescriptor(s.left.desc, s.left.fd), MESSAGE_SIZE)
    ensures |t.right.recvBuf| == MESSAGE_SIZE
  {
    steps := FetchedInTime(s);
    var a, b := Greeted(s.left, Fetched(s.right).data.value, Fetched(s.left)), Sender(s.right);
    t := Apply(System(a, b), DeliverStep(Left)).value;
    steps := Extend(s, steps, System(a, b), Some(0), DeliverStep(Left), t);
  }

  /** And one in which it is fetched in time and arrives, but the descriptor lands on it before the
      right peer has handled it. */
  lemma GreetingCovered(s: System) returns (steps: seq<Step>, t: System)
    requires Initial(s) && |s.left.hello| <= MESSAGE_SIZE && |s.right.hello| <= MESSAGE_SIZE
    ensures Gets(s, steps, t, Some(0)) && t.right.got == []
    ensures t.right.cq == [RecvDone(TestForSyncData), RecvDone(RequestExchangeKey)]
    ensures Shows(t.right.recvBuf, EncodeDescriptor(s.left.desc, s.left.fd))
  {
    var u: System;
    steps, u := RequestNext(s);
    var v := Apply(u, FetchStep(Left, 0)).value;
    steps := Extend(s, steps, u, Some(0), FetchStep(Left, 0), v);
    t := Apply(v, DeliverStep(Left)).value;
    steps := Extend(s, steps, v, Some(0), DeliverStep(Left), t);
  }
}
