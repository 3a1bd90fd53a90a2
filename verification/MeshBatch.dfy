/** Polled batches of the server tower: what it means to route one, and that in every run it
    means polling its entries one at a time. */
module MeshBatch {
  import opened Buffers
  import opened Wrappers
  import opened MeshService
  import opened MeshInvariant
  import opened MeshSharedQueue

  /** Handling a list of completions one after the other. */
  function ServerHandleAll(ch: Channel, events: seq<Event>): Result<Channel>
    requires ch.WellFormed()
    decreases |events|
  {
    if events == [] then Ok(ch)
    else
      var next :- ServerDispatch(ch, events[0]);
      ServerHandleAll(next, events[1..])
  }

  predicate AllWellFormed(states: seq<Channel>) {
    forall i | 0 <= i < |states| :: states[i].WellFormed()
  }

  /** Every channel handles its own entries of a batch, and those alone. */
  function RouteAll(states: seq<Channel>, batch: seq<Entry>): (results: seq<Result<Channel>>)
    requires AllWellFormed(states)
    ensures |results| == |states|
  {
    seq(|states|, i requires 0 <= i < |states| => ServerHandleAll(states[i], Own(batch, i)))
  }

  predicate AllOk(results: seq<Result<Channel>>) {
    forall i | 0 <= i < |results| :: results[i].Ok?
  }

  lemma RouteNone(states: seq<Channel>)
    requires AllWellFormed(states)
    ensures AllOk(RouteAll(states, [])) && forall i | 0 <= i < |states| :: RouteAll(states, [])[i].value == states[i]
  {
  }

  lemma {:induction false} OwnHead(batch: seq<Entry>, i: nat)
    requires batch != []
    ensures Own(batch, i) == if batch[0].0 == i then [batch[0].1] + Own(batch[1..], i) else Own(batch[1..], i)
  {
  }

  /** Routing a batch is handling its first entry and routing the rest. */
  lemma RouteHead(states: seq<Channel>, batch: seq<Entry>)
    requires AllWellFormed(states) && batch != [] && batch[0].0 < |states|
    ensures var r := ServerDispatch(states[batch[0].0], batch[0].1);
      if r.Ok? then RouteAll(states, batch) == RouteAll(states[batch[0].0 := r.value], batch[1..])
      else !AllOk(RouteAll(states, batch))
  {
    var (active, e) := batch[0];
    var r := ServerDispatch(states[active], e);
    HandleHead(states[active], e, Own(batch[1..], active));
    OwnHead(batch, active);
    if r.Ok? {
      var next := states[active := r.value];
      forall i | 0 <= i < |states| ensures RouteAll(states, batch)[i] == RouteAll(next, batch[1..])[i] {
        OwnHead(batch, i);
      }
    } else {
      assert RouteAll(states, batch)[active] == CheckFailed;
    }
  }

  lemma {:induction false} HandleHead(ch: Channel, e: Event, rest: seq<Event>)
    requires ch.WellFormed()
    ensures var r := ServerDispatch(ch, e);
      ServerHandleAll(ch, [e] + rest) == if r.Ok? then ServerHandleAll(r.value, rest) else CheckFailed
  {
    assert ([e] + rest)[1..] == rest;
  }

  // ----- a handler and the queue its event came from -----

  /** `r` with its completion queue set aside. */
  function Refile(r: Result<Channel>, cq: seq<Event>): Result<Channel> {
    if r.Ok? then Ok(r.value.(cq := cq)) else CheckFailed
  }

  lemma CountOffRefiled(ch: Channel, cq: seq<Event>)
    requires ch.WellFormed()
    ensures CountOff(ch.(cq := cq)) == Refile(CountOff(ch), cq)
    ensures CountOff(ch).Ok? ==> CountOff(ch).value.cq == ch.cq
  {
  }

  lemma PostSendRefiled(ch: Channel, tag: Message, cq: seq<Event>)
    requires ch.WellFormed()
    ensures PostSend(ch.(cq := cq), tag) == Refile(PostSend(ch, tag), cq)
    ensures PostSend(ch, tag).Ok? ==> PostSend(ch, tag).value.cq == ch.cq
  {
  }

  lemma PostReceiveRefiled(ch: Channel, cq: seq<Event>)
    requires ch.WellFormed()
    ensures PostReceive(ch.(cq := cq)) == Refile(PostReceive(ch), cq)
    ensures PostReceive(ch).Ok? ==> PostReceive(ch).value.cq == ch.cq
  {
  }

  /** The server after it has taken a message and filled in its answer. */
  function Answered(ch: Channel): Channel
    requires ch.WellFormed()
  {
    ch.(recvRing := Retire(ch.recvRing), rqInflight := ch.rqInflight - 1,
        sendMem := ch.sendMem[NextBlock(ch.sendRing) := Some(ch.own)])
  }

  lemma OnRecvValue(ch: Channel, tag: Message)
    requires ch.WellFormed()
    ensures ServerOnRecv(ch, tag) ==
      if !ch.recvRing.inUse[LastBlock(ch.recvRing)] || tag != RequestBuffer then CheckFailed
      else
        var r := PostSend(Answered(ch), ResponseToRequestBuffer);
        if r.Ok? then PostReceive(r.value) else CheckFailed
  {
  }

  lemma OnRecvRefiled(ch: Channel, tag: Message, cq: seq<Event>)
    requires ch.WellFormed()
    ensures ServerOnRecv(ch.(cq := cq), tag) == Refile(ServerOnRecv(ch, tag), cq)
    ensures ServerOnRecv(ch, tag).Ok? ==> ServerOnRecv(ch, tag).value.cq == ch.cq
  {
    OnRecvValue(ch, tag);
    OnRecvValue(ch.(cq := cq), tag);
    var a := Answered(ch);
    assert Answered(ch.(cq := cq)) == a.(cq := cq);
    PostSendRefiled(a, ResponseToRequestBuffer, cq);
    if PostSend(a, ResponseToRequestBuffer).Ok? {
      PostReceiveRefiled(PostSend(a, ResponseToRequestBuffer).value, cq);
    }
  }

  /** What a handler does has nothing to do with what else is in the queue. */
  lemma DispatchRefiled(ch: Channel, e: Event, cq: seq<Event>)
    requires ch.WellFormed()
    ensures ServerDispatch(ch.(cq := cq), e) == Refile(ServerDispatch(ch, e), cq)
    ensures ServerDispatch(ch, e).Ok? ==> ServerDispatch(ch, e).value.cq == ch.cq
  {
    match e
    case SendDone(_) => CountOffRefiled(ch, cq);
    case WriteDone(_) =>
    case RecvDone(tag, _) => OnRecvRefiled(ch, tag, cq);
  }

  // ----- polling one entry at a time -----

  predicate Ready(t: Tower) {
    t.WellFormed() && AllWellFormed(t.channels)
  }

  lemma SoundReady(t: Tower, n: nat)
    requires t.WellFormed() && AllSound(t, n)
    ensures Ready(t)
  {
    forall i | 0 <= i < |t.channels| ensures t.channels[i].WellFormed() {
      assert Sound(View(t, i), n);
    }
  }

  lemma ViewHead(t: Tower)
    requires Ready(t) && t.shared != []
    ensures var (i, e) := t.shared[0];
      View(t, i) == Pair(t.clients[i], t.channels[i].(cq := [e] + Own(t.shared[1..], i)))
    ensures TowerEnabled(t, PollStep)
  {
  }

  lemma HandleValue(p: Pair, ch: Channel, e: Event, rest: seq<Event>)
    requires ch.WellFormed() && ch.cq == [] && p.server == ch.(cq := [e] + rest)
    ensures Enabled(p, ServerHandles)
    ensures Apply(p, ServerHandles) ==
      var r := ServerDispatch(ch, e); if r.Ok? then Ok(p.(server := r.value.(cq := rest))) else CheckFailed
  {
    assert p.server.cq[1..] == rest && p.server.(cq := rest) == ch.(cq := rest);
    DispatchRefiled(ch, e, rest);
  }

  /** A poll runs the handler of the oldest entry on the channel that the entry names. */
  lemma PollValue(t: Tower)
    requires Ready(t) && t.shared != []
    ensures TowerEnabled(t, PollStep)
    ensures var (i, e) := t.shared[0]; var r := ServerDispatch(t.channels[i], e);
      TowerApply(t, PollStep) ==
        if r.Ok? then Ok(Tower(t.clients, t.channels[i := r.value], t.shared[1..])) else CheckFailed
  {
    var (i, e) := t.shared[0];
    ViewHead(t);
    HandleValue(View(t, i), t.channels[i], e, Own(t.shared[1..], i));
    DispatchRefiled(t.channels[i], e, []);
    assert t.clients[i := t.clients[i]] == t.clients;
  }

  // ----- batches in a run -----

  function Polls(k: nat): seq<TowerStep> {
    seq(k, _ => PollStep)
  }

  function Values(results: seq<Result<Channel>>): (states: seq<Channel>)
    requires AllOk(results)
    ensures |states| == |results|
  {
    seq(|results|, i requires 0 <= i < |results| => results[i].value)
  }

  lemma PollKeeps(t: Tower, n: nat)
    requires Ready(t) && AllSound(t, n) && t.shared != []
    ensures TowerEnabled(t, PollStep) && TowerApply(t, PollStep).Ok?
    ensures Ready(TowerApply(t, PollStep).value) && AllSound(TowerApply(t, PollStep).value, n)
  {
    ViewHead(t);
    TowerStepKeeps(t, PollStep, n);
    SoundReady(TowerApply(t, PollStep).value, n);
  }

  lemma {:induction false} PollThenPolls(t: Tower, next: Tower, k: nat)
    requires t.WellFormed() && next.WellFormed() && k > 0
    requires TowerEnabled(t, PollStep) && TowerApply(t, PollStep) == Ok(next) && TowerRuns(next, Polls(k - 1))
    ensures TowerRuns(t, Polls(k)) && TowerOutcome(t, Polls(k)) == TowerOutcome(next, Polls(k - 1))
  {
    assert Polls(k)[0] == PollStep && Polls(k)[1..] == Polls(k - 1);
  }

  /** The next `k` entries as a batch. */
  function Batched(t: Tower, k: nat): seq<Result<Channel>>
    requires Ready(t) && k <= |t.shared|
  {
    RouteAll(t.channels, t.shared[..k])
  }

  lemma BatchedPoll(t: Tower, next: Tower, k: nat)
    requires Ready(t) && Ready(next) && 0 < k <= |t.shared|
    requires TowerEnabled(t, PollStep) && TowerApply(t, PollStep) == Ok(next)
    ensures next.clients == t.clients && next.shared == t.shared[1..] && Batched(t, k) == Batched(next, k - 1)
  {
    PollValue(t);
    RouteHead(t.channels, t.shared[..k]);
    assert t.shared[..k][1..] == next.shared[..k - 1];
  }

  /** Whatever part of the shared queue a poll takes, routing it as a batch meets no failed check,
      and leaves the tower as polling its entries one at a time does. */
  lemma {:induction false} BatchSafe(t: Tower, n: nat, k: nat)
    requires t.WellFormed() && AllSound(t, n) && k <= |t.shared|
    ensures Ready(t) && AllOk(Batched(t, k)) && TowerRuns(t, Polls(k))
    ensures TowerOutcome(t, Polls(k)) == Ok(Tower(t.clients, Values(Batched(t, k)), t.shared[k..]))
    decreases k
  {
    SoundReady(t, n);
    if k == 0 {
      NoPolls(t);
    } else {
      PollKeeps(t, n);
      var next := TowerApply(t, PollStep).value;
      BatchedPoll(t, next, k);
      BatchSafe(next, n, k - 1);
      PollThenPolls(t, next, k);
      assert next.shared[k - 1..] == t.shared[k..];
    }
  }

  lemma {:induction false} NoPolls(t: Tower)
    requires Ready(t)
    ensures AllOk(Batched(t, 0)) && TowerRuns(t, Polls(0))
    ensures TowerOutcome(t, Polls(0)) == Ok(Tower(t.clients, Values(Batched(t, 0)), t.shared[0..]))
  {
    RouteNone(t.channels);
    assert t.shared[..0] == [] && t.shared[0..] == t.shared;
    assert Values(RouteAll(t.channels, [])) == t.channels;
  }

  /** So in every run of the tower any batch that its polling loop may take is handled without a
      failed check, and every channel handles its own entries, and those alone, in order. */
  lemma {:induction false} BatchesSafe(registered: seq<Pair>, n: nat, t: Tower, steps: seq<TowerStep>, k: nat)
    requires TowerBegins(registered, n, t) && TowerRuns(t, steps)
    ensures TowerOutcome(t, steps).Ok?
    ensures var t' := TowerOutcome(t, steps).value;
      Ready(t') && (k <= |t'.shared| ==>
        && AllOk(Batched(t', k)) && TowerRuns(t', Polls(k))
        && TowerOutcome(t', Polls(k)) == Ok(Tower(t'.clients, Values(Batched(t', k)), t'.shared[k..])))
  {
    TowerBeginInv(registered, n, t);
    TowerRunKeeps(t, steps, n);
    var t' := TowerOutcome(t, steps).value;
    SoundReady(t', n);
    if k <= |t'.shared| {
      BatchSafe(t', n, k);
    }
  }

  /** Polling `k` entries of `t` one at a time leads to `after`. */
  predicate PolledInto(t: Tower, k: nat, after: Tower)
    requires t.WellFormed()
  {
    TowerRuns(t, Polls(k)) && TowerOutcome(t, Polls(k)) == Ok(after)
  }

  lemma BatchIsPolls(t: Tower, n: nat, batch: seq<Entry>, after: Tower)
    requires t.WellFormed() && AllSound(t, n) && batch <= t.shared && PolledInto(t, |batch|, after)
    ensures forall k | 0 <= k < |batch| :: batch[k].0 < |t.channels|
    ensures AllWellFormed(t.channels) && AllOk(RouteAll(t.channels, batch)) && |after.channels| == |t.channels|
    ensures forall i | 0 <= i < |t.channels| :: RouteAll(t.channels, batch)[i] == Ok(after.channels[i])
  {
    BatchSafe(t, n, |batch|);
    assert t.shared[..|batch|] == batch;
    forall k | 0 <= k < |batch| ensures batch[k].0 < |t.channels| {
      assert batch[k] == t.shared[k];
    }
  }
}
