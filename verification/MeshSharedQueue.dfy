/** The server tower: any number of channels report to one completion queue, whose entries
    name the channel that posted the work. */
module MeshSharedQueue {
  import opened Arithmetic
  import opened Wrappers
  import opened Projection
  import opened MeshService
  import opened MeshInvariant
  import opened MeshTheorems

  /** A completion-queue entry: the index of its channel (from `wr_id`) and the event. */
  type Entry = (nat, Event)

  /** What a completion queue holds for channel `i`, in order. */
  function Own(shared: seq<Entry>, i: nat): seq<Event> {
    if shared == [] then []
    else (if shared[0].0 == i then [shared[0].1] else []) + Own(shared[1..], i)
  }

  function Tagged(events: seq<Event>, i: nat): (r: seq<Entry>)
    ensures |r| == |events|
  {
    seq(|events|, k requires 0 <= k < |events| => (i, events[k]))
  }

  lemma {:induction false} OwnAppend(a: seq<Entry>, b: seq<Entry>, i: nat)
    ensures Own(a + b, i) == Own(a, i) + Own(b, i)
  {
    if a == [] {
      assert a + b == b;
    } else {
      assert (a + b)[1..] == a[1..] + b;
      OwnAppend(a[1..], b, i);
      var head := if a[0].0 == i then [a[0].1] else [];
      assert head + (Own(a[1..], i) + Own(b, i)) == head + Own(a[1..], i) + Own(b, i);
    }
  }

  lemma {:induction false} OwnTagged(events: seq<Event>, i: nat, j: nat)
    ensures Own(Tagged(events, i), j) == if i == j then events else []
  {
    if events != [] {
      assert Tagged(events, i)[1..] == Tagged(events[1..], i);
      OwnTagged(events[1..], i, j);
    }
  }

  // ----- the tower and its clients -----

  /** Client i talks to channel i of the server; the channels' own queues are empty, their
      completions are in `shared`. */
  datatype Tower = Tower(clients: seq<Channel>, channels: seq<Channel>, shared: seq<Entry>) {
    predicate WellFormed() {
      && |clients| == |channels|
      && (forall k | 0 <= k < |shared| :: shared[k].0 < |channels|)
      && (forall i | 0 <= i < |channels| :: channels[i].cq == [])
    }
  }

  /** Channel i as if it had a completion queue of its own. */
  function View(t: Tower, i: nat): Pair
    requires t.WellFormed() && i < |t.channels|
  {
    Pair(t.clients[i], t.channels[i].(cq := Own(t.shared, i)))
  }

  datatype TowerStep =
    | ChannelStep(i: nat, step: Step)    // anything but a handler of the tower
    | PollStep                           // the handler of the oldest entry

  /** The channel a step belongs to, and the step it is there. */
  function Acting(t: Tower, ts: TowerStep): nat {
    match ts
    case ChannelStep(i, _) => i
    case PollStep => if t.shared == [] then 0 else t.shared[0].0
  }

  function ActingStep(ts: TowerStep): Step {
    match ts
    case ChannelStep(_, step) => step
    case PollStep => ServerHandles
  }

  predicate TowerEnabled(t: Tower, ts: TowerStep)
    requires t.WellFormed()
  {
    && Acting(t, ts) < |t.channels|
    && (ts.ChannelStep? ==> ts.step != ServerHandles)
    && (ts.PollStep? ==> t.shared != [])
    && Enabled(View(t, Acting(t, ts)), ActingStep(ts))
  }

  /** New completions of the acting channel join the end of the shared queue; a poll takes
      its first entry. No other channel is touched. */
  function TowerApply(t: Tower, ts: TowerStep): (r: Result<Tower>)
    requires t.WellFormed() && TowerEnabled(t, ts)
    ensures r.Ok? ==> r.value.WellFormed()
  {
    var i := Acting(t, ts);
    var pair :- Apply(View(t, i), ActingStep(ts));
    var had := |Own(t.shared, i)|;
    var shared :=
      if ts.PollStep? then t.shared[1..]
      else t.shared + Tagged(pair.server.cq[Least(had, |pair.server.cq|)..], i);
    Ok(Tower(t.clients[i := pair.client], t.channels[i := pair.server.(cq := [])], shared))
  }

  lemma QueueGrows(p: Pair, step: Step)
    requires Enabled(p, step) && step != ServerHandles && Apply(p, step).Ok?
    ensures p.server.cq <= Apply(p, step).value.server.cq
  {
  }

  lemma HandlerPops(p: Pair)
    requires Enabled(p, ServerHandles) && Apply(p, ServerHandles).Ok?
    ensures Apply(p, ServerHandles).value.server.cq == p.server.cq[1..]
  {
  }

  /** What the shared queue holds for channel `j` after a step. */
  lemma {:induction false} PollRouted(t: Tower, j: nat)
    requires t.WellFormed() && TowerEnabled(t, PollStep) && TowerApply(t, PollStep).Ok?
    ensures var i, t' := t.shared[0].0, TowerApply(t, PollStep).value;
      Own(t'.shared, j) == if j == i then Own(t.shared, j)[1..] else Own(t.shared, j)
  {
    var own := if j == t.shared[0].0 then [t.shared[0].1] else [];
    assert (own + Own(t.shared[1..], j))[|own|..] == Own(t.shared[1..], j);
  }

  lemma {:induction false} PostRouted(t: Tower, i: nat, step: Step, j: nat)
    requires t.WellFormed() && TowerEnabled(t, ChannelStep(i, step)) && TowerApply(t, ChannelStep(i, step)).Ok?
    ensures var t' := TowerApply(t, ChannelStep(i, step)).value;
      Own(t'.shared, j) == if j == i then Apply(View(t, i), step).value.server.cq else Own(t.shared, j)
  {
    var t' := TowerApply(t, ChannelStep(i, step)).value;
    var p, q := View(t, i), Apply(View(t, i), step).value;
    QueueGrows(p, step);
    var added := q.server.cq[|p.server.cq|..];
    assert t'.shared == t.shared + Tagged(added, i);
    OwnAppend(t.shared, Tagged(added, i), j);
    OwnTagged(added, i, j);
    assert Own(t.shared, j) + [] == Own(t.shared, j);
  }

  /** Routing: a step of the tower is a step of exactly one channel, seen from that channel
      as if its queue were private; every other channel sees nothing. */
  lemma Routing(t: Tower, ts: TowerStep, j: nat)
    requires t.WellFormed() && TowerEnabled(t, ts) && TowerApply(t, ts).Ok? && j < |t.channels|
    ensures var i := Acting(t, ts); var t' := TowerApply(t, ts).value;
      && |t'.channels| == |t.channels|
      && Apply(View(t, i), ActingStep(ts)).Ok?
      && View(t', j) == if j == i then Apply(View(t, i), ActingStep(ts)).value else View(t, j)
  {
    match ts
    case PollStep =>
      PollRouted(t, j);
      HandlerPops(View(t, t.shared[0].0));
    case ChannelStep(i, step) =>
      PostRouted(t, i, step, j);
  }

  // ----- every run of the tower -----

  predicate TowerRuns(t: Tower, steps: seq<TowerStep>)
    requires t.WellFormed()
    decreases |steps|
  {
    steps == [] ||
    (TowerEnabled(t, steps[0]) &&
     (TowerApply(t, steps[0]).Ok? ==> TowerRuns(TowerApply(t, steps[0]).value, steps[1..])))
  }

  function TowerOutcome(t: Tower, steps: seq<TowerStep>): Result<Tower>
    requires t.WellFormed() && TowerRuns(t, steps)
    decreases |steps|
  {
    if steps == [] then Ok(t)
    else
      var next :- TowerApply(t, steps[0]);
      TowerOutcome(next, steps[1..])
  }

  /** Whatever every step of a channel keeps, every run of the tower keeps on all of them. */
  lemma TowerStepInduction(keep: Pair -> bool, t: Tower, ts: TowerStep)
    requires t.WellFormed() && TowerEnabled(t, ts)
    requires forall i | 0 <= i < |t.channels| :: keep(View(t, i))
    requires forall p, step | keep(p) && Enabled(p, step) :: Apply(p, step).Ok? && keep(Apply(p, step).value)
    ensures TowerApply(t, ts).Ok?
    ensures var t' := TowerApply(t, ts).value;
      |t'.channels| == |t.channels| && forall i | 0 <= i < |t'.channels| :: keep(View(t', i))
  {
    var t' := TowerApply(t, ts).value;
    Routing(t, ts, Acting(t, ts));
    forall j | 0 <= j < |t'.channels| ensures keep(View(t', j)) {
      Routing(t, ts, j);
    }
  }

  lemma {:induction false} TowerRunInduction(keep: Pair -> bool, t: Tower, steps: seq<TowerStep>)
    requires t.WellFormed() && TowerRuns(t, steps)
    requires forall i | 0 <= i < |t.channels| :: keep(View(t, i))
    requires forall p, step | keep(p) && Enabled(p, step) :: Apply(p, step).Ok? && keep(Apply(p, step).value)
    ensures TowerOutcome(t, steps).Ok?
    ensures var t' := TowerOutcome(t, steps).value;
      t'.WellFormed() && |t'.channels| == |t.channels| && forall i | 0 <= i < |t'.channels| :: keep(View(t', i))
    decreases |steps|
  {
    if steps != [] {
      TowerStepInduction(keep, t, steps[0]);
      TowerRunInduction(keep, TowerApply(t, steps[0]).value, steps[1..]);
    }
  }

  predicate Sound(p: Pair, n: nat) {
    Inv(p) && p.server.Blocks() == n
  }

  lemma BlocksStay(p: Pair, step: Step)
    requires Enabled(p, step) && Apply(p, step).Ok?
    ensures Apply(p, step).value.server.Blocks() == p.server.Blocks()
  {
  }

  lemma SoundKept(p: Pair, step: Step, n: nat)
    requires Sound(p, n) && Enabled(p, step)
    ensures Apply(p, step).Ok? && Sound(Apply(p, step).value, n)
  {
    StepKeeps(p, step);
    BlocksStay(p, step);
  }

  predicate AllSound(t: Tower, n: nat)
    requires t.WellFormed()
  {
    forall i | 0 <= i < |t.channels| :: Sound(View(t, i), n)
  }

  lemma TowerStepKeeps(t: Tower, ts: TowerStep, n: nat)
    requires t.WellFormed() && AllSound(t, n) && TowerEnabled(t, ts)
    ensures TowerApply(t, ts).Ok? && AllSound(TowerApply(t, ts).value, n)
  {
    var keep := (p: Pair) => Sound(p, n);
    forall p, step | keep(p) && Enabled(p, step) ensures Apply(p, step).Ok? && keep(Apply(p, step).value) {
      SoundKept(p, step, n);
    }
    TowerStepInduction(keep, t, ts);
    var t' := TowerApply(t, ts).value;
    forall i | 0 <= i < |t'.channels| ensures Sound(View(t', i), n) {
      assert keep(View(t', i));
    }
  }

  /** The invariant of a single channel holds of every channel of the tower, in every run. */
  lemma {:induction false} TowerRunKeeps(t: Tower, steps: seq<TowerStep>, n: nat)
    requires t.WellFormed() && AllSound(t, n) && TowerRuns(t, steps)
    ensures TowerOutcome(t, steps).Ok?
    ensures var t' := TowerOutcome(t, steps).value;
      t'.WellFormed() && |t'.channels| == |t.channels| && AllSound(t', n)
  {
    var keep := (p: Pair) => Sound(p, n);
    forall p, step | keep(p) && Enabled(p, step) ensures Apply(p, step).Ok? && keep(Apply(p, step).value) {
      SoundKept(p, step, n);
    }
    TowerRunInduction(keep, t, steps);
    var t' := TowerOutcome(t, steps).value;
    forall i | 0 <= i < |t'.channels| ensures Sound(View(t', i), n) {
      assert keep(View(t', i));
    }
  }

  /** A tower at its start: channel i as `Begin` leaves `registered[i]`, the shared queue empty. */
  predicate TowerBegins(registered: seq<Pair>, n: nat, t: Tower) {
    && t.WellFormed() && t.shared == [] && |registered| == |t.channels|
    && forall i | 0 <= i < |registered| ::
         var p := registered[i];
         && Registered(p.client, n) && Registered(p.server, n) && p.client.WellFormed() && p.server.WellFormed()
         && Begin(p.client, p.server, n) == Ok(View(t, i))
  }

  lemma BeginSound(p: Pair, n: nat)
    requires Registered(p.client, n) && Registered(p.server, n) && p.client.WellFormed() && p.server.WellFormed()
    ensures Begin(p.client, p.server, n).Ok? && Sound(Begin(p.client, p.server, n).value, n)
  {
    BeginInv(p.client, p.server, n);
    ReadyRings(p.server, n);
  }

  lemma TowerBeginInv(registered: seq<Pair>, n: nat, t: Tower)
    requires TowerBegins(registered, n, t)
    ensures AllSound(t, n)
  {
    forall i | 0 <= i < |t.channels| ensures Sound(View(t, i), n) {
      BeginSound(registered[i], n);
    }
  }

  const MAX_CHANNELS: nat := 64

  /** The start of `ServerTower::process_CQ`: one thread takes at most 64 channels. */
  function OpenTower(registered: seq<Pair>, n: nat): Result<Tower>
    requires forall i | 0 <= i < |registered| :: registered[i].client.WellFormed() && registered[i].server.WellFormed()
    requires forall i | 0 <= i < |registered| :: Begin(registered[i].client, registered[i].server, n).Ok?
  {
    if |registered| > MAX_CHANNELS then CheckFailed
    else
      Ok(Tower(
        seq(|registered|, i requires 0 <= i < |registered| =>
          Begin(registered[i].client, registered[i].server, n).value.client),
        seq(|registered|, i requires 0 <= i < |registered| =>
          Begin(registered[i].client, registered[i].server, n).value.server),
        []))
  }

  /** A tower over registered channels begins exactly if there are at most 64 of them. */
  lemma OpenIff(registered: seq<Pair>, n: nat)
    requires forall i | 0 <= i < |registered| ::
      Registered(registered[i].client, n) && Registered(registered[i].server, n)
    ensures forall i | 0 <= i < |registered| ::
      && registered[i].client.WellFormed() && registered[i].server.WellFormed()
      && Begin(registered[i].client, registered[i].server, n).Ok?
    ensures OpenTower(registered, n).Ok? <==> |registered| <= 64
    ensures OpenTower(registered, n).Ok? ==> TowerBegins(registered, n, OpenTower(registered, n).value)
  {
    forall i | 0 <= i < |registered|
      ensures Begin(registered[i].client, registered[i].server, n).Ok?
      ensures Begin(registered[i].client, registered[i].server, n).value.server.cq == []
    {
      BeginInv(registered[i].client, registered[i].server, n);
      ReadyRings(registered[i].server, n);
    }
  }

  /** No run of the tower fails, and every channel keeps its own rings and counters: they say
      exactly what is outstanding on that channel, whatever the others do. */
  lemma {:induction false} TowerSafe(registered: seq<Pair>, n: nat, t: Tower, steps: seq<TowerStep>, i: nat)
    requires TowerBegins(registered, n, t) && TowerRuns(t, steps) && i < |t.channels|
    ensures TowerOutcome(t, steps).Ok?
    ensures var t' := TowerOutcome(t, steps).value;
      && t'.WellFormed() && |t'.channels| == |t.channels|
      && var ch := View(t', i).server;
         && Rings(ch) && ch.sqInflight == |SendBlocks(ch)| <= 1 && ch.rqInflight == |RecvBlocks(ch)| == ch.Blocks()
  {
    TowerBeginInv(registered, n, t);
    TowerRunKeeps(t, steps, n);
    InflightSplit(View(TowerOutcome(t, steps).value, i).server);
  }

  // ----- capacity -----

  function OwnTotal(shared: seq<Entry>, channels: nat): nat {
    if channels == 0 then 0 else |Own(shared, channels - 1)| + OwnTotal(shared, channels - 1)
  }

  lemma {:induction false} OwnOfHead(e: Entry, rest: seq<Entry>, i: nat)
    ensures |Own([e] + rest, i)| == |Own(rest, i)| + (if e.0 == i then 1 else 0)
  {
    assert ([e] + rest)[1..] == rest;
  }

  lemma {:induction false} OwnTotalStep(e: Entry, rest: seq<Entry>, channels: nat)
    ensures OwnTotal([e] + rest, channels) == OwnTotal(rest, channels) + (if e.0 < channels then 1 else 0)
  {
    if channels > 0 {
      OwnOfHead(e, rest, channels - 1);
      OwnTotalStep(e, rest, channels - 1);
    }
  }

  /** The shared queue holds what the channels' own queues would hold, and no more. */
  lemma {:induction false} OwnPartition(shared: seq<Entry>, channels: nat)
    requires forall k | 0 <= k < |shared| :: shared[k].0 < channels
    ensures |shared| == OwnTotal(shared, channels)
  {
    if shared == [] {
      OwnTotalEmpty(channels);
    } else {
      OwnPartition(shared[1..], channels);
      OwnTotalStep(shared[0], shared[1..], channels);
      assert [shared[0]] + shared[1..] == shared;
    }
  }

  lemma {:induction false} OwnTotalEmpty(channels: nat)
    ensures OwnTotal([], channels) == 0
  {
    if channels > 0 {
      OwnTotalEmpty(channels - 1);
    }
  }

  lemma {:induction false} OwnTotalBound(shared: seq<Entry>, channels: nat, each: nat)
    requires forall i | 0 <= i < channels :: |Own(shared, i)| <= each
    ensures OwnTotal(shared, channels) <= channels * each
  {
    if channels > 0 {
      OwnTotalBound(shared, channels - 1, each);
    }
  }

  /** A channel never has more entries than its receives and its send queue together. */
  lemma ChannelEntries(p: Pair)
    requires Inv(p)
    ensures |p.server.cq| <= p.server.Blocks() + 1
  {
    InflightSplit(p.server);
    EntriesSplit(p.server.cq);
  }

  lemma {:induction false} EntriesSplit(cq: seq<Event>)
    ensures |cq| == |Collect(cq, SentBlock)| + |Collect(cq, RecvBlock)|
  {
    if cq != [] {
      EntriesSplit(cq[1..]);
    }
  }

  /** The completion queue of `(max_recv_wr + max_send_wr) * channels` entries never overflows. */
  lemma {:induction false} SharedQueueFits(registered: seq<Pair>, n: nat, t: Tower, steps: seq<TowerStep>)
    requires TowerBegins(registered, n, t) && TowerRuns(t, steps)
    ensures TowerOutcome(t, steps).Ok?
    ensures |TowerOutcome(t, steps).value.shared| <= |t.channels| * (n + n)
  {
    TowerBeginInv(registered, n, t);
    TowerRunKeeps(t, steps, n);
    var t' := TowerOutcome(t, steps).value;
    forall i | 0 <= i < |t'.channels| ensures |Own(t'.shared, i)| <= n + n {
      ChannelEntries(View(t', i));
    }
    OwnPartition(t'.shared, |t'.channels|);
    OwnTotalBound(t'.shared, |t'.channels|, n + n);
  }
}
