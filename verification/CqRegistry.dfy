/** The completion-queue registry of a device, filled by connecting threads in any
    interleaving, and the grouping of channels by queue that starts the polling threads. */
module CqRegistry {
  import opened Wrappers

  type Key = string
  type CQ = nat

  /** How a channel asks for its queue. A private channel's key is its own name. */
  datatype Request = Request(key: Key, isShared: bool)

  datatype Progress = Waiting | Checked | Created(cq: CQ)

  /** `registry` is the device's map; `created` counts the queues made, the next handle. */
  datatype State = State(registry: map<Key, CQ>, created: nat, threads: seq<Progress>)

  /** `has_created_cq`, under the device's lock. */
  function HasCreated(st: State, key: Key): bool {
    key in st.registry
  }

  /** `create_completion_queue`, under the device's lock. */
  function CreateQueue(st: State, key: Key): (State, CQ) {
    if key in st.registry then (st, st.registry[key])
    else (st.(registry := st.registry[key := st.created], created := st.created + 1), st.created)
  }

  /** The device itself. Each method runs under the device's lock. */
  class RDMADevice {
    var regCqs: map<Key, CQ>
    var created: nat

    constructor ()
      ensures regCqs == map[] && created == 0
    {
      regCqs, created := map[], 0;
    }

    method CreateCompletionQueue(key: Key) returns (cq: CQ)
      modifies this
      ensures forall threads ::
        CreateQueue(State(old(regCqs), old(created), threads), key) == (State(regCqs, created, threads), cq)
    {
      if key in regCqs {
        cq := regCqs[key];
      } else {
        cq := created;
        created := created + 1;
        regCqs := regCqs[key := cq];
      }
    }
  }

  predicate Enabled(requests: seq<Request>, st: State, i: nat) {
    i < |requests| == |st.threads| && !st.threads[i].Created?
  }

  /** One locked action of thread `i`. A private channel looks first and creates later. */
  function Apply(requests: seq<Request>, st: State, i: nat): Result<State>
    requires Enabled(requests, st, i)
  {
    var r := requests[i];
    if !r.isShared && st.threads[i].Waiting? then
      if HasCreated(st, r.key) then CheckFailed else Ok(st.(threads := st.threads[i := Checked]))
    else
      var (next, cq) := CreateQueue(st, r.key);
      Ok(next.(threads := st.threads[i := Created(cq)]))
  }

  predicate Runs(requests: seq<Request>, st: State, steps: seq<nat>)
    decreases |steps|
  {
    steps == [] ||
    (Enabled(requests, st, steps[0]) &&
     (Apply(requests, st, steps[0]).Ok? ==> Runs(requests, Apply(requests, st, steps[0]).value, steps[1..])))
  }

  function Outcome(requests: seq<Request>, st: State, steps: seq<nat>): Result<State>
    requires Runs(requests, st, steps)
    decreases |steps|
  {
    if steps == [] then Ok(st)
    else
      var next :- Apply(requests, st, steps[0]);
      Outcome(requests, next, steps[1..])
  }

  function Start(requests: seq<Request>): State {
    State(map[], 0, seq(|requests|, _ => Waiting))
  }

  predicate Reaches(requests: seq<Request>, steps: seq<nat>, st: State) {
    Runs(requests, Start(requests), steps) && Outcome(requests, Start(requests), steps) == Ok(st)
  }

  // ----- the registry -----

  /** Handles are never given twice. */
  predicate Handles(st: State) {
    && (forall k | k in st.registry :: st.registry[k] < st.created)
    && (forall k, l | k in st.registry && l in st.registry && st.registry[k] == st.registry[l] :: k == l)
  }

  /** A finished thread holds its key's queue. */
  predicate Holds(requests: seq<Request>, st: State)
    requires |st.threads| == |requests|
  {
    forall i | 0 <= i < |requests| && st.threads[i].Created? ::
      requests[i].key in st.registry && st.registry[requests[i].key] == st.threads[i].cq
  }

  predicate Finished(requests: seq<Request>, st: State, i: nat, k: Key) {
    i < |requests| == |st.threads| && st.threads[i].Created? && requests[i].key == k
  }

  /** Only finished threads have registered anything. */
  predicate Registered(requests: seq<Request>, st: State) {
    forall k | k in st.registry :: exists i | 0 <= i < |requests| :: Finished(requests, st, i, k)
  }

  predicate Inv(requests: seq<Request>, st: State) {
    |st.threads| == |requests| && Handles(st) && Holds(requests, st) && Registered(requests, st)
  }

  lemma CreateKeeps(requests: seq<Request>, st: State, i: nat)
    requires Inv(requests, st) && i < |requests| && !st.threads[i].Created?
    ensures var (next, cq) := CreateQueue(st, requests[i].key);
      Inv(requests, next.(threads := st.threads[i := Created(cq)]))
  {
    var (created, cq) := CreateQueue(st, requests[i].key);
    var next := created.(threads := st.threads[i := Created(cq)]);
    assert Handles(next);
    assert Holds(requests, next);
    forall k | k in next.registry ensures exists j | 0 <= j < |requests| :: Finished(requests, next, j, k) {
      if k in st.registry {
        var j :| 0 <= j < |requests| && Finished(requests, st, j, k);
        assert Finished(requests, next, j, k);
      } else {
        assert Finished(requests, next, i, k);
      }
    }
  }

  lemma LookKeeps(requests: seq<Request>, st: State, i: nat)
    requires Inv(requests, st) && i < |requests| && !st.threads[i].Created?
    ensures Inv(requests, st.(threads := st.threads[i := Checked]))
  {
    var next := st.(threads := st.threads[i := Checked]);
    forall k | k in st.registry ensures exists j | 0 <= j < |requests| :: Finished(requests, next, j, k) {
      var j :| 0 <= j < |requests| && Finished(requests, st, j, k);
      assert Finished(requests, next, j, k);
    }
  }

  lemma StepKeeps(requests: seq<Request>, st: State, i: nat)
    requires Inv(requests, st) && Enabled(requests, st, i) && Apply(requests, st, i).Ok?
    ensures Inv(requests, Apply(requests, st, i).value)
  {
    if !requests[i].isShared && st.threads[i].Waiting? {
      LookKeeps(requests, st, i);
    } else {
      CreateKeeps(requests, st, i);
    }
  }

  lemma {:induction false} RunKeeps(requests: seq<Request>, st: State, steps: seq<nat>)
    requires Inv(requests, st) && Runs(requests, st, steps) && Outcome(requests, st, steps).Ok?
    ensures Inv(requests, Outcome(requests, st, steps).value)
    decreases |steps|
  {
    if steps != [] {
      StepKeeps(requests, st, steps[0]);
      RunKeeps(requests, Apply(requests, st, steps[0]).value, steps[1..]);
    }
  }

  /** Under any interleaving two channels get the same queue exactly if they use the same key. */
  lemma SameQueueIff(requests: seq<Request>, steps: seq<nat>, st: State, i: nat, j: nat)
    requires Reaches(requests, steps, st) && i < |requests| && j < |requests|
    ensures |st.threads| == |requests|
    ensures st.threads[i].Created? && st.threads[j].Created? ==>
      (st.threads[i].cq == st.threads[j].cq <==> requests[i].key == requests[j].key)
  {
    RunKeeps(requests, Start(requests), steps);
  }

  // ----- private queues -----

  /** No private channel's key is used by another channel. */
  predicate PrivateKeysDistinct(requests: seq<Request>) {
    forall i, j | 0 <= i < |requests| && 0 <= j < |requests| && i != j && !requests[i].isShared ::
      requests[i].key != requests[j].key
  }

  lemma OwnKeyFree(requests: seq<Request>, st: State, i: nat)
    requires Inv(requests, st) && PrivateKeysDistinct(requests) && Enabled(requests, st, i)
    ensures !requests[i].isShared ==> !HasCreated(st, requests[i].key)
  {
    if !requests[i].isShared {
      forall j | 0 <= j < |requests| ensures !Finished(requests, st, j, requests[i].key) {
        assert st.threads[j].Created? ==> j != i;
      }
    }
  }

  lemma {:induction false} DistinctNeverFails(requests: seq<Request>, st: State, steps: seq<nat>)
    requires Inv(requests, st) && PrivateKeysDistinct(requests) && Runs(requests, st, steps)
    ensures Outcome(requests, st, steps).Ok?
    decreases |steps|
  {
    if steps != [] {
      OwnKeyFree(requests, st, steps[0]);
      StepKeeps(requests, st, steps[0]);
      DistinctNeverFails(requests, Apply(requests, st, steps[0]).value, steps[1..]);
    }
  }

  /** The actions thread `j` takes on its own. */
  function Alone(requests: seq<Request>, j: nat): seq<nat>
    requires j < |requests|
  {
    if requests[j].isShared then [j] else [j, j]
  }

  lemma {:induction false} AloneRuns(requests: seq<Request>, j: nat, i: nat)
    requires i < |requests| && j < |requests| && i != j
    requires !requests[i].isShared && requests[i].key == requests[j].key
    ensures var steps := Alone(requests, j) + [i];
      Runs(requests, Start(requests), steps) && Outcome(requests, Start(requests), steps).CheckFailed?
  {
    var st := Start(requests);
    var steps := Alone(requests, j) + [i];
    assert steps[0] == j;
    var s1 := Apply(requests, st, j).value;
    if requests[j].isShared {
      FailsNow(requests, s1, i);
      assert steps[1..] == [i];
    } else {
      assert steps[1..] == [j, i] && [j, i][1..] == [i];
      var s2 := Apply(requests, s1, j).value;
      FailsNow(requests, s2, i);
      assert Outcome(requests, s1, [j, i]) == Outcome(requests, s2, [i]);
    }
  }

  lemma {:induction false} FailsNow(requests: seq<Request>, st: State, i: nat)
    requires Enabled(requests, st, i) && st.threads[i].Waiting?
    requires !requests[i].isShared && HasCreated(st, requests[i].key)
    ensures Runs(requests, st, [i]) && Outcome(requests, st, [i]).CheckFailed?
  {
  }

  /** Some interleaving fails a private channel's check exactly if its key is not its own. */
  lemma {:induction false} PrivateCheckIff(requests: seq<Request>)
    ensures (exists steps :: Runs(requests, Start(requests), steps) &&
                             Outcome(requests, Start(requests), steps).CheckFailed?) <==> !PrivateKeysDistinct(requests)
  {
    if PrivateKeysDistinct(requests) {
      forall steps | Runs(requests, Start(requests), steps) ensures Outcome(requests, Start(requests), steps).Ok? {
        DistinctNeverFails(requests, Start(requests), steps);
      }
    } else {
      var i, j :| 0 <= i < |requests| && 0 <= j < |requests| && i != j && !requests[i].isShared &&
        requests[i].key == requests[j].key;
      AloneRuns(requests, j, i);
    }
  }

  // ----- sharing -----

  /** Some private channel has ended up with the queue of another. */
  predicate Shares(requests: seq<Request>, st: State) {
    && |st.threads| == |requests|
    && exists i, j | 0 <= i < |requests| && 0 <= j < |requests| ::
         i != j && !requests[i].isShared && st.threads[i].Created? && st.threads[j].Created?
         && st.threads[i].cq == st.threads[j].cq
  }

  lemma {:induction false} OneMore(requests: seq<Request>, s: State, steps: seq<nat>, st: State, i: nat)
    requires Runs(requests, s, steps) && Outcome(requests, s, steps) == Ok(st) && Enabled(requests, st, i)
    ensures Runs(requests, s, steps + [i]) && Outcome(requests, s, steps + [i]) == Apply(requests, st, i)
    decreases |steps|
  {
    if steps == [] {
      assert (steps + [i])[0] == i && (steps + [i])[1..] == [];
    } else {
      assert (steps + [i])[0] == steps[0] && (steps + [i])[1..] == steps[1..] + [i];
      OneMore(requests, Apply(requests, s, steps[0]).value, steps[1..], st, i);
    }
  }

  /** Thread `i` takes one more action, which does not fail; the other threads stay where they are. */
  lemma Extend(requests: seq<Request>, steps: seq<nat>, st: State, i: nat) returns (next: State)
    requires Reaches(requests, steps, st) && Enabled(requests, st, i) && Apply(requests, st, i).Ok?
    ensures Reaches(requests, steps + [i], next) && |next.threads| == |requests|
    ensures if !requests[i].isShared && st.threads[i].Waiting? then next.threads[i] == Checked
            else next.threads[i].Created?
    ensures forall j | 0 <= j < |requests| && j != i :: next.threads[j] == st.threads[j]
    ensures !requests[i].isShared && st.threads[i].Waiting? ==> next.registry == st.registry
  {
    OneMore(requests, Start(requests), steps, st, i);
    next := Apply(requests, st, i).value;
  }

  /** The lock is released between looking and creating: with private thread `i` stopped in
      between, any other thread that uses its key gets its queue. */
  lemma CheckCanMiss(requests: seq<Request>, i: nat, j: nat) returns (steps: seq<nat>, st: State)
    requires i < |requests| && j < |requests| && i != j
    requires !requests[i].isShared && requests[i].key == requests[j].key
    ensures steps == if requests[j].isShared then [i, j, i] else [i, j, i, j]
    ensures Reaches(requests, steps, st) && |st.threads| == |requests|
    ensures st.threads[i].Created? && st.threads[j].Created? && st.threads[i].cq == st.threads[j].cq
  {
    st := Start(requests);
    assert Reaches(requests, [], st);
    st := Extend(requests, [], st, i);
    st := Extend(requests, [] + [i], st, j);
    st := Extend(requests, [] + [i] + [j], st, i);
    steps := [i, j, i];
    assert [] + [i] + [j] + [i] == steps;
    if !requests[j].isShared {
      st := Extend(requests, steps, st, j);
      steps := [i, j, i, j];
      assert [i, j, i] + [j] == steps;
    }
    SameQueueIff(requests, steps, st, i, j);
  }

  /** A private channel can end up sharing its queue exactly if some private key is used twice. */
  lemma SharingIff(requests: seq<Request>)
    ensures (exists steps, st :: Reaches(requests, steps, st) && Shares(requests, st))
      <==> !PrivateKeysDistinct(requests)
  {
    if PrivateKeysDistinct(requests) {
      forall steps, st | Reaches(requests, steps, st) ensures !Shares(requests, st) {
        forall i, j | 0 <= i < |requests| && 0 <= j < |requests| && i != j && !requests[i].isShared
          ensures |st.threads| == |requests|
          ensures st.threads[i].Created? && st.threads[j].Created? ==> st.threads[i].cq != st.threads[j].cq
        {
          SameQueueIff(requests, steps, st, i, j);
        }
      }
    } else {
      var i, j :| 0 <= i < |requests| && 0 <= j < |requests| && i != j && !requests[i].isShared &&
        requests[i].key == requests[j].key;
      var steps, st := CheckCanMiss(requests, i, j);
      assert Shares(requests, st);
    }
  }

  // ----- running -----

  predicate Ascending(s: seq<nat>) {
    forall i, j | 0 <= i < j < |s| :: s[i] < s[j]
  }

  /** `list` holds the channels below `n` that use queue `q`, in order. */
  ghost predicate Users(list: seq<nat>, queues: seq<CQ>, q: CQ, n: nat)
    requires n <= |queues|
  {
    Ascending(list) && forall i: nat :: i in list <==> i < n && queues[i] == q
  }

  /** `running`: one thread per queue, each with the channels that use it, in their order. */
  method Running(queues: seq<CQ>) returns (threads: map<CQ, seq<nat>>)
    ensures Groups(threads, queues)
  {
    threads := map[];
    var n := 0;
    while n < |queues|
      invariant 0 <= n <= |queues|
      invariant forall q :: q in threads <==> q in queues[..n]
      invariant forall q | q in threads :: Users(threads[q], queues, q, n)
    {
      var q := queues[n];
      assert queues[..n + 1] == queues[..n] + [q];
      if q !in threads {
        NoUsers(queues, q, n);
        threads := threads[q := []];
      }
      forall p | p in threads && p != q ensures Users(threads[p], queues, p, n + 1) {
        OtherUsers(threads[p], queues, p, n);
      }
      OneMoreUser(threads[q], queues, q, n);
      threads := threads[q := threads[q] + [n]];
      n := n + 1;
    }
    assert queues[..n] == queues;
  }

  lemma NoUsers(queues: seq<CQ>, q: CQ, n: nat)
    requires n <= |queues| && q !in queues[..n]
    ensures Users([], queues, q, n)
  {
    forall i: nat | i < n ensures queues[i] != q {
      assert queues[..n][i] == queues[i];
    }
  }

  lemma OtherUsers(list: seq<nat>, queues: seq<CQ>, p: CQ, n: nat)
    requires n < |queues| && queues[n] != p && Users(list, queues, p, n)
    ensures Users(list, queues, p, n + 1)
  {
  }

  lemma OneMoreUser(list: seq<nat>, queues: seq<CQ>, q: CQ, n: nat)
    requires n < |queues| && queues[n] == q && Users(list, queues, q, n)
    ensures Users(list + [n], queues, q, n + 1)
  {
    forall i, j | 0 <= i < j < |list| + 1 ensures (list + [n])[i] < (list + [n])[j] {
      if j == |list| {
        assert list[i] in list;
      }
    }
  }

  /** One thread for each queue in use, with its users. */
  ghost predicate Groups(threads: map<CQ, seq<nat>>, queues: seq<CQ>) {
    && (forall q :: q in threads <==> q in queues)
    && (forall q | q in threads :: Users(threads[q], queues, q, |queues|))
  }

  lemma InOneThread(threads: map<CQ, seq<nat>>, queues: seq<CQ>, i: nat, p: CQ)
    requires Groups(threads, queues) && i < |queues| && p in threads
    ensures queues[i] in threads && (i in threads[p] <==> p == queues[i])
  {
    assert Users(threads[p], queues, p, |queues|);
  }

  function QueueOf(t: Progress): CQ {
    if t.Created? then t.cq else 0
  }

  function Queues(st: State): seq<CQ> {
    seq(|st.threads|, i requires 0 <= i < |st.threads| => QueueOf(st.threads[i]))
  }

  /** Once all channels have connected, in whatever order, each is in exactly one polling thread,
      two are in one thread exactly if they use one key, and a private channel is alone. */
  lemma ThreadsFollowKeys(requests: seq<Request>, steps: seq<nat>, st: State, threads: map<CQ, seq<nat>>, i: nat)
    requires Reaches(requests, steps, st) && (forall k | 0 <= k < |st.threads| :: st.threads[k].Created?)
    requires Groups(threads, Queues(st)) && i < |requests|
    ensures |Queues(st)| == |requests|
    ensures var q := Queues(st)[i];
      && q in threads && (forall p | p in threads :: i in threads[p] <==> p == q)
      && (forall j: nat | j < |requests| :: j in threads[q] <==> requests[j].key == requests[i].key)
      && (PrivateKeysDistinct(requests) && !requests[i].isShared ==> threads[q] == [i])
  {
    SameQueueIff(requests, steps, st, i, i);
    var q := Queues(st)[i];
    forall p | p in threads ensures i in threads[p] <==> p == q {
      InOneThread(threads, Queues(st), i, p);
    }
    assert Users(threads[q], Queues(st), q, |requests|);
    forall j: nat | j < |requests| ensures j in threads[q] <==> requests[j].key == requests[i].key {
      SameQueueIff(requests, steps, st, i, j);
      InOneThread(threads, Queues(st), j, q);
    }
    if PrivateKeysDistinct(requests) && !requests[i].isShared {
      OnlyMember(threads[q], i);
    }
  }

  lemma OnlyMember(s: seq<nat>, i: nat)
    requires Ascending(s) && i in s && forall j | j in s :: j == i
    ensures s == [i]
  {
    assert s[0] in s && s[|s| - 1] in s;
  }
}
