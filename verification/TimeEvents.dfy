/** The tick loop: waits that correct for drift, and the pass over timeouts and intervals that
    erases from the set while it iterates. */
module TimeEvents {
  import opened Arithmetic
  import opened Wrappers

  // ----- one pass -----

  /** An entry of the event set: an interval or a timeout of `period` ticks. */
  datatype Event = Event(id: nat, isInterval: bool, period: nat, elapsed: nat)

  predicate Due(e: Event) {
    e.elapsed + 1 == e.period
  }

  /** What one visit leaves of an event, and whether its function is called. */
  function Visit(e: Event, cancelled: set<nat>): Option<Event> {
    if !Due(e) then Some(e.(elapsed := e.elapsed + 1))
    else if e.id in cancelled || !e.isInterval then None
    else Some(e.(elapsed := 0))
  }

  predicate Fires(e: Event, cancelled: set<nat>) {
    Due(e) && e.id !in cancelled
  }

  /** Every event visited once, in order. */
  function PassOver(events: seq<Event>, cancelled: set<nat>): seq<Event> {
    if events == [] then []
    else
      var rest := PassOver(events[1..], cancelled);
      match Visit(events[0], cancelled)
      case None => rest
      case Some(e) => [e] + rest
  }

  function Fired(events: seq<Event>, cancelled: set<nat>): seq<nat> {
    if events == [] then []
    else (if Fires(events[0], cancelled) then [events[0].id] else []) + Fired(events[1..], cancelled)
  }

  // ----- the loop -----

  /** What the environment does around the k-th tick: how late its wait ends, how long its pass
      takes, which events are cancelled by then and which have been added before it. */
  datatype Turn = Turn(overshoot: nat, work: nat, cancelled: set<nat>, added: seq<Event>)

  function Excess(x: int): nat {
    if x < 0 then 0 else x
  }

  /** How late the k-th pass begins. Lateness is passed on only where lateness and work together
      exceed a tick. */
  function Lateness(tick: nat, turns: seq<Turn>, k: nat): int
    requires k < |turns|
  {
    turns[k].overshoot + if k == 0 then 0 else Excess(Lateness(tick, turns, k - 1) + turns[k - 1].work - tick)
  }

  function Rounds(events: seq<Event>, turns: seq<Turn>): seq<Event>
    decreases |turns|
  {
    if turns == [] then events
    else Rounds(PassOver(events + turns[0].added, turns[0].cancelled), turns[1..])
  }

  function Calls(events: seq<Event>, turns: seq<Turn>): seq<nat>
    decreases |turns|
  {
    if turns == [] then []
    else
      var all := events + turns[0].added;
      Fired(all, turns[0].cancelled) + Calls(PassOver(all, turns[0].cancelled), turns[1..])
  }

  lemma {:induction false} RoundsSnoc(events: seq<Event>, turns: seq<Turn>, k: nat)
    requires k < |turns|
    ensures var before := Rounds(events, turns[..k]) + turns[k].added;
      && Rounds(events, turns[..k + 1]) == PassOver(before, turns[k].cancelled)
      && Calls(events, turns[..k + 1]) == Calls(events, turns[..k]) + Fired(before, turns[k].cancelled)
    decreases k
  {
    if k == 0 {
      assert turns[..1] == [turns[0]] && turns[..1][1..] == [] && turns[..0] == [];
    } else {
      var next := PassOver(events + turns[0].added, turns[0].cancelled);
      var head := Fired(events + turns[0].added, turns[0].cancelled);
      RoundsSnoc(next, turns[1..], k - 1);
      assert turns[..k + 1][1..] == turns[1..][..k] && turns[..k][1..] == turns[1..][..k - 1];
      assert turns[..k + 1][0] == turns[..k][0] == turns[0] && turns[1..][k - 1] == turns[k];
      var more := Fired(Rounds(events, turns[..k]) + turns[k].added, turns[k].cancelled);
      assert head + (Calls(next, turns[1..][..k - 1]) + more) == head + Calls(next, turns[1..][..k - 1]) + more;
    }
  }

  /** No two events share an id. */
  predicate Distinct(events: seq<Event>) {
    forall i, j | 0 <= i < j < |events| :: events[i].id != events[j].id
  }

  /** All ids have been taken from a counter that now stands at `next`. */
  predicate Numbered(events: seq<Event>, next: nat) {
    Distinct(events) && forall i | 0 <= i < |events| :: events[i].id < next
  }

  /** `kNextSeqNum`, which every `TimeEvent` of the process shares. */
  class SequenceNumbers {
    var next: nat

    constructor ()
      ensures next == 0
    {
      next := 0;
    }
  }

  class TimeEvent {
    const tick: nat
    const numbers: SequenceNumbers
    var ticks: nat
    var events: seq<Event>      // in the order of their ids
    var calls: seq<nat>         // the ids whose functions have been called

    constructor (tick: nat, numbers: SequenceNumbers)
      requires tick > 0
      ensures this.tick == tick && this.numbers == numbers && ticks == 0 && events == [] && calls == []
    {
      this.tick, this.numbers := tick, numbers;
      ticks, events, calls := 0, [], [];
    }

    /** `set_timeout` and `set_interval`. Where assertions are compiled in, a duration shorter than
        a tick aborts; where they are not, it gives a period of 0. */
    method Set(duration: nat, isInterval: bool, asserts: bool) returns (ok: bool, id: nat)
      requires tick > 0
      modifies this`events, numbers
      ensures ok <==> !asserts || duration >= tick
      ensures !ok ==> events == old(events) && numbers.next == old(numbers.next)
      ensures ok ==>
        && id == old(numbers.next) && numbers.next == id + 1
        && events == old(events) + [Event(id, isInterval, duration / tick, 0)]
        && (duration / tick >= 1 <==> duration >= tick)
      ensures Numbered(old(events), old(numbers.next)) ==> Numbered(events, numbers.next)
    {
      ok, id := !asserts || duration >= tick, numbers.next;
      if ok {
        AtLeastOne(duration, tick);
        numbers.next := numbers.next + 1;
        events := events + [Event(id, isInterval, duration / tick, 0)];
      }
    }

    /** The pass. Erasing leaves the iterator at the next event. */
    method Pass(cancelled: set<nat>)
      modifies this`events, this`calls
      ensures events == PassOver(old(events), cancelled)
      ensures calls == old(calls) + Fired(old(events), cancelled)
    {
      var it := 0;
      while it < |events|
        invariant 0 <= it <= |events|
        invariant events[..it] + PassOver(events[it..], cancelled) == PassOver(old(events), cancelled)
        invariant calls + Fired(events[it..], cancelled) == old(calls) + Fired(old(events), cancelled)
        decreases |events| - it
      {
        ghost var now, before := events, calls;
        var event := events[it].(elapsed := events[it].elapsed + 1);
        events := events[it := event];
        if event.elapsed == event.period {
          var isCancelled := event.id in cancelled;
          if !isCancelled {
            calls := calls + [event.id];
          }
          var remove := isCancelled || !event.isInterval;
          if remove {
            events := events[..it] + events[it + 1..];
            OneVisit(now, it, events, it, before, calls, cancelled);
            continue;
          } else {
            events := events[it := event.(elapsed := 0)];
          }
        }
        it := it + 1;
        OneVisit(now, it - 1, events, it, before, calls, cancelled);
      }
    }

    /** One turn of the loop: wait for `m_tick - drift`, pass over the events, compute the drift. */
    method Tick(start: int, now: int, drift: int, turn: Turn) returns (began: int, after: int, next: int)
      modifies this
      ensures ticks == old(ticks) + 1
      ensures began == now + Excess(tick - drift) + turn.overshoot && after == began + turn.work
      ensures next == after - start - tick * ticks
      ensures events == PassOver(old(events) + turn.added, turn.cancelled)
      ensures calls == old(calls) + Fired(old(events) + turn.added, turn.cancelled)
    {
      events := events + turn.added;
      began := now + Excess(tick - drift) + turn.overshoot;
      ticks := ticks + 1;
      Pass(turn.cancelled);
      after := began + turn.work;
      next := after - start - tick * ticks;
    }

    /** What the passes so far have done to the events. */
    ghost predicate Ran(was: seq<Event>, called: seq<nat>, turns: seq<Turn>)
      reads this
    {
      && ticks <= |turns|
      && events == Rounds(was, turns[..ticks]) && calls == called + Calls(was, turns[..ticks])
    }

    /** One turn of the loop, on time. */
    method TickOnTime(start: int, now: int, drift: int, turns: seq<Turn>, ghost was: seq<Event>, ghost called: seq<nat>)
      returns (began: int, after: int, next: int)
      requires tick > 0 && ticks < |turns|
      requires Ran(was, called, turns) && OnSchedule(start, tick, turns, ticks, now, drift)
      modifies this
      ensures ticks == old(ticks) + 1 && Ran(was, called, turns) && OnSchedule(start, tick, turns, ticks, after, next)
      ensures began == PassTime(start, tick, turns, old(ticks))
    {
      NextPass(start, tick, turns, ticks, now);
      RoundsSnoc(was, turns, ticks);
      began, after, next := Tick(start, now, drift, turns[ticks]);
    }

    /** The thread's loop until it is told to stop. `times` records when each pass begins. */
    method Loop(start: int, turns: seq<Turn>) returns (times: seq<int>)
      requires ticks == 0 && tick > 0
      modifies this
      ensures ticks == |times| == |turns|
      ensures forall k | 0 <= k < |turns| :: times[k] == PassTime(start, tick, turns, k)
      ensures events == Rounds(old(events), turns) && calls == old(calls) + Calls(old(events), turns)
    {
      var now, drift := start, 0;
      times := [];
      while ticks < |turns|
        invariant ticks == |times| <= |turns| && Ran(old(events), old(calls), turns)
        invariant OnSchedule(start, tick, turns, ticks, now, drift)
        invariant forall k | 0 <= k < ticks :: times[k] == PassTime(start, tick, turns, k)
      {
        var began: int;
        began, now, drift := TickOnTime(start, now, drift, turns, old(events), old(calls));
        times := times + [began];
      }
      assert turns[..ticks] == turns;
    }
  }

  /** Before pass `k` the loop's clock and drift agree. */
  predicate OnSchedule(start: int, tick: nat, turns: seq<Turn>, k: nat, now: int, drift: int) {
    k <= |turns| && drift == now - start - tick * k && drift == DriftAfter(tick, turns, k)
  }

  /** What the loop's `drift` is before pass `k`. */
  function DriftAfter(tick: nat, turns: seq<Turn>, k: nat): int
    requires k <= |turns|
  {
    if k == 0 then 0 else Lateness(tick, turns, k - 1) + turns[k - 1].work
  }

  /** When pass `k` (from 0) begins: due at the end of tick k + 1, and as late as `Lateness` says. */
  function PassTime(start: int, tick: nat, turns: seq<Turn>, k: nat): int
    requires k < |turns|
  {
    start + tick * (k + 1) + Lateness(tick, turns, k)
  }

  lemma AtLeastOne(a: nat, b: nat)
    requires b > 0
    ensures a / b >= 1 <==> a >= b
  {
    assert a == b * (a / b) + a % b;
    if a / b >= 1 {
      PositiveMultiple(b, a / b);
    }
  }

  /** A wait of `tick - drift` ends at the pass's time; after the work the drift is as stated. */
  lemma NextPass(start: int, tick: nat, turns: seq<Turn>, k: nat, now: int)
    requires k < |turns| && tick > 0
    requires DriftAfter(tick, turns, k) == now - start - tick * k
    ensures now + Excess(tick - DriftAfter(tick, turns, k)) + turns[k].overshoot == PassTime(start, tick, turns, k)
    ensures DriftAfter(tick, turns, k + 1) == PassTime(start, tick, turns, k) + turns[k].work - start - tick * (k + 1)
  {
    assert tick * (k + 1) == tick * k + tick;
  }

  lemma {:induction false} OneVisit(was: seq<Event>, i: nat, now: seq<Event>, j: nat,
                 before: seq<nat>, calls: seq<nat>, cancelled: set<nat>)
    requires i < |was| && j <= |now|
    requires now[j..] == was[i + 1..] && calls == before + (if Fires(was[i], cancelled) then [was[i].id] else [])
    requires now[..j] == was[..i] + (match Visit(was[i], cancelled) case None => [] case Some(e) => [e])
    ensures now[..j] + PassOver(now[j..], cancelled) == was[..i] + PassOver(was[i..], cancelled)
    ensures calls + Fired(now[j..], cancelled) == before + Fired(was[i..], cancelled)
  {
    assert was[i..][1..] == was[i + 1..];
  }

  // ----- timing -----

  /** A pass never begins before its tick, and if it begins later than its own wait overshoots,
      the turn before it has used up more than a tick. */
  lemma {:induction false} NeverEarly(start: int, tick: nat, turns: seq<Turn>, k: nat)
    requires k < |turns|
    ensures PassTime(start, tick, turns, k) >= start + tick * (k + 1) + turns[k].overshoot
    ensures PassTime(start, tick, turns, k) == start + tick * (k + 1) + turns[k].overshoot <==>
      k == 0 || Lateness(tick, turns, k - 1) + turns[k - 1].work <= tick
  {
  }

  /** Lateness does not accumulate: if every wait overshoots by at most `e` and a pass's work
      fits in what that leaves of a tick, no pass is later than `e`. */
  lemma {:induction false} OnTime(tick: nat, turns: seq<Turn>, e: nat, k: nat)
    requires k < |turns|
    requires forall i | 0 <= i <= k :: turns[i].overshoot <= e && turns[i].work + e <= tick
    ensures 0 <= Lateness(tick, turns, k) <= e
  {
    if k > 0 {
      OnTime(tick, turns, e, k - 1);
    }
  }

  lemma TurnGains(tick: nat, turns: seq<Turn>, e: nat, gain: nat, k: nat, late: int, before: nat)
    requires 0 < k < |turns| && turns[k].overshoot <= e && turns[k - 1].work + e + gain <= tick
    requires Lateness(tick, turns, k - 1) <= e + Excess(late - gain * before)
    ensures Lateness(tick, turns, k) <= e + Excess(late - gain * (before + 1))
  {
    assert gain * (before + 1) == gain * before + gain;
  }

  /** And it is made up for: after a pass that was late by any amount, each turn that leaves
      `gain` of its tick takes at least that much off, until only the overshoot is left. */
  lemma {:induction false} CatchesUp(tick: nat, turns: seq<Turn>, e: nat, gain: nat, from: nat, k: nat)
    requires from <= k < |turns|
    requires forall i | from < i <= k :: turns[i].overshoot <= e
    requires forall i | from <= i < k :: turns[i].work + e + gain <= tick
    ensures Lateness(tick, turns, k) <= e + Excess(Lateness(tick, turns, from) - gain * (k - from))
    decreases k
  {
    if k > from {
      CatchesUp(tick, turns, e, gain, from, k - 1);
      var before := k - 1 - from;
      TurnGains(tick, turns, e, gain, k, Lateness(tick, turns, from), before);
      assert before + 1 == k - from;
    }
  }

  // ----- events -----

  function Find(events: seq<Event>, id: nat): Option<Event> {
    if events == [] then None
    else if events[0].id == id then Some(events[0])
    else Find(events[1..], id)
  }

  function Count(ids: seq<nat>, id: nat): nat {
    if ids == [] then 0 else (if ids[0] == id then 1 else 0) + Count(ids[1..], id)
  }

  lemma {:induction false} CountAppend(a: seq<nat>, b: seq<nat>, id: nat)
    ensures Count(a + b, id) == Count(a, id) + Count(b, id)
  {
    if a == [] {
      assert a + b == b;
    } else {
      assert (a + b)[1..] == a[1..] + b;
      CountAppend(a[1..], b, id);
    }
  }

  lemma {:induction false} FindMember(events: seq<Event>, i: nat)
    requires Distinct(events) && i < |events|
    ensures Find(events, events[i].id) == Some(events[i])
  {
    if i > 0 {
      FindMember(events[1..], i - 1);
    }
  }

  lemma {:induction false} NotFound(events: seq<Event>, id: nat)
    ensures Find(events, id) == None <==> forall i | 0 <= i < |events| :: events[i].id != id
  {
    if events != [] {
      NotFound(events[1..], id);
      assert events == [events[0]] + events[1..];
    }
  }

  /** An event is visited once per pass and whatever happens to others is nothing to it. */
  lemma {:induction false} PassFinds(events: seq<Event>, cancelled: set<nat>, id: nat)
    requires Distinct(events)
    ensures match Find(events, id)
      case None => Find(PassOver(events, cancelled), id) == None && Count(Fired(events, cancelled), id) == 0
      case Some(e) =>
        && Find(PassOver(events, cancelled), id) == Visit(e, cancelled)
        && Count(Fired(events, cancelled), id) == if Fires(e, cancelled) then 1 else 0
  {
    if events != [] {
      PassFinds(events[1..], cancelled, id);
      CountAppend(if Fires(events[0], cancelled) then [events[0].id] else [], Fired(events[1..], cancelled), id);
      if events[0].id == id {
        NotFound(events[1..], id);
      }
    }
  }

  /** The ids that survive a pass are among those before it, in order. */
  lemma {:induction false} PassKeepsIds(events: seq<Event>, cancelled: set<nat>)
    requires Distinct(events)
    ensures Distinct(PassOver(events, cancelled))
    ensures forall e | e in PassOver(events, cancelled) :: exists d | d in events :: d.id == e.id
  {
    if events != [] {
      var rest := PassOver(events[1..], cancelled);
      PassKeepsIds(events[1..], cancelled);
      forall e | e in PassOver(events, cancelled) ensures exists d | d in events :: d.id == e.id {
        if e in rest {
          var d :| d in events[1..] && d.id == e.id;
          assert d in events;
        } else {
          assert events[0] in events && events[0].id == e.id;
        }
      }
      HeadDistinct(events, rest, cancelled);
    }
  }

  lemma {:induction false} HeadDistinct(events: seq<Event>, rest: seq<Event>, cancelled: set<nat>)
    requires events != [] && Distinct(events) && Distinct(rest) && rest == PassOver(events[1..], cancelled)
    requires forall e | e in rest :: exists d | d in events[1..] :: d.id == e.id
    ensures Distinct(PassOver(events, cancelled))
  {
    forall i | 0 <= i < |rest| ensures rest[i].id != events[0].id {
      assert rest[i] in rest;
      var d :| d in events[1..] && d.id == rest[i].id;
      var j :| 0 <= j < |events| - 1 && events[1..][j] == d;
      assert events[j + 1].id == d.id;
    }
  }

  /** The set is ordered by id. */
  predicate Ordered(events: seq<Event>) {
    forall i, j | 0 <= i < j < |events| :: events[i].id < events[j].id
  }

  lemma {:induction false} FiredFrom(events: seq<Event>, cancelled: set<nat>, k: nat) returns (i: nat)
    requires k < |Fired(events, cancelled)|
    ensures i < |events| && events[i].id == Fired(events, cancelled)[k]
  {
    var n := if Fires(events[0], cancelled) then 1 else 0;
    if k < n {
      i := 0;
    } else {
      i := FiredFrom(events[1..], cancelled, k - n);
      i := i + 1;
    }
  }

  /** A pass calls what is due in the order of the ids. */
  lemma {:induction false} CallsInOrder(events: seq<Event>, cancelled: set<nat>, j: nat, k: nat)
    requires Ordered(events) && j < k < |Fired(events, cancelled)|
    ensures Fired(events, cancelled)[j] < Fired(events, cancelled)[k]
  {
    var n := if Fires(events[0], cancelled) then 1 else 0;
    if j < n {
      var i := FiredFrom(events[1..], cancelled, k - n);
      assert events[1..][i] == events[i + 1];
    } else {
      CallsInOrder(events[1..], cancelled, j - n, k - n);
    }
  }

  function Added(turns: seq<Turn>): seq<Event> {
    if turns == [] then [] else turns[0].added + Added(turns[1..])
  }

  lemma DistinctParts(a: seq<Event>, b: seq<Event>)
    ensures Distinct(a + b) <==>
      Distinct(a) && Distinct(b) && forall d, e | d in a && e in b :: d.id != e.id
  {
    var s := a + b;
    if Distinct(s) {
      assert forall i | 0 <= i < |b| :: b[i] == s[|a| + i];
      assert forall i | 0 <= i < |a| :: a[i] == s[i];
    }
  }

  /** `set_timeout` and `set_interval` number the events: no id is used twice in a run. */
  predicate FreshIds(events: seq<Event>, turns: seq<Turn>) {
    Distinct(events + Added(turns))
  }

  lemma {:induction false} FoundMember(events: seq<Event>, id: nat)
    ensures Find(events, id).Some? ==> Find(events, id).value in events
  {
    if events != [] && events[0].id != id {
      FoundMember(events[1..], id);
    }
  }

  /** An event can be looked up by its id exactly if it is there. */
  lemma {:induction false} Present(events: seq<Event>, turns: seq<Turn>, e: Event)
    requires FreshIds(events, turns)
    ensures e in events <==> Find(events, e.id) == Some(e)
  {
    DistinctParts(events, Added(turns));
    if e in events {
      var i :| 0 <= i < |events| && events[i] == e;
      FindMember(events, i);
    }
    FoundMember(events, e.id);
  }

  lemma {:induction false} FreshAfter(events: seq<Event>, turns: seq<Turn>)
    requires turns != [] && FreshIds(events, turns)
    ensures Distinct(events + turns[0].added)
    ensures FreshIds(PassOver(events + turns[0].added, turns[0].cancelled), turns[1..])
  {
    var all := events + turns[0].added;
    assert events + Added(turns) == all + Added(turns[1..]);
    DistinctParts(all, Added(turns[1..]));
    PassKeepsIds(all, turns[0].cancelled);
    var next := PassOver(all, turns[0].cancelled);
    forall d, e | d in next && e in Added(turns[1..]) ensures d.id != e.id {
      var c :| c in all && c.id == d.id;
    }
    DistinctParts(next, Added(turns[1..]));
  }

  lemma {:induction false} FindAppend(a: seq<Event>, b: seq<Event>, id: nat)
    requires Find(a, id).Some?
    ensures Find(a + b, id) == Find(a, id)
  {
    assert (a + b)[1..] == a[1..] + b;
    if a[0].id != id {
      FindAppend(a[1..], b, id);
    }
  }

  /** One turn, seen by one event. */
  lemma {:induction false} TurnFinds(events: seq<Event>, turns: seq<Turn>, e: Event)
    requires turns != [] && FreshIds(events, turns) && Find(events, e.id) == Some(e)
    ensures var next := PassOver(events + turns[0].added, turns[0].cancelled);
      && FreshIds(next, turns[1..]) && Find(next, e.id) == Visit(e, turns[0].cancelled)
      && Rounds(events, turns) == Rounds(next, turns[1..])
      && Count(Calls(events, turns), e.id)
         == (if Fires(e, turns[0].cancelled) then 1 else 0) + Count(Calls(next, turns[1..]), e.id)
  {
    var all := events + turns[0].added;
    FreshAfter(events, turns);
    FindAppend(events, turns[0].added, e.id);
    PassFinds(all, turns[0].cancelled, e.id);
    CountAppend(Fired(all, turns[0].cancelled), Calls(PassOver(all, turns[0].cancelled), turns[1..]), e.id);
  }

  predicate NeverCancelled(turns: seq<Turn>, id: nat) {
    forall i | 0 <= i < |turns| :: id !in turns[i].cancelled
  }

  predicate AlwaysCancelled(turns: seq<Turn>, id: nat) {
    forall i | 0 <= i < |turns| :: id in turns[i].cancelled
  }

  /** Full periods of `period` ticks in `n` ticks from `elapsed` on, and what is left over. */
  function Periods(elapsed: nat, n: nat, period: nat): nat
    requires period > 0
  {
    (elapsed + n) / period
  }

  function Phase(elapsed: nat, n: nat, period: nat): nat
    requires period > 0
  {
    (elapsed + n) % period
  }

  lemma NoTicks(elapsed: nat, period: nat)
    requires elapsed < period
    ensures Periods(elapsed, 0, period) == 0 && Phase(elapsed, 0, period) == elapsed
  {
  }

  lemma OneTick(elapsed: nat, n: nat, period: nat)
    requires elapsed + 1 < period
    ensures Periods(elapsed, n + 1, period) == Periods(elapsed + 1, n, period)
    ensures Phase(elapsed, n + 1, period) == Phase(elapsed + 1, n, period)
  {
  }

  lemma LastTick(elapsed: nat, n: nat, period: nat)
    requires elapsed + 1 == period
    ensures Periods(elapsed, n + 1, period) == 1 + Periods(0, n, period)
    ensures Phase(elapsed, n + 1, period) == Phase(0, n, period)
  {
    NextTurn(n, period);
  }

  /** An interval event that is not cancelled: after n passes its function has been called
      once per full period, and its count is where it should be. */
  lemma {:induction false} IntervalFires(events: seq<Event>, turns: seq<Turn>, e: Event)
    requires FreshIds(events, turns) && Find(events, e.id) == Some(e)
    requires e.isInterval && e.elapsed < e.period && NeverCancelled(turns, e.id)
    ensures Find(Rounds(events, turns), e.id) == Some(e.(elapsed := (e.elapsed + |turns|) % e.period))
    ensures Count(Calls(events, turns), e.id) == (e.elapsed + |turns|) / e.period
    decreases |turns|
  {
    if turns == [] {
      NoTicks(e.elapsed, e.period);
    } else {
      var next := PassOver(events + turns[0].added, turns[0].cancelled);
      TurnFinds(events, turns, e);
      if Due(e) {
        LastTick(e.elapsed, |turns| - 1, e.period);
        IntervalFires(next, turns[1..], e.(elapsed := 0));
      } else {
        OneTick(e.elapsed, |turns| - 1, e.period);
        IntervalFires(next, turns[1..], e.(elapsed := e.elapsed + 1));
      }
    }
  }

  /** A timeout that is not cancelled is called exactly once, at its tick, and is gone then. */
  lemma {:induction false} TimeoutFires(events: seq<Event>, turns: seq<Turn>, e: Event)
    requires FreshIds(events, turns) && Find(events, e.id) == Some(e)
    requires !e.isInterval && e.elapsed < e.period && NeverCancelled(turns, e.id)
    ensures e.elapsed + |turns| < e.period ==>
      && Find(Rounds(events, turns), e.id) == Some(e.(elapsed := e.elapsed + |turns|))
      && Count(Calls(events, turns), e.id) == 0
    ensures e.elapsed + |turns| >= e.period ==>
      Find(Rounds(events, turns), e.id) == None && Count(Calls(events, turns), e.id) == 1
    decreases |turns|
  {
    if turns != [] {
      TurnFinds(events, turns, e);
      if Due(e) {
        GoneForGood(events, turns, e);
      } else {
        var next := PassOver(events + turns[0].added, turns[0].cancelled);
        TimeoutFires(next, turns[1..], e.(elapsed := e.elapsed + 1));
      }
    }
  }

  /** An event removed in the first of these turns does not come back. */
  lemma {:induction false} GoneForGood(events: seq<Event>, turns: seq<Turn>, e: Event)
    requires turns != [] && FreshIds(events, turns) && Find(events, e.id) == Some(e)
    requires Visit(e, turns[0].cancelled) == None
    ensures var next := PassOver(events + turns[0].added, turns[0].cancelled);
      Find(Rounds(next, turns[1..]), e.id) == None && Count(Calls(next, turns[1..]), e.id) == 0
  {
    TurnFinds(events, turns, e);
    var next := PassOver(events + turns[0].added, turns[0].cancelled);
    NotFound(events, e.id);
    var k :| 0 <= k < |events| && events[k].id == e.id;
    var all := events + turns[0].added;
    assert events + Added(turns) == all + Added(turns[1..]);
    DistinctParts(all, Added(turns[1..]));
    assert events[k] in all;
    NotAdded(next, turns[1..], e.id);
  }

  lemma {:induction false} NotAdded(events: seq<Event>, turns: seq<Turn>, id: nat)
    requires FreshIds(events, turns) && Find(events, id) == None && forall e | e in Added(turns) :: e.id != id
    ensures Find(Rounds(events, turns), id) == None && Count(Calls(events, turns), id) == 0
    decreases |turns|
  {
    if turns != [] {
      var all := events + turns[0].added;
      FreshAfter(events, turns);
      NotFound(events, id);
      forall i | 0 <= i < |all| ensures all[i].id != id {
        if i >= |events| {
          assert turns[0].added[i - |events|] in Added(turns);
        }
      }
      NotFound(all, id);
      PassFinds(all, turns[0].cancelled, id);
      NotAdded(PassOver(all, turns[0].cancelled), turns[1..], id);
      CountAppend(Fired(all, turns[0].cancelled), Calls(PassOver(all, turns[0].cancelled), turns[1..]), id);
    }
  }

  /** A cancelled event is not called any more, and is removed when it falls due. */
  lemma {:induction false} CancelledNeverFires(events: seq<Event>, turns: seq<Turn>, e: Event)
    requires FreshIds(events, turns) && Find(events, e.id) == Some(e)
    requires e.elapsed < e.period && AlwaysCancelled(turns, e.id)
    ensures Count(Calls(events, turns), e.id) == 0
    ensures e.elapsed + |turns| < e.period ==>
      Find(Rounds(events, turns), e.id) == Some(e.(elapsed := e.elapsed + |turns|))
    ensures e.elapsed + |turns| >= e.period ==> Find(Rounds(events, turns), e.id) == None
    decreases |turns|
  {
    if turns != [] {
      TurnFinds(events, turns, e);
      if Due(e) {
        GoneForGood(events, turns, e);
      } else {
        var next := PassOver(events + turns[0].added, turns[0].cancelled);
        CancelledNeverFires(next, turns[1..], e.(elapsed := e.elapsed + 1));
      }
    }
  }

  /** An event that has no tick left to fall due at (a period of 0) is never called and never removed. */
  lemma {:induction false} NeverDue(events: seq<Event>, turns: seq<Turn>, e: Event)
    requires FreshIds(events, turns) && Find(events, e.id) == Some(e) && e.period <= e.elapsed
    ensures Count(Calls(events, turns), e.id) == 0
    ensures Find(Rounds(events, turns), e.id) == Some(e.(elapsed := e.elapsed + |turns|))
    decreases |turns|
  {
    if turns != [] {
      TurnFinds(events, turns, e);
      var next, e' := PassOver(events + turns[0].added, turns[0].cancelled), e.(elapsed := e.elapsed + 1);
      assert Visit(e, turns[0].cancelled) == Some(e');
      NeverDue(next, turns[1..], e');
    }
  }

  lemma {:induction false} AddedAppend(a: seq<Turn>, b: seq<Turn>)
    ensures Added(a + b) == Added(a) + Added(b)
  {
    if a == [] {
      assert a + b == b;
    } else {
      assert (a + b)[1..] == a[1..] + b;
      AddedAppend(a[1..], b);
    }
  }

  lemma FreshParts(events: seq<Event>, a: seq<Turn>, b: seq<Turn>)
    requires FreshIds(events, a + b)
    ensures FreshIds(events, a)
    ensures a == [] ==> FreshIds(events, b)
  {
    AddedAppend(a, b);
    assert events + Added(a + b) == (events + Added(a)) + Added(b);
    DistinctParts(events + Added(a), Added(b));
    if a == [] {
      assert a + b == b;
    }
  }

  /** A run in two parts. */
  lemma {:induction false} RunAppend(events: seq<Event>, a: seq<Turn>, b: seq<Turn>)
    requires FreshIds(events, a + b)
    ensures FreshIds(events, a) && FreshIds(Rounds(events, a), b)
    ensures Rounds(events, a + b) == Rounds(Rounds(events, a), b)
    ensures Calls(events, a + b) == Calls(events, a) + Calls(Rounds(events, a), b)
    decreases |a|
  {
    FreshParts(events, a, b);
    if a == [] {
      assert a + b == b;
    } else {
      var next := PassOver(events + a[0].added, a[0].cancelled);
      assert (a + b)[0] == a[0] && (a + b)[1..] == a[1..] + b;
      FreshAfter(events, a + b);
      RunAppend(next, a[1..], b);
      Regroup(Fired(events + a[0].added, a[0].cancelled), Calls(next, a[1..]), Calls(Rounds(next, a[1..]), b));
    }
  }

  lemma Regroup(x: seq<nat>, y: seq<nat>, z: seq<nat>)
    ensures x + (y + z) == x + y + z
  {
  }

  /** An interval event cancelled before pass c (from 0) has been called once per full period
      of the passes before, and never after. */
  lemma {:induction false} CancelStops(events: seq<Event>, before: seq<Turn>, after: seq<Turn>, e: Event)
    requires FreshIds(events, before + after) && e in events
    requires e.isInterval && e.elapsed < e.period
    requires NeverCancelled(before, e.id) && AlwaysCancelled(after, e.id)
    ensures Count(Calls(events, before + after), e.id) == (e.elapsed + |before|) / e.period
  {
    Present(events, before + after, e);
    RunAppend(events, before, after);
    IntervalFires(events, before, e);
    var now := Find(Rounds(events, before), e.id).value;
    CancelledNeverFires(Rounds(events, before), after, now);
    CountAppend(Calls(events, before), Calls(Rounds(events, before), after), e.id);
  }
}
