/** The monitoring loop and its lifecycle handlers (monitor_uol.py): the
    shared list of records and the shared "active" flag, the loop that
    probes until the flag is cleared or two hours have passed, and the
    start / stop / metrics handlers.

    The loop runs sequentially. Its environment is a trace of ticks, one per
    evaluation of the loop condition: the clock reading taken there, whether
    the stop handler cleared the flag since the previous check, and what the
    probe of that iteration would produce. */
module Monitoring {
  import opened Probe

  /** The loop's time bound, two hours, on a millisecond clock. */
  const HorizonMs: int := 7_200_000

  /** The pause after every probe, five seconds. */
  const SleepMs: int := 5_000

  /** The environment of one loop iteration. */
  datatype Tick = Tick(now: int, stopRequested: bool, stamp: string, outcome: ProbeOutcome)

  /** The trace holds a clock reading at which the two hours are over, so
      the loop ends by one of its own two conditions. */
  predicate ReachesHorizon(start: int, ticks: seq<Tick>) {
    exists k :: 0 <= k < |ticks| && ticks[k].now - start >= HorizonMs
  }

  /** The loop goes on to probe at this tick: the time bound has not passed
      and the flag, after any stop request, is still set. */
  predicate Continues(active: bool, start: int, t: Tick) {
    t.now - start < HorizonMs && active && !t.stopRequested
  }

  /** The records one run of the loop appends, given the flag at its start. */
  function Run(active: bool, start: int, ticks: seq<Tick>): (appended: seq<Record>)
    ensures |appended| <= |ticks|
    ensures forall i :: 0 <= i < |appended| ==> Consistent(appended[i])
    decreases |ticks|
  {
    if ticks == [] || !Continues(active, start, ticks[0]) then []
    else [Classify(ticks[0].stamp, ticks[0].outcome)] + Run(active, start, ticks[1..])
  }

  /** A run appends, in order, the classified outcomes of exactly the ticks
      that come before the first one at which the loop stops. */
  lemma {:induction false} RunIsProbedPrefix(active: bool, start: int, ticks: seq<Tick>)
    ensures var n := |Run(active, start, ticks)|;
      && (forall i :: 0 <= i < n ==>
            Continues(active, start, ticks[i])
            && Run(active, start, ticks)[i] == Classify(ticks[i].stamp, ticks[i].outcome))
      && (n < |ticks| ==> !Continues(active, start, ticks[n]))
    decreases |ticks|
  {
    if ticks != [] && Continues(active, start, ticks[0]) {
      RunIsProbedPrefix(active, start, ticks[1..]);
    }
  }

  /** No probe is made with the flag cleared at the start, and none is made
      once two hours have passed. */
  lemma {:induction false} RunRespectsExitConditions(active: bool, start: int, ticks: seq<Tick>)
    ensures !active ==> Run(active, start, ticks) == []
    ensures forall i :: 0 <= i < |Run(active, start, ticks)| ==> ticks[i].now - start < HorizonMs
  {
    RunIsProbedPrefix(active, start, ticks);
  }

  /** Against an unreachable endpoint every record of a run is a failure
      with neither status code nor response time. */
  lemma {:induction false} RunAgainstUnreachableTarget(active: bool, start: int, ticks: seq<Tick>)
    requires forall i :: 0 <= i < |ticks| ==> ticks[i].outcome == TransportError
    ensures forall r :: r in Run(active, start, ticks) ==>
              r.status == Failure && r.statusCode == None && r.responseTimeMs == None
  {
    RunIsProbedPrefix(active, start, ticks);
  }

  /** The clock a real run sees: the first check comes after the start time
      is read, and every iteration sleeps five seconds before the next. */
  predicate SleepSpaced(start: int, ticks: seq<Tick>) {
    && (|ticks| > 0 ==> ticks[0].now >= start)
    && forall i :: 0 <= i < |ticks| - 1 ==> ticks[i + 1].now >= ticks[i].now + SleepMs
  }

  /** On such a clock the i-th check comes at least 5 * i seconds after the start. */
  lemma {:induction false} SleepSpacedClock(start: int, ticks: seq<Tick>, i: nat)
    requires SleepSpaced(start, ticks)
    requires i < |ticks|
    ensures ticks[i].now >= start + SleepMs * i
  {
    if i > 0 {
      SleepSpacedClock(start, ticks, i - 1);
    }
  }

  /** Since every iteration sleeps five seconds, one run makes at most
      7200 / 5 = 1440 probes. */
  lemma RunProbeBound(active: bool, start: int, ticks: seq<Tick>)
    requires SleepSpaced(start, ticks)
    ensures |Run(active, start, ticks)| <= HorizonMs / SleepMs
  {
    var n := |Run(active, start, ticks)|;
    if n > 0 {
      RunIsProbedPrefix(active, start, ticks);
      SleepSpacedClock(start, ticks, n - 1);
      assert Continues(active, start, ticks[n - 1]);
    }
  }

  /** The module's two globals: the list of records and the flag. */
  class Monitor {
    var data: seq<Record>
    var active: bool

    /** Every record in the list satisfies the record invariant. */
    predicate Valid()
      reads this
    {
      forall i :: 0 <= i < |data| ==> Consistent(data[i])
    }

    /** At import the list is empty and the flag is already set. */
    constructor ()
      ensures Valid()
      ensures data == [] && active
    {
      data := [];
      active := true;
    }

    /** The start handler's effect on the state: it sets the flag. It also
        schedules a new loop on every call; RunLoop is that loop. */
    method Start()
      requires Valid()
      modifies this`active
      ensures Valid()
      ensures active && data == old(data)
    {
      active := true;
    }

    /** The stop handler: it clears the flag and nothing else. */
    method Stop()
      requires Valid()
      modifies this`active
      ensures Valid()
      ensures !active && data == old(data)
    {
      active := false;
    }

    /** The metrics handler: the list itself, every record consistent. */
    function Metrics(): (snapshot: seq<Record>)
      reads this
      ensures snapshot == data
      ensures Valid() ==> forall i :: 0 <= i < |snapshot| ==> Consistent(snapshot[i])
    {
      data
    }

    /** One probe: exactly one record goes at the end of the list. */
    method ProbeOnce(stamp: string, outcome: ProbeOutcome)
      requires Valid()
      modifies this`data
      ensures Valid()
      ensures data == old(data) + [Classify(stamp, outcome)]
      ensures active == old(active)
    {
      data := data + [Classify(stamp, outcome)];
    }

    /** The monitoring loop, started at clock reading `start`. */
    method RunLoop(start: int, ticks: seq<Tick>)
      requires Valid()
      requires ReachesHorizon(start, ticks)
      modifies this
      ensures Valid()
      ensures data == old(data) + Run(old(active), start, ticks)
      ensures !active
    {
      var i := 0;
      while ticks[i].now - start < HorizonMs
        invariant 0 <= i < |ticks|
        invariant exists k :: i <= k < |ticks| && ticks[k].now - start >= HorizonMs
        invariant Valid()
        invariant data + Run(active, start, ticks[i..]) == old(data) + Run(old(active), start, ticks)
        decreases |ticks| - i
      {
        var tick := ticks[i];
        ghost var flagAtHead := active;
        if tick.stopRequested {
          Stop();
        }
        if !active {
          assert Run(flagAtHead, start, ticks[i..]) == [];
          break;
        }
        assert ticks[i..][1..] == ticks[i + 1..];
        ProbeOnce(tick.stamp, tick.outcome);
        i := i + 1;
      }
      active := false;
    }

    /** A start request whose scheduled loop then runs to its end: the
        records already in the list are kept and the new ones follow. */
    method StartAndRun(start: int, ticks: seq<Tick>)
      requires Valid()
      requires ReachesHorizon(start, ticks)
      modifies this
      ensures Valid()
      ensures data == old(data) + Run(true, start, ticks)
      ensures !active
    {
      Start();
      RunLoop(start, ticks);
    }
  }
}
