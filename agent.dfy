/**
 * The challenge loop of agent.js: up to 30 slots, each resolved by the
 * strategy cascade, bookkept in the module-level `metrics` record, with the
 * wall-clock budget checked after every slot.
 *
 * `Date.now()` becomes input: `start` is the reading taken when the run
 * begins, before the page is loaded and the START button clicked, so the
 * budget also covers page loading;
 * `clock[i - 1]` the reading taken by the timeout check after slot `i`, and
 * `finish` the reading taken after the loop.
 */
module Agent {
  import opened Cascade

  /** Number of challenge slots; also the summary's `total`. */
  const MaxSlots: nat := 30

  /** `CONFIG.timeout`, in milliseconds. */
  const Timeout: int := 300000

  /** Estimated tokens per solved slot. */
  const TokensPerSolve: nat := 400

  /** One entry of `metrics.challenges`. */
  datatype Record = Record(num: nat, strategy: Strategy, duration: int, success: bool)

  /** The counters and records of `metrics` as a value. */
  datatype Tally = Tally(solved: nat, failed: nat, challenges: seq<Record>)

  /** `metrics.startTime` / `metrics.endTime`, `null` until set. */
  datatype Stamp = Unset | At(ms: int)

  /** The `summary`, `performance.estimatedTokens` and `challenges` of the results object. */
  datatype Summary = Summary(
    total: nat,
    solved: nat,
    failed: nat,
    totalTimeMs: int,
    estimatedTokens: nat,
    challenges: seq<Record>)

  /** Bookkeeping after slot `i` ended with `a`: the `if (success)` branches and the `catch`. */
  function Step(t: Tally, a: Attempt, i: nat): (r: Tally)
    ensures r.solved + r.failed == t.solved + t.failed + 1
    ensures t.challenges <= r.challenges
    ensures |r.challenges| == |t.challenges| + (if a.Completed? then 1 else 0)
    ensures a.Completed? ==> r.challenges[|t.challenges|].num == i
    ensures r.solved == t.solved + (if a.Completed? && a.success then 1 else 0)
  {
    match a
    case Raised => Tally(t.solved, t.failed + 1, t.challenges)
    case Completed(s, success, d) =>
      if success then Tally(t.solved + 1, t.failed, t.challenges + [Record(i, s, d, true)])
      else Tally(t.solved, t.failed + 1, t.challenges + [Record(i, s, d, false)])
  }

  /** The metrics after slots 1..k have run. */
  function Replay(slots: seq<Slot>, k: nat): Tally
    requires k <= |slots|
  {
    if k == 0 then Tally(0, 0, [])
    else Step(Replay(slots, k - 1), AttemptOf(slots[k - 1]), k)
  }

  /** The timeout check after slot `i`. */
  predicate TimedOut(clock: seq<int>, start: int, timeout: int, i: nat)
    requires 1 <= i <= |clock|
  {
    clock[i - 1] - start > timeout
  }

  /** The last slot run when slot `i` is reached: the first at which the check fires, or the 30th. */
  function StopAt(clock: seq<int>, start: int, timeout: int, i: nat): (n: nat)
    requires |clock| == MaxSlots && 1 <= i <= MaxSlots
    ensures i <= n <= MaxSlots
    ensures n == MaxSlots || TimedOut(clock, start, timeout, n)
    ensures forall k :: i <= k < n ==> !TimedOut(clock, start, timeout, k)
    decreases MaxSlots - i
  {
    if i == MaxSlots || TimedOut(clock, start, timeout, i) then i
    else StopAt(clock, start, timeout, i + 1)
  }

  /** Number of slots the loop attempts. */
  function Attempted(clock: seq<int>, start: int, timeout: int): nat
    requires |clock| == MaxSlots
  {
    StopAt(clock, start, timeout, 1)
  }

  /** The metrics at the end of the loop. */
  function Outcome(slots: seq<Slot>, clock: seq<int>, start: int, timeout: int): Tally
    requires |slots| == MaxSlots && |clock| == MaxSlots
  {
    Replay(slots, Attempted(clock, start, timeout))
  }

  /** The results object written after the loop. */
  function Summarize(t: Tally, totalTime: int): (r: Summary)
    ensures r.total == MaxSlots
    ensures t.solved == |t.challenges| ==> r.estimatedTokens == TokensPerSolve * |r.challenges|
    ensures r.solved == t.solved && r.failed == t.failed && r.challenges == t.challenges
  {
    Summary(MaxSlots, t.solved, t.failed, totalTime, t.solved * TokensPerSolve, t.challenges)
  }

  /** True iff some record carries ordinal `i`. */
  predicate Recorded(challenges: seq<Record>, i: nat) {
    exists j :: 0 <= j < |challenges| && challenges[j].num == i
  }

  /** The module-level `metrics` object. */
  class Metrics {
    var startTime: Stamp
    var endTime: Stamp
    var solved: nat
    var failed: nat
    var challenges: seq<Record>
    var tokensUsed: nat

    constructor ()
      ensures startTime == Unset && endTime == Unset
      ensures View() == Tally(0, 0, []) && tokensUsed == 0
    {
      startTime := Unset;
      endTime := Unset;
      solved := 0;
      failed := 0;
      challenges := [];
      tokensUsed := 0;
    }

    function View(): Tally
      reads this
    {
      Tally(solved, failed, challenges)
    }

    /**
     * Books how slot `i` ended: a success is counted and recorded, the
     * unreachable unsuccessful completion is counted as failed and recorded,
     * and a raised slot is only counted as failed.
     */
    method Book(i: nat, attempt: Attempt)
      modifies this
      ensures View() == Step(old(View()), attempt, i)
      ensures startTime == old(startTime) && endTime == old(endTime) && tokensUsed == old(tokensUsed)
    {
      match attempt {
        case Raised =>
          failed := failed + 1;
        case Completed(strategy, success, duration) =>
          if success {
            solved := solved + 1;
            challenges := challenges + [Record(i, strategy, duration, success)];
          } else {
            failed := failed + 1;
            challenges := challenges + [Record(i, strategy, duration, false)];
          }
      }
    }

    /**
     * The solve phase: the loop over at most 30 slots, each resolved and
     * booked, with the timeout check after each slot; then the wrap-up.
     */
    method Run(slots: seq<Slot>, start: int, clock: seq<int>, finish: int) returns (summary: Summary)
      requires |slots| == MaxSlots && |clock| == MaxSlots
      requires View() == Tally(0, 0, [])
      modifies this
      ensures startTime == At(start) && endTime == At(finish)
      ensures View() == Outcome(slots, clock, start, Timeout)
      ensures tokensUsed == solved * TokensPerSolve
      ensures summary == Summarize(View(), finish - start)
    {
      startTime := At(start);
      SolveAll(slots, clock);
      summary := Finish(finish);
    }

    /** The 30-slot loop; it breaks right after the first slot at which the budget is exceeded. */
    method SolveAll(slots: seq<Slot>, clock: seq<int>)
      requires |slots| == MaxSlots && |clock| == MaxSlots
      requires startTime.At? && View() == Tally(0, 0, [])
      modifies this
      ensures startTime == old(startTime) && endTime == old(endTime) && tokensUsed == old(tokensUsed)
      ensures View() == Outcome(slots, clock, startTime.ms, Timeout)
    {
      ghost var attempted := MaxSlots;
      var i := 1;
      while i <= MaxSlots
        invariant 1 <= i <= MaxSlots + 1
        invariant startTime == old(startTime) && endTime == old(endTime) && tokensUsed == old(tokensUsed)
        invariant attempted == MaxSlots
        invariant View() == Replay(slots, i - 1)
        invariant forall k :: 1 <= k < i ==> !TimedOut(clock, startTime.ms, Timeout, k)
      {
        var attempt, _ := ResolveSlot(i, slots[i - 1]);
        Book(i, attempt);
        if clock[i - 1] - startTime.ms > Timeout {
          attempted := i;
          break;
        }
        i := i + 1;
      }
      AttemptedIsFirstTimeout(clock, startTime.ms, Timeout, attempted);
    }

    /** After the loop: the end stamp, the token estimate and the results object. */
    method Finish(finish: int) returns (summary: Summary)
      requires startTime.At?
      modifies this
      ensures startTime == old(startTime) && endTime == At(finish) && View() == old(View())
      ensures tokensUsed == solved * TokensPerSolve
      ensures summary == Summarize(View(), finish - startTime.ms)
    {
      endTime := At(finish);
      var totalTime := endTime.ms - startTime.ms;
      tokensUsed := solved * TokensPerSolve;
      summary := Summary(MaxSlots, solved, failed, totalTime, tokensUsed, challenges);
    }
  }

  /** The counters agree with the records: every record is a solve, every other slot a failure. */
  lemma {:induction false} ReplayCounts(slots: seq<Slot>, k: nat)
    requires k <= |slots|
    ensures Replay(slots, k).solved == |Replay(slots, k).challenges|
    ensures Replay(slots, k).solved + Replay(slots, k).failed == k
  {
    if k > 0 {
      ReplayCounts(slots, k - 1);
    }
  }

  /** Record `r` is what its own slot produced: the chosen strategy, marked successful. */
  predicate RecordMatches(slots: seq<Slot>, r: Record) {
    && 1 <= r.num <= |slots|
    && r.success
    && r.strategy == Chosen(slots[r.num - 1])
    && r.strategy != NoStrategy
    && r.duration == slots[r.num - 1].duration
  }

  /** Every record matches its slot and carries an ordinal of at most `k`. */
  predicate RecordsMatch(slots: seq<Slot>, cs: seq<Record>, k: nat) {
    forall j :: 0 <= j < |cs| ==> cs[j].num <= k && RecordMatches(slots, cs[j])
  }

  /** Ordinals strictly increase along the records. */
  predicate Ascending(cs: seq<Record>) {
    forall j1, j2 :: 0 <= j1 < j2 < |cs| ==> cs[j1].num < cs[j2].num
  }

  /** The records after slot k are those after slot k - 1, plus slot k's own when it completed. */
  lemma ReplayAppends(slots: seq<Slot>, k: nat)
    requires 1 <= k <= |slots|
    ensures var obs := slots[k - 1];
      Replay(slots, k).challenges ==
        Replay(slots, k - 1).challenges +
        (if AttemptOf(obs).Completed? then [Record(k, Chosen(obs), obs.duration, true)] else [])
  {
  }

  /** Each record is the chosen strategy of its own slot, marked successful, with ordinal in 1..k. */
  lemma {:induction false} ReplayRecordsMatch(slots: seq<Slot>, k: nat)
    requires k <= |slots|
    ensures RecordsMatch(slots, Replay(slots, k).challenges, k)
  {
    if k > 0 {
      ReplayRecordsMatch(slots, k - 1);
      ReplayAppends(slots, k);
      var prev := Replay(slots, k - 1).challenges;
      var cs := Replay(slots, k).challenges;
      var obs := slots[k - 1];
      assert Priority[FirstApplicable(obs, 0)] in Priority;
      forall j | 0 <= j < |cs|
        ensures cs[j].num <= k && RecordMatches(slots, cs[j])
      {
        if j < |prev| {
          assert cs[j] == prev[j];
        }
      }
    }
  }

  /** Record ordinals strictly increase. */
  lemma {:induction false} ReplayAscending(slots: seq<Slot>, k: nat)
    requires k <= |slots|
    ensures Ascending(Replay(slots, k).challenges)
  {
    if k > 0 {
      ReplayAscending(slots, k - 1);
      ReplayRecordsMatch(slots, k - 1);
      ReplayAppends(slots, k);
      var prev := Replay(slots, k - 1).challenges;
      var cs := Replay(slots, k).challenges;
      forall j1, j2 | 0 <= j1 < j2 < |cs|
        ensures cs[j1].num < cs[j2].num
      {
        assert cs[j1] == prev[j1];
        if j2 < |prev| {
          assert cs[j2] == prev[j2];
        }
      }
    }
  }

  /** Ordinal i (1 <= i <= k) has a record exactly when slot i did not raise. */
  lemma {:induction false} ReplayRecordedIff(slots: seq<Slot>, k: nat)
    requires k <= |slots|
    ensures forall i :: 1 <= i <= k ==>
      (Recorded(Replay(slots, k).challenges, i) <==> AttemptOf(slots[i - 1]).Completed?)
  {
    if k > 0 {
      ReplayRecordedIff(slots, k - 1);
      ReplayRecordsMatch(slots, k - 1);
      ReplayAppends(slots, k);
      var prev := Replay(slots, k - 1).challenges;
      var cs := Replay(slots, k).challenges;
      forall i | 1 <= i < k
        ensures Recorded(cs, i) <==> Recorded(prev, i)
      {
        if Recorded(cs, i) {
          var j :| 0 <= j < |cs| && cs[j].num == i;
          assert j < |prev|;
          assert prev[j].num == i;
        }
        if Recorded(prev, i) {
          var j :| 0 <= j < |prev| && prev[j].num == i;
          assert cs[j].num == i;
        }
      }
      if AttemptOf(slots[k - 1]).Completed? {
        assert cs[|prev|].num == k;
      }
    }
  }

  /** Later slots only append: the records after k slots are a prefix of those after k' slots. */
  lemma {:induction false} ReplayPrefix(slots: seq<Slot>, k: nat, k': nat)
    requires k <= k' <= |slots|
    ensures Replay(slots, k).challenges <= Replay(slots, k').challenges
    ensures Replay(slots, k).solved <= Replay(slots, k').solved
    ensures Replay(slots, k).failed <= Replay(slots, k').failed
    decreases k' - k
  {
    if k < k' {
      ReplayPrefix(slots, k, k' - 1);
    }
  }

  /**
   * The loop attempts between 1 and 30 slots: it stops right after the first
   * slot whose check fires, so the first slot runs whatever the budget.
   */
  lemma AttemptedIsFirstTimeout(clock: seq<int>, start: int, timeout: int, n: nat)
    requires |clock| == MaxSlots && 1 <= n <= MaxSlots
    ensures Attempted(clock, start, timeout) == n <==>
              (n == MaxSlots || TimedOut(clock, start, timeout, n)) &&
              forall k :: 1 <= k < n ==> !TimedOut(clock, start, timeout, k)
  {
  }

  /**
   * At the end of the run: solved equals the number of records, solved plus
   * failed equals the slots attempted, and no ordinal after the slot at which
   * the check fired is recorded.
   */
  lemma OutcomeBookkeeping(slots: seq<Slot>, clock: seq<int>, start: int, timeout: int)
    requires |slots| == MaxSlots && |clock| == MaxSlots
    ensures var t := Outcome(slots, clock, start, timeout);
      t.solved == |t.challenges| &&
      t.solved + t.failed == Attempted(clock, start, timeout) &&
      1 <= t.solved + t.failed <= MaxSlots
    ensures forall i, j ::
      (1 <= i <= MaxSlots && TimedOut(clock, start, timeout, i) &&
       0 <= j < |Outcome(slots, clock, start, timeout).challenges|) ==>
        Outcome(slots, clock, start, timeout).challenges[j].num <= i
  {
    var n := Attempted(clock, start, timeout);
    ReplayCounts(slots, n);
    ReplayRecordsMatch(slots, n);
    forall i | 1 <= i <= MaxSlots && TimedOut(clock, start, timeout, i)
      ensures n <= i
    {
    }
  }

  /**
   * With no budget at all the first slot still runs, and only it: it leaves
   * its record when it completes and a single failure when it raises.
   */
  lemma ZeroBudgetRunsFirstSlot(slots: seq<Slot>, clock: seq<int>, start: int)
    requires |slots| == MaxSlots && |clock| == MaxSlots
    requires clock[0] > start
    ensures Attempted(clock, start, 0) == 1
    ensures Outcome(slots, clock, start, 0).solved + Outcome(slots, clock, start, 0).failed == 1
    ensures Outcome(slots, clock, start, 0).challenges ==
      (if AttemptOf(slots[0]).Completed? then [Record(1, Chosen(slots[0]), slots[0].duration, true)] else [])
  {
    AttemptedIsFirstTimeout(clock, start, 0, 1);
    assert Replay(slots, 1) == Step(Tally(0, 0, []), AttemptOf(slots[0]), 1);
  }

  /** Thirty slots that each show an enabled button and never throw are all solved by clicking. */
  lemma AllButtonsAllSolved(slots: seq<Slot>, clock: seq<int>, start: int, timeout: int)
    requires |slots| == MaxSlots && |clock| == MaxSlots
    requires forall k :: 0 <= k < MaxSlots ==>
      Shown(slots[k].button) && !slots[k].delayThrows && !slots[k].actionThrows
    requires forall k :: 1 <= k < MaxSlots ==> !TimedOut(clock, start, timeout, k)
    ensures Outcome(slots, clock, start, timeout).solved == MaxSlots
    ensures Outcome(slots, clock, start, timeout).failed == 0
    ensures forall j :: 0 <= j < |Outcome(slots, clock, start, timeout).challenges| ==>
      Outcome(slots, clock, start, timeout).challenges[j].strategy == Button
  {
    AttemptedIsFirstTimeout(clock, start, timeout, MaxSlots);
    var n := Attempted(clock, start, timeout);
    AllSolved(slots, n);
    ReplayCounts(slots, n);
    ReplayRecordsMatch(slots, n);
    forall k | 0 <= k < MaxSlots
      ensures Chosen(slots[k]) == Button
    {
      ChosenIsFirstApplicable(slots[k], 0);
    }
  }

  lemma {:induction false} AllSolved(slots: seq<Slot>, k: nat)
    requires k <= |slots|
    requires forall m :: 0 <= m < k ==> !slots[m].delayThrows && !slots[m].actionThrows
    ensures Replay(slots, k).failed == 0
  {
    if k > 0 {
      AllSolved(slots, k - 1);
    }
  }

  /**
   * The results report 30 as the total whatever was attempted, and the token
   * estimate is 400 per record, at most 12000.
   */
  lemma SummaryTokens(slots: seq<Slot>, clock: seq<int>, start: int, timeout: int, finish: int)
    requires |slots| == MaxSlots && |clock| == MaxSlots
    ensures var s := Summarize(Outcome(slots, clock, start, timeout), finish - start);
      s.total == MaxSlots &&
      s.estimatedTokens == TokensPerSolve * |s.challenges| &&
      s.estimatedTokens <= TokensPerSolve * Attempted(clock, start, timeout) <= 12000 &&
      s.totalTimeMs == finish - start
  {
    OutcomeBookkeeping(slots, clock, start, timeout);
  }
}
