/** What the aggregate is: its value for an empty log, and what each event does to it. */
module AggregateTheorems {
  import opened Prelude
  import opened Results
  import opened LedgerTheorems
  import opened RunLedgers

  lemma EmptyAggregate(tasks: seq<TaskKey>)
    ensures AggregateOf(tasks, []) == Aggregate(|tasks|, 0, 0, 0, 0, 0, |tasks|, map[], 0.0, None)
  {
    RewardSumOfNothing(tasks);
    NoReasons();
    assert MissingKeys([]) == {};
  }

  /** An event that ended an attempt without a valid result. */
  predicate EndsInvalid(e: AttemptEvent) {
    e.event == Terminal && e.outcome == Some(Invalid) && e.reason.Some?
  }

  /** An event that ended an attempt with the finite reward `v`. */
  predicate EndsValid(e: AttemptEvent, v: real) {
    e.event == Terminal && e.outcome == Some(Valid) && e.reward == Some(Finite(v))
  }

  /** A legal terminal event is one or the other. */
  lemma EndsSomehow(e: AttemptEvent)
    requires Legal(e) && e.event == Terminal
    ensures EndsInvalid(e) != exists v :: EndsValid(e, v)
    ensures IsValid(e) <==> exists v :: EndsValid(e, v)
  {
    if e.outcome == Some(Valid) {
      assert EndsValid(e, e.reward.value.value);
    }
  }

  /** Each accepted event counts once, where it belongs: in the count of its kind; a started attempt is missing
      until it ends; an invalid one under its reason. */
  lemma AppendCounts(tasks: seq<TaskKey>, log: seq<AttemptEvent>, e: AttemptEvent)
    requires Built(tasks, log) && Legal(e) && Accepted(tasks, log, e)
    ensures var a, b := AggregateOf(tasks, log), AggregateOf(tasks, log + [e]);
            && b.plannedTasks == a.plannedTasks == |tasks|
            && b.plannedAttempts == a.plannedAttempts + (if e.event == Planned then 1 else 0)
            && b.startedAttempts == a.startedAttempts + (if e.event == Started then 1 else 0)
            && b.terminalAttempts == a.terminalAttempts + (if e.event == Terminal then 1 else 0)
            && b.missingAttempts
               == a.missingAttempts + (if e.event == Started then 1 else if e.event == Terminal then -1 else 0)
  {
    NoOtherKind(e);
    KindAppend(log, e, Planned);
    KindAppend(log, e, Started);
    KindAppend(log, e, Terminal);
    AppendAddsUp(tasks, log, e);
  }

  lemma CountsReason(log: seq<AttemptEvent>, e: AttemptEvent, r: Reason)
    requires Legal(e) && EndsInvalid(e) && e.reason == Some(r)
    ensures var m := InvalidByReason(log);
            InvalidByReason(log + [e]) == m[r := (if r in m then m[r] else 0) + 1]
  {
    HasListedReason(e);
    InvalidStep(log, e);
  }

  lemma CountsNoReason(log: seq<AttemptEvent>, e: AttemptEvent)
    requires Legal(e) && !EndsInvalid(e)
    ensures InvalidByReason(log + [e]) == InvalidByReason(log)
  {
    HasListedReason(e);
    InvalidStep(log, e);
  }

  /** An invalid end counts once more under its reason; no other event counts under any. */
  lemma AppendCountsReasons(tasks: seq<TaskKey>, log: seq<AttemptEvent>, e: AttemptEvent)
    requires Legal(e)
    ensures var m, m' := AggregateOf(tasks, log).invalidByReason, AggregateOf(tasks, log + [e]).invalidByReason;
            if EndsInvalid(e) then m' == m[e.reason.value := (if e.reason.value in m then m[e.reason.value] else 0) + 1]
            else m' == m
  {
    if EndsInvalid(e) {
      CountsReason(log, e, e.reason.value);
    } else {
      CountsNoReason(log, e);
    }
  }

  lemma ReplacedResult(tasks: seq<TaskKey>, results: map<TaskKey, Reward>, t: TaskKey, v: real)
    requires NoDuplicates(tasks) && t in tasks
    ensures RewardSum(tasks, results[t := Finite(v)])
            == RewardSum(tasks, results)
               + v - (if t in results && results[t].Finite? then results[t].value else 0.0)
  {
    RewardSumWithout(tasks, results[t := Finite(v)], t);
    assert results[t := Finite(v)] - {t} == results - {t};
    if t in results {
      RewardSumWithout(tasks, results, t);
    } else {
      assert results - {t} == results;
    }
  }

  /** The sum of a dictionary is nothing for the empty one, and grows by exactly the reward that is added. */
  lemma SumIsTheSum(tasks: seq<TaskKey>, results: map<TaskKey, Reward>, t: TaskKey, v: real)
    requires NoDuplicates(tasks) && t in tasks && t !in results
    ensures RewardSum(tasks, map[]) == 0.0
    ensures RewardSum(tasks, results[t := Finite(v)]) == RewardSum(tasks, results) + v
  {
    RewardSumOfNothing(tasks);
    ReplacedResult(tasks, results, t, v);
  }

  /** A valid end gives its task a result, in place of the one it had, if any; no other event touches the
      results. */
  lemma AppendRewards(tasks: seq<TaskKey>, log: seq<AttemptEvent>, e: AttemptEvent, v: real)
    requires NoDuplicates(tasks) && Built(tasks, log) && Legal(e) && Accepted(tasks, log, e) && EndsValid(e, v)
    ensures var a, b := AggregateOf(tasks, log), AggregateOf(tasks, log + [e]);
            var before := ValidResults(log);
            if e.task in before then
              && b.validTasks == a.validTasks && b.remainingTasks == a.remainingTasks
              && before[e.task].Finite? && b.rewardSum == a.rewardSum - before[e.task].value + v
            else
              && b.validTasks == a.validTasks + 1 && b.remainingTasks == a.remainingTasks - 1
              && b.rewardSum == a.rewardSum + v
  {
    assert (log + [e])[..|log|] == log;
    assert ValidResults(log + [e]) == ValidResults(log)[e.task := Finite(v)];
    ReplacedResult(tasks, ValidResults(log), e.task, v);
    ResultsGrow(log, e);
    ResultsAreSound(tasks, log);
  }

  lemma AppendKeepsRewards(tasks: seq<TaskKey>, log: seq<AttemptEvent>, e: AttemptEvent)
    requires e.event != Terminal || EndsInvalid(e)
    ensures var a, b := AggregateOf(tasks, log), AggregateOf(tasks, log + [e]);
            && b.validTasks == a.validTasks && b.remainingTasks == a.remainingTasks
            && b.rewardSum == a.rewardSum && b.score == a.score
  {
    assert (log + [e])[..|log|] == log;
  }

  // ----- the score -----

  /** `total` is what `n` rewards between `low` and `high` can sum up to. */
  predicate Between(low: real, high: real, n: int, total: real) {
    low * n as real <= total <= high * n as real
  }

  lemma OneMoreBetween(low: real, high: real, n: nat, total: real, v: real)
    requires Between(low, high, n, total) && low <= v <= high
    ensures Between(low, high, n + 1, total + v)
  {
    assert low * (n + 1) as real == low * n as real + low;
    assert high * (n + 1) as real == high * n as real + high;
  }

  lemma RestIsSmaller(results: map<TaskKey, Reward>, t: TaskKey)
    requires t in results
    ensures |results| == |results - {t}| + 1
  {
    assert (results - {t}).Keys == results.Keys - {t};
    assert |results - {t}| == |(results - {t}).Keys| && |results| == |results.Keys|;
  }

  ghost predicate AllWithin(results: map<TaskKey, Reward>, low: real, high: real) {
    forall t :: t in results ==> results[t].Finite? && low <= results[t].value <= high
  }

  lemma {:induction false} SumIsBounded(tasks: seq<TaskKey>, results: map<TaskKey, Reward>, low: real, high: real)
    requires NoDuplicates(tasks) && forall t :: t in results ==> t in tasks
    requires AllWithin(results, low, high)
    ensures Between(low, high, |results|, RewardSum(tasks, results))
    decreases |results|
  {
    if results == map[] {
      RewardSumOfNothing(tasks);
    } else {
      assert results.Keys != {};
      var t :| t in results;
      RewardSumWithout(tasks, results, t);
      RestIsSmaller(results, t);
      SumIsBounded(tasks, results - {t}, low, high);
      OneMoreBetween(low, high, |results| - 1, RewardSum(tasks, results - {t}), results[t].value);
    }
  }

  lemma Scaled(x: real, y: real, n: nat)
    requires x < y && n > 0
    ensures x * n as real < y * n as real
  {
  }

  lemma MeanIsBetween(low: real, high: real, n: nat, total: real)
    requires Between(low, high, n, total) && Score(total, n).Some?
    ensures low <= Score(total, n).value <= high
  {
    var mean := Score(total, n).value;
    if mean < low {
      Scaled(mean, low, n);
    }
    if mean > high {
      Scaled(high, mean, n);
    }
  }

  lemma ResultsWithin(tasks: seq<TaskKey>, log: seq<AttemptEvent>, low: real, high: real)
    requires Built(tasks, log) && forall e, v :: e in log && EndsValid(e, v) ==> low <= v <= high
    ensures AllWithin(ValidResults(log), low, high) && forall t :: t in ValidResults(log) ==> t in tasks
  {
    var results := ValidResults(log);
    ResultsAreSound(tasks, log);
    forall t | t in results ensures results[t].Finite? && low <= results[t].value <= high {
      var e :| e in log && IsValid(e) && e.task == t && e.reward == Some(results[t]);
      assert EndsValid(e, results[t].value);
    }
  }

  /** When all rewards lie in a range, so does the score, and there is one if there is a result; in particular
      equal rewards are the score. */
  lemma ScoreIsInRange(tasks: seq<TaskKey>, log: seq<AttemptEvent>, low: real, high: real)
    requires NoDuplicates(tasks) && Built(tasks, log)
    requires forall e, v :: e in log && EndsValid(e, v) ==> low <= v <= high
    ensures var a := AggregateOf(tasks, log);
            && (a.score == None <==> a.validTasks == 0)
            && (a.score.Some? ==> low <= a.score.value <= high)
            && Between(low, high, a.validTasks, a.rewardSum)
  {
    var results := ValidResults(log);
    ResultsWithin(tasks, log, low, high);
    SumIsBounded(tasks, results, low, high);
    if |results| > 0 {
      MeanIsBetween(low, high, |results|, RewardSum(tasks, results));
    }
  }
}
