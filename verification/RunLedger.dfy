/** The ledger object: an append-only log and the aggregate file rewritten after every event. */
module RunLedgers {
  import opened Prelude
  import opened Results
  import opened LedgerTheorems

  datatype CreateError = DirectoryNotEmpty | DuplicateTasks

  datatype ResumeError = MaxAttemptsNotPositive

  lemma {:induction false} DistinctByCount<T>(s: seq<T>)
    ensures |(set x | x in s)| <= |s|
    ensures |(set x | x in s)| == |s| <==> NoDuplicates(s)
  {
    if s == [] {
      assert (set x | x in s) == {};
    } else {
      var n := |s| - 1;
      DistinctByCount(s[..n]);
      assert s == s[..n] + [s[n]];
      assert (set x | x in s) == (set x | x in s[..n]) + {s[n]};
      if s[n] in s[..n] {
        assert (set x | x in s) == (set x | x in s[..n]);
        var k :| 0 <= k < n && s[k] == s[n];
      }
    }
  }

  lemma HasListedReason(e: AttemptEvent)
    requires Legal(e)
    ensures e.event == Terminal && !IsValid(e) ==> e.reason.Some? && e.reason.value in INVALID_REASONS
  {
  }

  lemma InvalidStep(log: seq<AttemptEvent>, e: AttemptEvent)
    requires e.event == Terminal && !IsValid(e) ==> e.reason.Some? && e.reason.value in INVALID_REASONS
    ensures InvalidByReason(log + [e])
            == if e.event == Terminal && !IsValid(e)
               then InvalidByReason(log)[e.reason.value := Entry(InvalidByReason(log), e.reason.value) + 1]
               else InvalidByReason(log)
  {
    var m, m' := InvalidByReason(log), InvalidByReason(log + [e]);
    forall r | r in INVALID_REASONS
      ensures Entry(m', r) == Entry(m, r) + (if IsInvalid(e, r) then 1 else 0)
      ensures r in m' <==> Entry(m', r) > 0
      ensures r in m <==> Entry(m, r) > 0
    {
      InvalidAppend(log, e, r);
    }
  }

  function ReasonsAfter(m: map<Reason, nat>, e: AttemptEvent): map<Reason, nat>
    requires e.event == Terminal && !IsValid(e) ==> e.reason.Some?
  {
    if e.event == Terminal && !IsValid(e) then m[e.reason.value := Entry(m, e.reason.value) + 1] else m
  }

  lemma NoReasons()
    ensures InvalidByReason([]) == map[]
  {
  }

  lemma ReasonsStep(tasks: seq<TaskKey>, log: seq<AttemptEvent>, i: nat)
    requires Built(tasks, log) && i < |log|
    ensures log[i].event == Terminal && !IsValid(log[i]) ==> log[i].reason.Some?
    ensures InvalidByReason(log[..i + 1]) == ReasonsAfter(InvalidByReason(log[..i]), log[i])
  {
    assert log[..i + 1] == log[..i] + [log[i]];
    BuiltEvents(tasks, log, log[i]);
    HasListedReason(log[i]);
    InvalidStep(log[..i], log[i]);
  }

  predicate IsOpenHistory(history: seq<AttemptEvent>) {
    AnyOf(history, Started) && !AnyOf(history, Terminal)
  }

  lemma MissingMeansOpen(log: seq<AttemptEvent>, key: (TaskKey, int))
    ensures key in MissingKeys(log) <==> key in Keys(log) && IsOpenHistory(History(log, key.0, key.1))
  {
    HasMeansHistory(log, key, Started);
    HasMeansHistory(log, key, Terminal);
  }

  class RunLedger {
    const tasks: seq<TaskKey>
    var log: seq<AttemptEvent>
    var aggregate: Aggregate

    ghost predicate Valid()
      reads this
    {
      NoDuplicates(tasks) && Built(tasks, log) && aggregate == AggregateOf(tasks, log)
    }

    constructor Empty(tasks: seq<TaskKey>)
      requires NoDuplicates(tasks)
      ensures Valid() && this.tasks == tasks && log == []
    {
      this.tasks := tasks;
      log := [];
      aggregate := AggregateOf(tasks, []);
    }

    /** `create`: a run directory that holds anything is refused, and so is an inventory with a duplicate. */
    static method Create(directory: set<string>, tasks: seq<TaskKey>) returns (r: Result<RunLedger, CreateError>)
      ensures r.Ok? <==> directory == {} && NoDuplicates(tasks)
      ensures r == Err(DirectoryNotEmpty) <==> directory != {}
      ensures r.Ok? ==> fresh(r.value) && r.value.Valid() && r.value.tasks == tasks && r.value.log == []
    {
      if directory != {} {
        return Err(DirectoryNotEmpty);
      }
      DistinctByCount(tasks);
      if |(set t | t in tasks)| != |tasks| {
        return Err(DuplicateTasks);
      }
      var ledger := new RunLedger.Empty(tasks);
      r := Ok(ledger);
    }

    method EventsOf(task: TaskKey, attempt: int) returns (events: seq<AttemptEvent>)
      ensures events == History(log, task, attempt)
    {
      events := [];
      for i := 0 to |log|
        invariant events == History(log[..i], task, attempt)
      {
        assert log[..i + 1][..i] == log[..i];
        if log[i].task == task && log[i].attempt == attempt {
          events := events + [log[i]];
        }
      }
      assert log[..|log|] == log;
    }

    /** `valid_results`: the latest valid reward of each task. */
    method LatestResults() returns (results: map<TaskKey, Reward>)
      ensures results == ValidResults(log)
    {
      results := map[];
      for i := 0 to |log|
        invariant results == ValidResults(log[..i])
      {
        assert log[..i + 1][..i] == log[..i];
        if log[i].event == Terminal && log[i].outcome == Some(Results.Valid) {
          results := results[log[i].task := RewardOf(log[i])];
        }
      }
      assert log[..|log|] == log;
    }

    /** The highest attempt among the events of a task, 0 when it has none. */
    method HighestAttempt(task: TaskKey) returns (found: bool, latest: int)
      ensures found == HasEvent(log, task)
      ensures latest == LatestAttempt(log, task)
    {
      found, latest := false, 0;
      for i := 0 to |log|
        invariant found == HasEvent(log[..i], task)
        invariant latest == LatestAttempt(log[..i], task)
      {
        assert log[..i + 1] == log[..i] + [log[i]];
        assert log[i] in log[..i + 1];
        if log[i].task == task {
          if !found || latest < log[i].attempt {
            latest := log[i].attempt;
          }
          found := true;
        }
      }
      assert log[..|log|] == log;
    }

    /** The attempt that one task resumes with. */
    method CandidateFor(task: TaskKey, maxAttempts: int) returns (attempt: Option<int>)
      ensures attempt == NextAttempt(log, task, maxAttempts)
    {
      if task in TerminalTasks(log) {
        return None;
      }
      var found, latest := HighestAttempt(task);
      if !found {
        return Some(1);
      }
      var history := EventsOf(task, latest);
      LatestIsLatest(log, task);
      if history[|history| - 1].event == Planned {
        attempt := Some(latest);
      } else if latest < maxAttempts {
        attempt := Some(latest + 1);
      } else {
        attempt := None;
      }
    }

    /** `resume_candidates`. */
    method ResumeCandidates(maxAttempts: int) returns (r: Result<seq<(TaskKey, int)>, ResumeError>)
      ensures r == if maxAttempts < 1 then Err(MaxAttemptsNotPositive)
                   else Ok(Candidates(tasks, log, maxAttempts))
    {
      if maxAttempts < 1 {
        return Err(MaxAttemptsNotPositive);
      }
      var candidates := [];
      for i := 0 to |tasks|
        invariant candidates == Candidates(tasks[..i], log, maxAttempts)
      {
        assert tasks[..i + 1][..i] == tasks[..i];
        var attempt := CandidateFor(tasks[i], maxAttempts);
        if attempt.Some? {
          candidates := candidates + [(tasks[i], attempt.value)];
        }
      }
      assert tasks[..|tasks|] == tasks;
      r := Ok(candidates);
    }

    /** The histories of all attempts, as `aggregate` groups them. */
    method GroupAttempts() returns (attempts: map<(TaskKey, int), seq<AttemptEvent>>)
      ensures attempts.Keys == Keys(log)
      ensures forall key :: key in attempts ==> attempts[key] == History(log, key.0, key.1)
    {
      attempts := map[];
      for i := 0 to |log|
        invariant attempts.Keys == Keys(log[..i])
        invariant forall key :: key in attempts ==> attempts[key] == History(log[..i], key.0, key.1)
      {
        var key := (log[i].task, log[i].attempt);
        assert log[..i + 1] == log[..i] + [log[i]];
        KeysAppend(log[..i], log[i]);
        HasMeansHistory(log[..i], key, Started);
        forall k: (TaskKey, int)
          ensures History(log[..i + 1], k.0, k.1)
                  == History(log[..i], k.0, k.1) + (if k == key then [log[i]] else [])
        {
          HistoryAppend(log[..i], log[i], k.0, k.1);
        }
        attempts := attempts[key := (if key in attempts then attempts[key] else []) + [log[i]]];
      }
      assert log[..|log|] == log;
    }

    /** The number of histories that started and did not end. */
    static method CountOpen(attempts: map<(TaskKey, int), seq<AttemptEvent>>, ghost open: set<(TaskKey, int)>)
      returns (missing: nat)
      requires open <= attempts.Keys
      requires forall key :: key in attempts ==> (key in open <==> IsOpenHistory(attempts[key]))
      ensures missing == |open|
    {
      missing := 0;
      var seen: set<(TaskKey, int)> := {};
      while attempts.Keys - seen != {}
        invariant seen <= attempts.Keys
        invariant missing == |open * seen|
        decreases attempts.Keys - seen
      {
        var key :| key in attempts.Keys - seen;
        if IsOpenHistory(attempts[key]) {
          missing := missing + 1;
          assert open * (seen + {key}) == open * seen + {key};
        } else {
          assert open * (seen + {key}) == open * seen;
        }
        seen := seen + {key};
      }
      assert open * seen == open;
    }

    method CountMissing() returns (missing: nat)
      ensures missing == |MissingKeys(log)|
    {
      var attempts := GroupAttempts();
      forall key | key in attempts ensures key in MissingKeys(log) <==> IsOpenHistory(attempts[key]) {
        MissingMeansOpen(log, key);
      }
      missing := CountOpen(attempts, MissingKeys(log));
    }

    method CountReasons() returns (reasons: map<Reason, nat>)
      requires Built(tasks, log)
      ensures reasons == InvalidByReason(log)
    {
      NoReasons();
      reasons := map[];
      for i := 0 to |log|
        invariant reasons == InvalidByReason(log[..i])
      {
        ReasonsStep(tasks, log, i);
        if log[i].event == Terminal && log[i].outcome != Some(Results.Valid) {
          var reason := log[i].reason.value;
          var count := if reason in reasons then reasons[reason] else 0;
          reasons := reasons[reason := count + 1];
        }
      }
      assert log[..|log|] == log;
    }

    /** The sum over the dictionary's values, in whatever order they come. */
    method SumRewards(results: map<TaskKey, Reward>) returns (total: real)
      requires NoDuplicates(tasks) && forall t :: t in results ==> t in tasks
      ensures total == RewardSum(tasks, results)
    {
      total := 0.0;
      var rest := results;
      while rest.Keys != {}
        invariant forall t :: t in rest ==> t in results && rest[t] == results[t]
        invariant total + RewardSum(tasks, rest) == RewardSum(tasks, results)
        decreases rest.Keys
      {
        var t :| t in rest.Keys;
        RewardSumWithout(tasks, rest, t);
        total := total + (match rest[t] case Finite(value) => value case NonFinite => 0.0);
        rest := rest - {t};
      }
      assert rest == map[];
      RewardSumOfNothing(tasks);
    }

    /** `aggregate`. */
    method ComputeAggregate() returns (a: Aggregate)
      requires NoDuplicates(tasks) && Built(tasks, log)
      ensures a == AggregateOf(tasks, log)
    {
      var results := LatestResults();
      ResultsAreSound(tasks, log);
      var reasons := CountReasons();
      var missing := CountMissing();
      var total := SumRewards(results);
      a := Aggregate(
        |tasks|, KindCount(log, Planned), KindCount(log, Started), KindCount(log, Terminal),
        missing, |results|, |tasks| - |results|, reasons, total,
        Score(total, |results|));
    }

    /** The checks of `append`, in its order. */
    method CheckAppend(e: AttemptEvent) returns (error: Option<AppendError>)
      ensures error == Refusal(tasks, log, e)
    {
      if e.task !in tasks {
        return Some(OutsideInventory);
      }
      var history := EventsOf(e.task, e.attempt);
      if e.event == Planned {
        if history != [] {
          return Some(AlreadyPlanned);
        }
        if e.task in TerminalTasks(log) {
          return Some(AlreadyValid);
        }
      } else if e.event == Started {
        if history == [] || history[|history| - 1].event != Planned {
          return Some(StartedMustFollowPlanned);
        }
      } else if history == [] || history[|history| - 1].event != Started {
        if AnyOf(history, Terminal) {
          return Some(AlreadyTerminal);
        }
        return Some(TerminalMustFollowStarted);
      }
      error := None;
    }

    /** `append`: a refused event changes nothing, an accepted one is the new end of the log and the
        aggregate file agrees with it. */
    method Append(e: AttemptEvent) returns (error: Option<AppendError>)
      requires Valid() && Legal(e)
      modifies this
      ensures Valid() && error == Refusal(tasks, old(log), e)
      ensures log == if error == None then old(log) + [e] else old(log)
    {
      error := CheckAppend(e);
      if error == None {
        BuiltAppend(tasks, log, e);
        log := log + [e];
        aggregate := ComputeAggregate();
      }
    }
  }
}
