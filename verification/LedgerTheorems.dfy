/** What holds of every log that accepted appends have built. */
module LedgerTheorems {
  import opened Prelude
  import opened Results

  // ----- histories -----

  lemma HistoryAppend(log: seq<AttemptEvent>, e: AttemptEvent, task: TaskKey, attempt: int)
    ensures History(log + [e], task, attempt)
            == History(log, task, attempt) + (if Of(e, task, attempt) then [e] else [])
  {
    assert (log + [e])[..|log|] == log;
  }

  /** PLANNED, then STARTED, then TERMINAL, and nothing else. */
  predicate Shape(history: seq<AttemptEvent>) {
    && |history| <= 3
    && (|history| >= 1 ==> history[0].event == Planned)
    && (|history| >= 2 ==> history[1].event == Started)
    && (|history| == 3 ==> history[2].event == Terminal)
  }

  /** In a built log every attempt's history is a prefix of PLANNED, STARTED, TERMINAL. */
  lemma {:induction false} HistoriesHaveShape(tasks: seq<TaskKey>, log: seq<AttemptEvent>, task: TaskKey, attempt: int)
    requires Built(tasks, log)
    ensures Shape(History(log, task, attempt))
  {
    if log != [] {
      var n := |log| - 1;
      HistoriesHaveShape(tasks, log[..n], task, attempt);
      NoOtherKind(log[n]);
    }
  }

  lemma NoOtherKind(e: AttemptEvent)
    requires Legal(e)
    ensures e.event == Planned || e.event == Started || e.event == Terminal
  {
  }

  /** The events that the constructor lets through: a positive attempt and a known kind; and a terminal one either
      valid, with a finite reward, a proven cleanup and no reason, or invalid, with a known reason and no reward. */
  lemma LegalMeans(e: AttemptEvent)
    ensures Legal(e)
            <==> && e.attempt >= 1 && (e.event == Planned || e.event == Started || e.event == Terminal)
                 && (e.event == Terminal ==>
                       || (&& e.outcome == Some(Valid) && e.reward.Some? && e.reward.value.Finite?
                           && e.cleanup == Some(Success) && e.reason == None)
                       || (&& e.outcome == Some(Invalid) && e.reward == None && e.reason.Some?
                           && e.reason.value in {RunnerExit, TimedOut, MissingResult, MalformedResult, IdentityDrift,
                                                 CleanupFailure, Interrupted}))
  {
  }

  /** What the four makers of events build, and when the constructor lets it through: a planned or started event
      names its attempt and no more; a valid end needs a finite reward and a proven cleanup; an invalid one a known
      reason. */
  lemma MakersBuild(task: TaskKey, attempt: int, reward: Reward, reason: Reason, cleanup: CleanupStatus)
    ensures var planned, started := PlannedEvent(task, attempt), StartedEvent(task, attempt);
            && planned == started.(event := Planned) && started.event == Started && Of(started, task, attempt)
            && started.outcome == None && started.reason == None && started.reward == None && started.cleanup == None
            && (Legal(planned) <==> attempt >= 1) && (Legal(started) <==> attempt >= 1)
    ensures var ended := ValidEvent(task, attempt, reward, cleanup);
            && IsValid(ended) && Of(ended, task, attempt) && ended.reward == Some(reward)
            && ended.cleanup == Some(cleanup) && ended.reason == None
            && (Legal(ended) <==> attempt >= 1 && reward.Finite? && cleanup == Success)
    ensures var ended := InvalidEvent(task, attempt, reason, cleanup);
            && IsInvalid(ended, reason) && Of(ended, task, attempt) && ended.reward == None
            && ended.cleanup == Some(cleanup)
            && (Legal(ended) <==> attempt >= 1 && !reason.OtherReason?)
  {
  }

  /** Each refusal of the constructor is the first of its checks that fails. */
  lemma RejectionTells(e: AttemptEvent, error: EventError)
    ensures var ends := e.attempt >= 1 && e.event == Terminal;
            var valid, invalid := ends && e.outcome == Some(Valid), ends && e.outcome == Some(Invalid);
            var paid := e.reward.Some? && e.reward.value.Finite?;
            var listed := e.reason.Some? && !e.reason.value.OtherReason?;
            PostInit(e) == Some(error)
            <==> match error
                 case AttemptNotPositive => e.attempt < 1
                 case UnknownEvent => e.attempt >= 1 && e.event.OtherKind?
                 case ValidNeedsFiniteReward => valid && !paid
                 case ValidNeedsCleanup => valid && paid && e.cleanup != Some(Success)
                 case ValidHasReason => valid && paid && e.cleanup == Some(Success) && e.reason.Some?
                 case UnknownReason => invalid && !listed
                 case InvalidHasReward => invalid && listed && e.reward.Some?
                 case NoVerdict => ends && e.outcome != Some(Valid) && e.outcome != Some(Invalid)
  {
  }

  lemma {:induction false} BuiltEvents(tasks: seq<TaskKey>, log: seq<AttemptEvent>, e: AttemptEvent)
    requires Built(tasks, log) && e in log
    ensures Legal(e) && e.task in tasks && 1 <= e.attempt
  {
    var n := |log| - 1;
    if e != log[n] {
      assert log == log[..n] + [log[n]];
      BuiltEvents(tasks, log[..n], e);
    }
  }

  function Turn(kind: EventKind): int {
    match kind
    case Planned => 0
    case Started => 1
    case Terminal => 2
    case OtherKind(_) => -1
  }

  /** Which event an attempt accepts next is decided by how many it has had, except that PLANNED also needs
      a task without a valid result; an attempt that has ended says so. */
  lemma LengthDecides(tasks: seq<TaskKey>, log: seq<AttemptEvent>, e: AttemptEvent)
    requires Built(tasks, log) && Legal(e) && e.task in tasks
    ensures Accepted(tasks, log, e)
            <==> |History(log, e.task, e.attempt)| == Turn(e.event)
                 && (e.event == Planned ==> e.task !in TerminalTasks(log))
    ensures Refusal(tasks, log, e) == Some(AlreadyTerminal)
            <==> e.event == Terminal && |History(log, e.task, e.attempt)| == 3
  {
    var h := History(log, e.task, e.attempt);
    HistoriesHaveShape(tasks, log, e.task, e.attempt);
    NoOtherKind(e);
    if |h| == 3 {
      assert h[2] in h;
    } else if |h| == 2 {
      assert h == [h[0], h[1]];
    } else if |h| == 1 {
      assert h == [h[0]];
    }
  }

  // ----- counts -----

  lemma KindAppend(log: seq<AttemptEvent>, e: AttemptEvent, kind: EventKind)
    ensures KindCount(log + [e], kind) == KindCount(log, kind) + (if e.event == kind then 1 else 0)
  {
    assert (log + [e])[..|log|] == log;
  }

  lemma ValidAppend(log: seq<AttemptEvent>, e: AttemptEvent)
    ensures ValidCount(log + [e]) == ValidCount(log) + (if IsValid(e) then 1 else 0)
  {
    assert (log + [e])[..|log|] == log;
  }

  lemma InvalidAppend(log: seq<AttemptEvent>, e: AttemptEvent, r: Reason)
    ensures InvalidCount(log + [e], r) == InvalidCount(log, r) + (if IsInvalid(e, r) then 1 else 0)
  {
    assert (log + [e])[..|log|] == log;
  }

  lemma HasAppend(log: seq<AttemptEvent>, e: AttemptEvent, key: (TaskKey, int), kind: EventKind)
    ensures Has(log + [e], key, kind) <==> Has(log, key, kind) || (Of(e, key.0, key.1) && e.event == kind)
  {
    if Of(e, key.0, key.1) && e.event == kind {
      assert e in log + [e];
    }
    if Has(log, key, kind) {
      var x :| x in log && Of(x, key.0, key.1) && x.event == kind;
      assert x in log + [e];
    }
  }

  lemma KeysAppend(log: seq<AttemptEvent>, e: AttemptEvent)
    ensures Keys(log + [e]) == Keys(log) + {(e.task, e.attempt)}
  {
    assert forall x :: x in log + [e] <==> x in log || x == e;
  }

  lemma HasMeansHistory(log: seq<AttemptEvent>, key: (TaskKey, int), kind: EventKind)
    ensures Has(log, key, kind) <==> AnyOf(History(log, key.0, key.1), kind)
    ensures key in Keys(log) <==> History(log, key.0, key.1) != []
  {
    var h := History(log, key.0, key.1);
    if h != [] {
      assert h[0] in h;
    }
    if key in Keys(log) {
      var e :| e in log && (e.task, e.attempt) == key;
      assert e in h;
    }
  }

  predicate IsOpen(log: seq<AttemptEvent>, key: (TaskKey, int)) {
    key in Keys(log) && !Has(log, key, Terminal)
  }

  lemma AcceptedPlanned(tasks: seq<TaskKey>, log: seq<AttemptEvent>, e: AttemptEvent)
    requires Accepted(tasks, log, e) && e.event == Planned
    ensures (e.task, e.attempt) !in Keys(log)
  {
    HasMeansHistory(log, (e.task, e.attempt), Planned);
  }

  lemma AcceptedStarted(tasks: seq<TaskKey>, log: seq<AttemptEvent>, e: AttemptEvent)
    requires Built(tasks, log) && Accepted(tasks, log, e) && e.event == Started
    ensures (e.task, e.attempt) in UnstartedKeys(log) && IsOpen(log, (e.task, e.attempt))
  {
    var h := History(log, e.task, e.attempt);
    HistoriesHaveShape(tasks, log, e.task, e.attempt);
    assert |h| == 1;
    HasMeansHistory(log, (e.task, e.attempt), Started);
    HasMeansHistory(log, (e.task, e.attempt), Terminal);
  }

  lemma AcceptedTerminalMeans(tasks: seq<TaskKey>, log: seq<AttemptEvent>, e: AttemptEvent)
    requires Accepted(tasks, log, e) && e.event == Terminal
    ensures EndsWith(History(log, e.task, e.attempt), Started)
  {
  }

  lemma EndsStarted(h: seq<AttemptEvent>)
    requires Shape(h) && EndsWith(h, Started)
    ensures h != [] && AnyOf(h, Started) && !AnyOf(h, Terminal)
  {
    assert |h| == 2;
    assert h == [h[0], h[1]];
    assert h[1] in h;
  }

  lemma AcceptedTerminal(tasks: seq<TaskKey>, log: seq<AttemptEvent>, e: AttemptEvent)
    requires Built(tasks, log) && Accepted(tasks, log, e) && e.event == Terminal
    ensures (e.task, e.attempt) in MissingKeys(log)
  {
    HistoriesHaveShape(tasks, log, e.task, e.attempt);
    AcceptedTerminalMeans(tasks, log, e);
    EndsStarted(History(log, e.task, e.attempt));
    HasMeansHistory(log, (e.task, e.attempt), Started);
    HasMeansHistory(log, (e.task, e.attempt), Terminal);
  }

  lemma MissingAppend(log: seq<AttemptEvent>, e: AttemptEvent)
    requires e.event == Planned ==> (e.task, e.attempt) !in Keys(log)
    requires e.event == Started ==> (e.task, e.attempt) in UnstartedKeys(log) && IsOpen(log, (e.task, e.attempt))
    requires e.event == Terminal ==> (e.task, e.attempt) in MissingKeys(log)
    ensures MissingKeys(log + [e]) == if e.event == Started then MissingKeys(log) + {(e.task, e.attempt)}
                                      else if e.event == Terminal then MissingKeys(log) - {(e.task, e.attempt)}
                                      else MissingKeys(log)
  {
    KeysAppend(log, e);
    forall k: (TaskKey, int)
      ensures k in MissingKeys(log + [e]) <==>
                k in (if e.event == Started then MissingKeys(log) + {(e.task, e.attempt)}
                      else if e.event == Terminal then MissingKeys(log) - {(e.task, e.attempt)}
                      else MissingKeys(log))
    {
      HasAppend(log, e, k, Started);
      HasAppend(log, e, k, Terminal);
      NotInKeysHasNothing(log, k);
    }
  }

  lemma NotInKeysHasNothing(log: seq<AttemptEvent>, key: (TaskKey, int))
    ensures key !in Keys(log) ==> !Has(log, key, Started) && !Has(log, key, Terminal)
  {
  }

  lemma UnstartedAppend(log: seq<AttemptEvent>, e: AttemptEvent)
    requires e.event == Planned ==> (e.task, e.attempt) !in Keys(log)
    requires e.event == Started ==> (e.task, e.attempt) in UnstartedKeys(log)
    requires e.event == Terminal ==> (e.task, e.attempt) in MissingKeys(log)
    requires !e.event.OtherKind?
    ensures UnstartedKeys(log + [e]) == if e.event == Planned then UnstartedKeys(log) + {(e.task, e.attempt)}
                                        else if e.event == Started then UnstartedKeys(log) - {(e.task, e.attempt)}
                                        else UnstartedKeys(log)
  {
    KeysAppend(log, e);
    forall k: (TaskKey, int)
      ensures k in UnstartedKeys(log + [e]) <==>
                k in (if e.event == Planned then UnstartedKeys(log) + {(e.task, e.attempt)}
                      else if e.event == Started then UnstartedKeys(log) - {(e.task, e.attempt)}
                      else UnstartedKeys(log))
    {
      HasAppend(log, e, k, Started);
      NotInKeysHasNothing(log, k);
    }
  }

  /** An accepted event moves its attempt from one count to the next. */
  lemma AppendAddsUp(tasks: seq<TaskKey>, log: seq<AttemptEvent>, e: AttemptEvent)
    requires Built(tasks, log) && Accepted(tasks, log, e) && !e.event.OtherKind?
    ensures |MissingKeys(log + [e])| == |MissingKeys(log)| + (if e.event == Started then 1
                                                              else if e.event == Terminal then -1 else 0)
    ensures |UnstartedKeys(log + [e])| == |UnstartedKeys(log)| + (if e.event == Planned then 1
                                                                  else if e.event == Started then -1 else 0)
  {
    if e.event == Planned {
      AcceptedPlanned(tasks, log, e);
    } else if e.event == Started {
      AcceptedStarted(tasks, log, e);
    } else {
      AcceptedTerminal(tasks, log, e);
    }
    MissingAppend(log, e);
    UnstartedAppend(log, e);
  }

  /** planned = started + never started, and started = terminal + missing. */
  lemma {:induction false} AttemptsAddUp(tasks: seq<TaskKey>, log: seq<AttemptEvent>)
    requires Built(tasks, log)
    ensures KindCount(log, Planned) == KindCount(log, Started) + |UnstartedKeys(log)|
    ensures KindCount(log, Started) == KindCount(log, Terminal) + |MissingKeys(log)|
  {
    if log != [] {
      var n := |log| - 1;
      var before, e := log[..n], log[n];
      assert log == before + [e];
      AttemptsAddUp(tasks, before);
      NoOtherKind(e);
      KindAppend(before, e, Planned);
      KindAppend(before, e, Started);
      KindAppend(before, e, Terminal);
      AppendAddsUp(tasks, before, e);
    }
  }

  function ReasonTotal(m: map<Reason, nat>): nat {
    Entry(m, RunnerExit) + Entry(m, TimedOut) + Entry(m, MissingResult) + Entry(m, MalformedResult)
    + Entry(m, IdentityDrift) + Entry(m, CleanupFailure) + Entry(m, Interrupted)
  }

  function Entry(m: map<Reason, nat>, r: Reason): nat {
    if r in m then m[r] else 0
  }

  function InvalidTotal(log: seq<AttemptEvent>): nat {
    InvalidCount(log, RunnerExit) + InvalidCount(log, TimedOut) + InvalidCount(log, MissingResult)
    + InvalidCount(log, MalformedResult) + InvalidCount(log, IdentityDrift)
    + InvalidCount(log, CleanupFailure) + InvalidCount(log, Interrupted)
  }

  lemma ReasonTotalIs(log: seq<AttemptEvent>)
    ensures ReasonTotal(InvalidByReason(log)) == InvalidTotal(log)
  {
    forall r | r in INVALID_REASONS ensures Entry(InvalidByReason(log), r) == InvalidCount(log, r) {
    }
    assert RunnerExit in INVALID_REASONS && TimedOut in INVALID_REASONS && MissingResult in INVALID_REASONS
           && MalformedResult in INVALID_REASONS && IdentityDrift in INVALID_REASONS
           && CleanupFailure in INVALID_REASONS && Interrupted in INVALID_REASONS;
  }

  /** A legal terminal event is valid or invalid for exactly one of the seven reasons. */
  lemma InvalidTotalAppend(log: seq<AttemptEvent>, e: AttemptEvent)
    requires Legal(e)
    ensures InvalidTotal(log + [e]) == InvalidTotal(log) + (if e.event == Terminal && !IsValid(e) then 1 else 0)
  {
    InvalidAppend(log, e, RunnerExit);
    InvalidAppend(log, e, TimedOut);
    InvalidAppend(log, e, MissingResult);
    InvalidAppend(log, e, MalformedResult);
    InvalidAppend(log, e, IdentityDrift);
    InvalidAppend(log, e, CleanupFailure);
    InvalidAppend(log, e, Interrupted);
  }

  /** Every terminal event is either valid or counted under one reason. */
  lemma {:induction false} TerminalsAddUp(tasks: seq<TaskKey>, log: seq<AttemptEvent>)
    requires Built(tasks, log)
    ensures KindCount(log, Terminal) == ValidCount(log) + ReasonTotal(InvalidByReason(log))
  {
    ReasonTotalIs(log);
    TerminalsSplit(tasks, log);
  }

  lemma {:induction false} TerminalsSplit(tasks: seq<TaskKey>, log: seq<AttemptEvent>)
    requires Built(tasks, log)
    ensures KindCount(log, Terminal) == ValidCount(log) + InvalidTotal(log)
  {
    if log != [] {
      var n := |log| - 1;
      var before, e := log[..n], log[n];
      assert log == before + [e];
      TerminalsSplit(tasks, before);
      KindAppend(before, e, Terminal);
      ValidAppend(before, e);
      InvalidTotalAppend(before, e);
    }
  }

  // ----- valid results -----

  lemma {:induction false} SetOfSeqIsSmall<T>(s: seq<T>, m: set<T>)
    requires forall x :: x in m ==> x in s
    ensures |m| <= |s|
  {
    if s == [] {
      assert m == {};
    } else {
      var n := |s| - 1;
      assert s == s[..n] + [s[n]];
      SetOfSeqIsSmall(s[..n], m - {s[n]});
      assert m <= (m - {s[n]}) + {s[n]};
      CardinalityGrowsByOne(m, s[n]);
    }
  }

  lemma CardinalityGrowsByOne<T>(m: set<T>, x: T)
    ensures |m| <= |m - {x}| + 1
  {
    if x in m {
      assert m == (m - {x}) + {x};
    } else {
      assert m == m - {x};
    }
  }

  /** Only tasks of the inventory have results, so no count of remaining tasks is negative, and every
      result is the finite reward of a valid event of its task. */
  lemma ResultsAreSound(tasks: seq<TaskKey>, log: seq<AttemptEvent>)
    requires Built(tasks, log)
    ensures forall t :: t in ValidResults(log) ==>
              t in tasks && ValidResults(log)[t].Finite?
              && exists e :: e in log && IsValid(e) && e.task == t && e.reward == Some(ValidResults(log)[t])
    ensures |ValidResults(log)| <= |tasks|
    ensures AggregateOf(tasks, log).remainingTasks >= 0
  {
    forall t | t in ValidResults(log)
      ensures t in tasks && ValidResults(log)[t].Finite?
      ensures exists e :: e in log && IsValid(e) && e.task == t && e.reward == Some(ValidResults(log)[t])
    {
      var e := ResultComesFrom(log, t);
      BuiltEvents(tasks, log, e);
    }
    SetOfSeqIsSmall(tasks, ValidResults(log).Keys);
    assert |ValidResults(log).Keys| == |ValidResults(log)|;
  }

  lemma {:induction false} ResultComesFrom(log: seq<AttemptEvent>, t: TaskKey) returns (e: AttemptEvent)
    requires t in ValidResults(log)
    ensures e in log && IsValid(e) && e.task == t && ValidResults(log)[t] == RewardOf(e)
  {
    var n := |log| - 1;
    assert log == log[..n] + [log[n]];
    if IsValid(log[n]) && log[n].task == t {
      e := log[n];
    } else {
      e := ResultComesFrom(log[..n], t);
    }
  }

  /** No task has two valid terminal events. */
  ghost predicate OneValidPerTask(log: seq<AttemptEvent>) {
    forall i, j :: 0 <= i < j < |log| && IsValid(log[i]) && IsValid(log[j]) ==> log[i].task != log[j].task
  }

  /** Then the result of a task is the reward of its one valid event, and no other was overwritten. */
  lemma ResultIsTheOne(log: seq<AttemptEvent>, e: AttemptEvent)
    requires OneValidPerTask(log) && e in log && IsValid(e)
    ensures e.task in ValidResults(log) && ValidResults(log)[e.task] == RewardOf(e)
  {
    var x := ResultComesFrom(log, e.task);
    var i :| 0 <= i < |log| && log[i] == e;
    var j :| 0 <= j < |log| && log[j] == x;
    assert i == j;
  }

  function TwoStartedLog(t: TaskKey): seq<AttemptEvent> {
    [PlannedEvent(t, 1), PlannedEvent(t, 2)] + [StartedEvent(t, 1)] + [StartedEvent(t, 2)]
  }

  /** Appending alone does not keep a task at one valid event: two attempts planned before either ends
      can both end valid, and the second reward hides the first. */
  lemma AppendAloneAllowsTwoValid(t: TaskKey)
    ensures var log := TwoStartedLog(t)
                       + [ValidEvent(t, 1, Finite(1.0), Success), ValidEvent(t, 2, Finite(0.0), Success)];
            Built([t], log) && !OneValidPerTask(log) && ValidResults(log) == map[t := Finite(0.0)]
  {
    var v1, v2 := ValidEvent(t, 1, Finite(1.0), Success), ValidEvent(t, 2, Finite(0.0), Success);
    var four := TwoStartedLog(t);
    var log := four + [v1, v2];
    assert four + [v1] + [v2] == log;
    BothEndValid(t);
    NoResultsYet(four);
    assert (four + [v1])[..4] == four && log[..5] == four + [v1];
    assert ValidResults(four + [v1]) == map[t := Finite(1.0)];
    assert IsValid(log[4]) && IsValid(log[5]);
  }

  lemma BothEndValid(t: TaskKey)
    ensures Built([t], TwoStartedLog(t) + [ValidEvent(t, 1, Finite(1.0), Success)]
                       + [ValidEvent(t, 2, Finite(0.0), Success)])
  {
    var v1, v2 := ValidEvent(t, 1, Finite(1.0), Success), ValidEvent(t, 2, Finite(0.0), Success);
    var four := TwoStartedLog(t);
    TwoStarted(t);
    BuiltAppend([t], four, v1);
    HistoryAppend(four, v1, t, 2);
    BuiltAppend([t], four + [v1], v2);
  }

  lemma {:induction false} NoResultsYet(log: seq<AttemptEvent>)
    requires forall e :: e in log ==> !IsValid(e)
    ensures ValidResults(log) == map[]
  {
    if log != [] {
      var n := |log| - 1;
      assert log == log[..n] + [log[n]];
      assert log[n] in log;
      NoResultsYet(log[..n]);
    }
  }

  lemma PlanNew(tasks: seq<TaskKey>, log: seq<AttemptEvent>, t: TaskKey, attempt: int, other: int)
    requires Built(tasks, log) && t in tasks && 1 <= attempt && other != attempt
    requires History(log, t, attempt) == [] && t !in TerminalTasks(log)
    ensures Built(tasks, log + [PlannedEvent(t, attempt)])
    ensures EndsWith(History(log + [PlannedEvent(t, attempt)], t, attempt), Planned)
    ensures History(log + [PlannedEvent(t, attempt)], t, other) == History(log, t, other)
    ensures t !in TerminalTasks(log + [PlannedEvent(t, attempt)])
  {
    BuiltAppend(tasks, log, PlannedEvent(t, attempt));
    HistoryAppend(log, PlannedEvent(t, attempt), t, attempt);
    HistoryAppend(log, PlannedEvent(t, attempt), t, other);
  }

  lemma TwoPlanned(t: TaskKey)
    ensures var log := [PlannedEvent(t, 1), PlannedEvent(t, 2)];
            && Built([t], log)
            && EndsWith(History(log, t, 1), Planned) && EndsWith(History(log, t, 2), Planned)
  {
    var none: seq<AttemptEvent> := [];
    PlanNew([t], none, t, 1, 2);
    PlanNew([t], none + [PlannedEvent(t, 1)], t, 2, 1);
    assert none + [PlannedEvent(t, 1)] + [PlannedEvent(t, 2)] == [PlannedEvent(t, 1), PlannedEvent(t, 2)];
  }

  lemma StartPlanned(tasks: seq<TaskKey>, log: seq<AttemptEvent>, t: TaskKey, attempt: int, other: int)
    requires Built(tasks, log) && t in tasks && 1 <= attempt && other != attempt
    requires EndsWith(History(log, t, attempt), Planned)
    ensures Built(tasks, log + [StartedEvent(t, attempt)])
    ensures EndsWith(History(log + [StartedEvent(t, attempt)], t, attempt), Started)
    ensures History(log + [StartedEvent(t, attempt)], t, other) == History(log, t, other)
  {
    BuiltAppend(tasks, log, StartedEvent(t, attempt));
    HistoryAppend(log, StartedEvent(t, attempt), t, attempt);
    HistoryAppend(log, StartedEvent(t, attempt), t, other);
  }

  lemma StartBoth(tasks: seq<TaskKey>, log: seq<AttemptEvent>, t: TaskKey)
    requires Built(tasks, log) && t in tasks
    requires EndsWith(History(log, t, 1), Planned) && EndsWith(History(log, t, 2), Planned)
    ensures var log' := log + [StartedEvent(t, 1)] + [StartedEvent(t, 2)];
            && Built(tasks, log')
            && EndsWith(History(log', t, 1), Started) && EndsWith(History(log', t, 2), Started)
  {
    StartPlanned(tasks, log, t, 1, 2);
    StartPlanned(tasks, log + [StartedEvent(t, 1)], t, 2, 1);
  }

  lemma TwoStarted(t: TaskKey)
    ensures Built([t], TwoStartedLog(t))
    ensures EndsWith(History(TwoStartedLog(t), t, 1), Started)
    ensures EndsWith(History(TwoStartedLog(t), t, 2), Started)
  {
    TwoPlanned(t);
    StartBoth([t], [PlannedEvent(t, 1), PlannedEvent(t, 2)], t);
  }

  lemma BuiltAppend(tasks: seq<TaskKey>, log: seq<AttemptEvent>, e: AttemptEvent)
    requires Built(tasks, log) && Legal(e) && Accepted(tasks, log, e)
    ensures Built(tasks, log + [e])
  {
    assert (log + [e])[..|log|] == log;
  }

  // ----- the sum of rewards -----

  /** Taking one key out of the dictionary takes its reward out of the sum, whatever its position. */
  lemma {:induction false} RewardSumWithout(tasks: seq<TaskKey>, results: map<TaskKey, Reward>, t: TaskKey)
    requires NoDuplicates(tasks) && t in results
    ensures RewardSum(tasks, results)
            == RewardSum(tasks, results - {t}) + (if t in tasks then Value(results[t]) else 0.0)
  {
    if tasks != [] {
      var n := |tasks| - 1;
      RewardSumWithout(tasks[..n], results, t);
      assert tasks == tasks[..n] + [tasks[n]];
      assert tasks[n] !in tasks[..n];
    }
  }

  lemma {:induction false} RewardSumOfNothing(tasks: seq<TaskKey>)
    ensures RewardSum(tasks, map[]) == 0.0
  {
    if tasks != [] {
      RewardSumOfNothing(tasks[..|tasks| - 1]);
    }
  }

  /** The rewards of all valid events. */
  function EventRewards(log: seq<AttemptEvent>): real {
    if log == [] then 0.0
    else
      var n := |log| - 1;
      EventRewards(log[..n]) + (if IsValid(log[n]) && RewardOf(log[n]).Finite? then RewardOf(log[n]).value else 0.0)
  }

  lemma NewResult(tasks: seq<TaskKey>, results: map<TaskKey, Reward>, t: TaskKey, r: Reward)
    requires NoDuplicates(tasks) && t in tasks && t !in results
    ensures RewardSum(tasks, results[t := r]) == RewardSum(tasks, results) + Value(r)
    ensures |results[t := r]| == |results| + 1
  {
    var results' := results[t := r];
    RewardSumWithout(tasks, results', t);
    assert results' - {t} == results;
    assert results'.Keys == results.Keys + {t};
  }

  lemma LastIsNew(log: seq<AttemptEvent>)
    requires log != [] && OneValidPerTask(log) && IsValid(log[|log| - 1])
    ensures OneValidPerTask(log[..|log| - 1]) && log[|log| - 1].task !in TerminalTasks(log[..|log| - 1])
  {
    var n := |log| - 1;
    forall e | e in log[..n] && IsValid(e) ensures e.task != log[n].task {
      var k :| 0 <= k < n && log[k] == e;
    }
  }

  /** With one valid event per task, the results count the valid events and sum up their rewards. */
  lemma {:induction false} ResultsAddUp(tasks: seq<TaskKey>, log: seq<AttemptEvent>)
    requires NoDuplicates(tasks) && Built(tasks, log) && OneValidPerTask(log)
    ensures |ValidResults(log)| == ValidCount(log)
    ensures RewardSum(tasks, ValidResults(log)) == EventRewards(log)
  {
    if log == [] {
      RewardSumOfNothing(tasks);
    } else {
      var n := |log| - 1;
      var before, e := log[..n], log[n];
      assert log == before + [e];
      ResultsAddUp(tasks, before);
      ValidAppend(before, e);
      if IsValid(e) {
        LastIsNew(log);
        BuiltEvents(tasks, log, e);
        NewResult(tasks, ValidResults(before), e.task, RewardOf(e));
      }
    }
  }

  lemma CountsOf(tasks: seq<TaskKey>, log: seq<AttemptEvent>)
    requires Built(tasks, log)
    ensures var a := AggregateOf(tasks, log);
            && a.plannedAttempts >= a.startedAttempts >= a.terminalAttempts >= 0
            && a.startedAttempts == a.terminalAttempts + a.missingAttempts
            && a.terminalAttempts == ValidCount(log) + ReasonTotal(a.invalidByReason)
  {
    AttemptsAddUp(tasks, log);
    TerminalsAddUp(tasks, log);
  }

  lemma OneValidAppend(log: seq<AttemptEvent>, e: AttemptEvent)
    ensures OneValidPerTask(log + [e])
            <==> OneValidPerTask(log) && (IsValid(e) ==> e.task !in TerminalTasks(log))
  {
    var log' := log + [e];
    if OneValidPerTask(log') {
      assert forall i :: 0 <= i < |log| ==> log'[i] == log[i];
      LastIsNewTask(log, e);
    }
    if IsValid(e) && e.task !in TerminalTasks(log) {
      forall i | 0 <= i < |log| && IsValid(log[i]) ensures log[i].task != e.task {
        assert log[i] in log;
      }
    }
  }

  lemma LastIsNewTask(log: seq<AttemptEvent>, e: AttemptEvent)
    requires OneValidPerTask(log + [e])
    ensures IsValid(e) ==> e.task !in TerminalTasks(log)
  {
    if IsValid(e) {
      assert (log + [e])[..|log|] == log;
      LastIsNew(log + [e]);
    }
  }

  /** There are as many results as valid events exactly when no task has two. */
  lemma {:induction false} ResultsCountIff(log: seq<AttemptEvent>)
    ensures |ValidResults(log)| <= ValidCount(log)
    ensures |ValidResults(log)| == ValidCount(log) <==> OneValidPerTask(log)
  {
    if log != [] {
      var n := |log| - 1;
      var before, e := log[..n], log[n];
      assert log == before + [e];
      ResultsCountIff(before);
      ValidAppend(before, e);
      OneValidAppend(before, e);
      ResultsGrow(before, e);
    }
  }

  lemma ResultsGrow(log: seq<AttemptEvent>, e: AttemptEvent)
    ensures |ValidResults(log + [e])|
            == |ValidResults(log)| + (if IsValid(e) && e.task !in TerminalTasks(log) then 1 else 0)
  {
    assert (log + [e])[..|log|] == log;
    var m, m' := ValidResults(log), ValidResults(log + [e]);
    if IsValid(e) {
      assert m'.Keys == m.Keys + {e.task};
      assert |m'| == |m'.Keys| && |m| == |m.Keys|;
    }
  }

  /** The aggregate is consistent with itself and with the log: no attempt and no task is lost or counted
      twice, and neither is a reward when no task has two valid events; the counts tell whether one has. */
  lemma AggregateAddsUp(tasks: seq<TaskKey>, log: seq<AttemptEvent>, a: Aggregate)
    requires NoDuplicates(tasks) && Built(tasks, log) && a == AggregateOf(tasks, log)
    ensures a.plannedAttempts >= a.startedAttempts >= a.terminalAttempts >= 0
    ensures a.startedAttempts == a.terminalAttempts + a.missingAttempts
    ensures a.terminalAttempts == ValidCount(log) + ReasonTotal(a.invalidByReason)
    ensures a.validTasks + a.remainingTasks == a.plannedTasks == |tasks| && a.remainingTasks >= 0
    ensures a.validTasks <= ValidCount(log)
    ensures a.terminalAttempts == a.validTasks + ReasonTotal(a.invalidByReason) <==> OneValidPerTask(log)
    ensures a.score == Score(a.rewardSum, a.validTasks)
    ensures OneValidPerTask(log) ==> a.rewardSum == EventRewards(log)
  {
    CountsOf(tasks, log);
    ResultsAreSound(tasks, log);
    ResultsCountIff(log);
    if OneValidPerTask(log) {
      ResultsAddUp(tasks, log);
    }
  }

  // ----- resuming -----

  /** The latest attempt is the attempt of some event, and no event has a later one. */
  lemma {:induction false} LatestIsLatest(log: seq<AttemptEvent>, t: TaskKey)
    requires HasEvent(log, t)
    ensures History(log, t, LatestAttempt(log, t)) != []
    ensures forall e :: e in log && e.task == t ==> e.attempt <= LatestAttempt(log, t)
  {
    var n := |log| - 1;
    var before := log[..n];
    assert log == before + [log[n]];
    HistoryAppend(before, log[n], t, LatestAttempt(log, t));
    if HasEvent(before, t) {
      LatestIsLatest(before, t);
    }
  }

  lemma {:induction false} CandidateIs(tasks: seq<TaskKey>, log: seq<AttemptEvent>, maxAttempts: int,
                                       t: TaskKey, attempt: int)
    ensures (t, attempt) in Candidates(tasks, log, maxAttempts)
            <==> t in tasks && NextAttempt(log, t, maxAttempts) == Some(attempt)
  {
    if tasks != [] {
      var n := |tasks| - 1;
      CandidateIs(tasks[..n], log, maxAttempts, t, attempt);
      assert tasks == tasks[..n] + [tasks[n]];
    }
  }

  function CandidateTasks(candidates: seq<(TaskKey, int)>): (r: seq<TaskKey>)
    ensures |r| == |candidates| && forall i :: 0 <= i < |r| ==> r[i] == candidates[i].0
  {
    seq(|candidates|, i requires 0 <= i < |candidates| => candidates[i].0)
  }

  /** The tasks of the candidates are those of the inventory that get another attempt, in its order. */
  lemma {:induction false} CandidatesFollowInventory(tasks: seq<TaskKey>, log: seq<AttemptEvent>, maxAttempts: int)
    ensures CandidateTasks(Candidates(tasks, log, maxAttempts))
            == Filter(tasks, t => NextAttempt(log, t, maxAttempts).Some?)
    ensures NoDuplicates(tasks) ==> NoDuplicates(CandidateTasks(Candidates(tasks, log, maxAttempts)))
  {
    if tasks != [] {
      var n := |tasks| - 1;
      CandidatesFollowInventory(tasks[..n], log, maxAttempts);
      var before := Candidates(tasks[..n], log, maxAttempts);
      var attempt := NextAttempt(log, tasks[n], maxAttempts);
      if attempt.Some? {
        assert CandidateTasks(before + [(tasks[n], attempt.value)]) == CandidateTasks(before) + [tasks[n]];
      }
      if NoDuplicates(tasks) {
        assert tasks[n] !in tasks[..n];
      }
    }
  }

  /** A candidate's task is not valid, no later attempt of it exists, and the attempt is either new or
      planned and nothing more: PLANNED is accepted next in the first case, STARTED in the second. */
  lemma ResumeIsSound(tasks: seq<TaskKey>, log: seq<AttemptEvent>, maxAttempts: int, t: TaskKey, attempt: int)
    requires Built(tasks, log) && (t, attempt) in Candidates(tasks, log, maxAttempts)
    ensures t in tasks && t !in TerminalTasks(log) && 1 <= attempt
    ensures forall e :: e in log && e.task == t ==> e.attempt <= attempt
    ensures History(log, t, attempt) == [] || EndsWith(History(log, t, attempt), Planned)
    ensures Accepted(tasks, log, PlannedEvent(t, attempt)) <==> History(log, t, attempt) == []
    ensures Accepted(tasks, log, StartedEvent(t, attempt)) <==> EndsWith(History(log, t, attempt), Planned)
  {
    CandidateIs(tasks, log, maxAttempts, t, attempt);
    if HasEvent(log, t) {
      LatestIsLatest(log, t);
      var h := History(log, t, LatestAttempt(log, t));
      assert h[0] in h;
      BuiltEvents(tasks, log, h[0]);
    }
    if attempt > LatestAttempt(log, t) {
      NothingAfterLatest(log, t, attempt);
    }
  }

  lemma {:induction false} NothingAfterLatest(log: seq<AttemptEvent>, t: TaskKey, attempt: int)
    requires attempt > LatestAttempt(log, t) && attempt > 0
    ensures History(log, t, attempt) == []
  {
    if log != [] {
      var n := |log| - 1;
      if !HasEvent(log[..n], t) {
        NoEventNoAttempt(log[..n], t);
      }
      NothingAfterLatest(log[..n], t, attempt);
    }
  }

  /** A task without a valid result is left out exactly when its latest attempt has reached the limit and
      went past PLANNED. */
  lemma ResumeIsComplete(tasks: seq<TaskKey>, log: seq<AttemptEvent>, maxAttempts: int, t: TaskKey)
    requires Built(tasks, log) && maxAttempts >= 1 && t in tasks && t !in TerminalTasks(log)
    ensures (exists attempt :: (t, attempt) in Candidates(tasks, log, maxAttempts))
            <==> LatestAttempt(log, t) < maxAttempts || EndsWith(History(log, t, LatestAttempt(log, t)), Planned)
  {
    if HasEvent(log, t) {
      LatestIsLatest(log, t);
    } else {
      NoEventNoAttempt(log, t);
    }
    var next := NextAttempt(log, t, maxAttempts);
    if next.Some? {
      CandidateIs(tasks, log, maxAttempts, t, next.value);
    }
    forall attempt | (t, attempt) in Candidates(tasks, log, maxAttempts) ensures next == Some(attempt) {
      CandidateIs(tasks, log, maxAttempts, t, attempt);
    }
  }

  lemma {:induction false} NoEventNoAttempt(log: seq<AttemptEvent>, t: TaskKey)
    requires !HasEvent(log, t)
    ensures LatestAttempt(log, t) == 0
  {
    if log != [] {
      var n := |log| - 1;
      assert log == log[..n] + [log[n]];
      assert log[n] in log;
      NoEventNoAttempt(log[..n], t);
    }
  }

  /** The attempt a campaign resumes after a crash between PLANNED and STARTED cannot be run as the
      coordinator runs every attempt, beginning with PLANNED: that append is refused. */
  lemma PlannedOnlyAttemptIsStuck(tasks: seq<TaskKey>, log: seq<AttemptEvent>, maxAttempts: int, t: TaskKey,
                                  attempt: int)
    requires Built(tasks, log) && (t, attempt) in Candidates(tasks, log, maxAttempts)
    ensures Refusal(tasks, log, PlannedEvent(t, attempt))
            == if EndsWith(History(log, t, attempt), Planned) then Some(AlreadyPlanned) else None
  {
    ResumeIsSound(tasks, log, maxAttempts, t, attempt);
  }

  // ----- the order of the log does not matter -----

  /** What an aggregate counts, without the rewards. */
  function CountsIn(a: Aggregate): Aggregate {
    a.(rewardSum := 0.0, score := None)
  }

  /** Two built logs with the same events count the same; and when no task has two valid events they have
      the same results and the same aggregate. */
  lemma AggregateIsOrderFree(tasks: seq<TaskKey>, log: seq<AttemptEvent>, log': seq<AttemptEvent>)
    requires Built(tasks, log) && Built(tasks, log') && multiset(log) == multiset(log')
    ensures CountsIn(AggregateOf(tasks, log)) == CountsIn(AggregateOf(tasks, log'))
    ensures OneValidPerTask(log) ==> AggregateOf(tasks, log) == AggregateOf(tasks, log')
    ensures OneValidPerTask(log) ==> ValidResults(log) == ValidResults(log')
  {
    CountsAgree(tasks, log, log');
    if OneValidPerTask(log) {
      ResultsAreOrderFree(log, log');
      SameRewards(tasks, log, log');
    }
  }

  lemma CountsAgree(tasks: seq<TaskKey>, log: seq<AttemptEvent>, log': seq<AttemptEvent>)
    requires Built(tasks, log) && Built(tasks, log') && multiset(log) == multiset(log')
    ensures CountsIn(AggregateOf(tasks, log)) == CountsIn(AggregateOf(tasks, log'))
  {
    SameTasksValid(log, log');
    CountsAreOrderFree(log, log');
    AttemptsAddUp(tasks, log);
    AttemptsAddUp(tasks, log');
  }

  lemma SameRewards(tasks: seq<TaskKey>, log: seq<AttemptEvent>, log': seq<AttemptEvent>)
    requires ValidResults(log) == ValidResults(log')
    requires CountsIn(AggregateOf(tasks, log)) == CountsIn(AggregateOf(tasks, log'))
    ensures AggregateOf(tasks, log) == AggregateOf(tasks, log')
  {
    SameCounts(AggregateOf(tasks, log), AggregateOf(tasks, log'));
  }

  lemma SameCounts(a: Aggregate, b: Aggregate)
    requires CountsIn(a) == CountsIn(b) && a.rewardSum == b.rewardSum && a.score == b.score
    ensures a == b
  {
    assert a == CountsIn(a).(rewardSum := a.rewardSum, score := a.score);
    assert b == CountsIn(b).(rewardSum := b.rewardSum, score := b.score);
  }

  lemma SameTasksValid(log: seq<AttemptEvent>, log': seq<AttemptEvent>)
    requires multiset(log) == multiset(log')
    ensures ValidResults(log).Keys == ValidResults(log').Keys
    ensures |ValidResults(log)| == |ValidResults(log')|
  {
    forall e ensures e in log <==> e in log' {
      SameEvents(log, log', e);
    }
    assert |ValidResults(log)| == |ValidResults(log).Keys| && |ValidResults(log')| == |ValidResults(log').Keys|;
  }

  lemma CountsAreOrderFree(log: seq<AttemptEvent>, log': seq<AttemptEvent>)
    requires multiset(log) == multiset(log')
    ensures forall kind :: KindCount(log, kind) == KindCount(log', kind)
    ensures InvalidByReason(log) == InvalidByReason(log')
  {
    forall kind ensures KindCount(log, kind) == KindCount(log', kind) {
      CountIsOrderFree(log, log', (e: AttemptEvent) => e.event == kind);
      KindCountIs(log, kind);
      KindCountIs(log', kind);
    }
    forall r ensures InvalidCount(log, r) == InvalidCount(log', r) {
      CountIsOrderFree(log, log', (e: AttemptEvent) => IsInvalid(e, r));
      InvalidCountIs(log, r);
      InvalidCountIs(log', r);
    }
  }

  lemma {:induction false} KindCountIs(log: seq<AttemptEvent>, kind: EventKind)
    ensures KindCount(log, kind) == Count(log, (e: AttemptEvent) => e.event == kind)
  {
    if log != [] {
      var n := |log| - 1;
      KindCountIs(log[..n], kind);
      KindAppend(log[..n], log[n], kind);
      assert log == log[..n] + [log[n]];
    }
  }

  lemma {:induction false} InvalidCountIs(log: seq<AttemptEvent>, r: Reason)
    ensures InvalidCount(log, r) == Count(log, (e: AttemptEvent) => IsInvalid(e, r))
  {
    if log != [] {
      var n := |log| - 1;
      InvalidCountIs(log[..n], r);
      InvalidAppend(log[..n], log[n], r);
      assert log == log[..n] + [log[n]];
    }
  }

  lemma SameEvents(log: seq<AttemptEvent>, log': seq<AttemptEvent>, e: AttemptEvent)
    requires multiset(log) == multiset(log')
    ensures e in log <==> e in log'
  {
    assert e in log <==> e in multiset(log);
    assert e in log' <==> e in multiset(log');
  }

  lemma ResultsAreOrderFree(log: seq<AttemptEvent>, log': seq<AttemptEvent>)
    requires multiset(log) == multiset(log') && OneValidPerTask(log)
    ensures ValidResults(log) == ValidResults(log')
  {
    forall e ensures e in log <==> e in log' {
      SameEvents(log, log', e);
    }
    assert ValidResults(log).Keys == ValidResults(log').Keys;
    forall t | t in ValidResults(log') ensures ValidResults(log)[t] == ValidResults(log')[t] {
      var e := ResultComesFrom(log', t);
      ResultIsTheOne(log, e);
    }
  }
}
