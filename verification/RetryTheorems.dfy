/**
 Pass after pass: every completed pass uses up attempts, so at most `maxAttempts` of them leave nothing
 to retry, and a campaign from scratch ends with every task at the first valid of its outcomes.
 */
module RetryTheorems {
  import opened Prelude
  import opened Results
  import opened LedgerTheorems
  import opened Evidence
  import opened CampaignMachine
  import opened CampaignInvariants
  import opened CampaignSchedules
  import opened CampaignTheorems

  // ----- the events of one pass, as a set -----

  /** `e` is one of the three events of its attempt. */
  predicate FromAttempt(e: AttemptEvent, outcome: Outcomes) {
    || e == PlannedEvent(e.task, e.attempt)
    || e == StartedEvent(e.task, e.attempt)
    || e == Classify(e.task, e.attempt, outcome(e.task, e.attempt))
  }

  lemma EventsOfAttempt(t: TaskKey, attempt: int, outcome: Outcomes, e: AttemptEvent)
    ensures e in EventsAt(t, attempt, Ended, outcome) <==> Of(e, t, attempt) && FromAttempt(e, outcome)
  {
  }

  lemma {:induction false} EmittedMembers(candidates: seq<(TaskKey, int)>, places: seq<Place>, outcome: Outcomes,
                                          e: AttemptEvent)
    requires |places| == |candidates| && AllEnded(places)
    ensures e in Emitted(candidates, places, outcome)
            <==> (e.task, e.attempt) in candidates && FromAttempt(e, outcome)
  {
    if candidates != [] {
      var n := |candidates| - 1;
      EmittedMembers(candidates[..n], places[..n], outcome, e);
      EventsOfAttempt(candidates[n].0, candidates[n].1, outcome, e);
      InOrLast(candidates, (e.task, e.attempt));
      EmittedLast(candidates, places, outcome, e);
    }
  }

  lemma InOrLast<T>(s: seq<T>, x: T)
    requires s != []
    ensures x in s <==> x in s[..|s| - 1] || x == s[|s| - 1]
  {
    assert s == s[..|s| - 1] + [s[|s| - 1]];
  }

  lemma EmittedLast(candidates: seq<(TaskKey, int)>, places: seq<Place>, outcome: Outcomes, e: AttemptEvent)
    requires |places| == |candidates| && candidates != []
    ensures var n := |candidates| - 1;
            e in Emitted(candidates, places, outcome)
            <==> e in Emitted(candidates[..n], places[..n], outcome)
                 || e in EventsAt(candidates[n].0, candidates[n].1, places[n], outcome)
  {
  }

  /** The candidates' events, and no others, join the log. */
  ghost predicate Joins(tasks: seq<TaskKey>, maxAttempts: int, outcome: Outcomes,
                        log: seq<AttemptEvent>, log': seq<AttemptEvent>) {
    forall e :: e in log' <==>
      e in log || (FromAttempt(e, outcome) && (e.task, e.attempt) in Candidates(tasks, log, maxAttempts))
  }

  lemma PassJoins(tasks: seq<TaskKey>, maxAttempts: int, outcome: Outcomes,
                  log: seq<AttemptEvent>, log': seq<AttemptEvent>)
    requires PassWrites(tasks, maxAttempts, outcome, log, log')
    ensures Joins(tasks, maxAttempts, outcome, log, log')
  {
    var candidates := Candidates(tasks, log, maxAttempts);
    var places := seq(|candidates|, _ => Ended);
    forall e
      ensures e in log' <==> e in log || (FromAttempt(e, outcome) && (e.task, e.attempt) in candidates)
    {
      EmittedMembers(candidates, places, outcome, e);
      assert e in log' <==> e in multiset(log');
      assert e in log <==> e in multiset(log);
    }
  }

  // ----- what a pass does to one task -----

  lemma LatestIs(log: seq<AttemptEvent>, t: TaskKey, e: AttemptEvent)
    requires e in log && e.task == t && forall x :: x in log && x.task == t ==> x.attempt <= e.attempt
    ensures LatestAttempt(log, t) == e.attempt
  {
    LatestIsLatest(log, t);
    var h := History(log, t, LatestAttempt(log, t));
    assert h[0] in h;
  }

  lemma ShapeEnds(h: seq<AttemptEvent>)
    requires Shape(h)
    ensures EndsWith(h, Planned) <==> h != [] && !AnyOf(h, Started)
  {
    if |h| >= 2 {
      assert h[1] in h;
    }
  }

  /** An attempt is only planned when its history is there and never started. */
  lemma PlannedOnlyMeans(tasks: seq<TaskKey>, log: seq<AttemptEvent>, t: TaskKey, attempt: int)
    requires Built(tasks, log)
    ensures EndsWith(History(log, t, attempt), Planned)
            <==> (t, attempt) in Keys(log) && !Has(log, (t, attempt), Started)
  {
    HistoriesHaveShape(tasks, log, t, attempt);
    HasMeansHistory(log, (t, attempt), Started);
    ShapeEnds(History(log, t, attempt));
  }

  lemma OneCandidatePerTask(tasks: seq<TaskKey>, log: seq<AttemptEvent>, maxAttempts: int,
                            t: TaskKey, a: int, b: int)
    requires (t, a) in Candidates(tasks, log, maxAttempts) && (t, b) in Candidates(tasks, log, maxAttempts)
    ensures a == b
  {
    CandidateIs(tasks, log, maxAttempts, t, a);
    CandidateIs(tasks, log, maxAttempts, t, b);
  }

  /** The task of a candidate ends at that attempt, and past PLANNED. */
  lemma CandidateAdvances(tasks: seq<TaskKey>, maxAttempts: int, outcome: Outcomes,
                          log: seq<AttemptEvent>, log': seq<AttemptEvent>, t: TaskKey, attempt: int)
    requires Built(tasks, log) && Joins(tasks, maxAttempts, outcome, log, log')
    requires (t, attempt) in Candidates(tasks, log, maxAttempts)
    ensures LatestAttempt(log', t) == attempt && Has(log', (t, attempt), Started)
  {
    var e := StartedEvent(t, attempt);
    assert e in log' && Of(e, t, attempt) by {
      assert FromAttempt(e, outcome);
    }
    ResumeIsSound(tasks, log, maxAttempts, t, attempt);
    forall x | x in log' && x.task == t ensures x.attempt <= attempt {
      if x !in log {
        OneCandidatePerTask(tasks, log, maxAttempts, t, x.attempt, attempt);
      }
    }
    LatestIs(log', t, e);
  }

  /** A task without a candidate keeps its events. */
  lemma OtherTaskStays(tasks: seq<TaskKey>, maxAttempts: int, outcome: Outcomes,
                       log: seq<AttemptEvent>, log': seq<AttemptEvent>, t: TaskKey, e: AttemptEvent)
    requires Joins(tasks, maxAttempts, outcome, log, log') && e.task == t
    requires t !in tasks || NextAttempt(log, t, maxAttempts) == None
    ensures e in log' <==> e in log
  {
    CandidateIs(tasks, log, maxAttempts, t, e.attempt);
  }

  lemma OtherTaskKeeps(tasks: seq<TaskKey>, maxAttempts: int, outcome: Outcomes,
                       log: seq<AttemptEvent>, log': seq<AttemptEvent>, t: TaskKey)
    requires Joins(tasks, maxAttempts, outcome, log, log')
    requires t !in tasks || NextAttempt(log, t, maxAttempts) == None
    ensures LatestAttempt(log', t) == LatestAttempt(log, t)
    ensures forall a :: (t, a) in Keys(log') <==> (t, a) in Keys(log)
    ensures forall a :: Has(log', (t, a), Started) <==> Has(log, (t, a), Started)
  {
    forall e: AttemptEvent | e.task == t ensures e in log' <==> e in log {
      OtherTaskStays(tasks, maxAttempts, outcome, log, log', t, e);
    }
    if HasEvent(log, t) {
      LatestIsLatest(log, t);
      var h := History(log, t, LatestAttempt(log, t));
      assert h[0] in h;
      LatestIs(log', t, h[0]);
    } else {
      NoEventNoAttempt(log, t);
      NoEventNoAttempt(log', t);
    }
  }

  lemma ValidStaysValid(tasks: seq<TaskKey>, maxAttempts: int, outcome: Outcomes,
                        log: seq<AttemptEvent>, log': seq<AttemptEvent>, t: TaskKey)
    requires Joins(tasks, maxAttempts, outcome, log, log')
    ensures t in TerminalTasks(log) ==> t in TerminalTasks(log')
  {
    if t in TerminalTasks(log) {
      var e :| e in log && IsValid(e) && e.task == t;
      assert e in log';
    }
  }

  /** A pass leaves no task planned-only, so that it can be followed by another. */
  lemma PassLeavesNoPlannedOnly(tasks: seq<TaskKey>, maxAttempts: int, outcome: Outcomes,
                                log: seq<AttemptEvent>, log': seq<AttemptEvent>)
    requires Built(tasks, log) && NoPlannedOnly(tasks, log) && PassWrites(tasks, maxAttempts, outcome, log, log')
    ensures NoPlannedOnly(tasks, log')
  {
    PassJoins(tasks, maxAttempts, outcome, log, log');
    forall t | t in tasks && t !in TerminalTasks(log')
      ensures !EndsWith(History(log', t, LatestAttempt(log', t)), Planned)
    {
      TaskNotPlannedOnly(tasks, maxAttempts, outcome, log, log', t);
    }
  }

  lemma TaskNotPlannedOnly(tasks: seq<TaskKey>, maxAttempts: int, outcome: Outcomes,
                           log: seq<AttemptEvent>, log': seq<AttemptEvent>, t: TaskKey)
    requires Built(tasks, log) && Built(tasks, log') && NoPlannedOnly(tasks, log)
    requires Joins(tasks, maxAttempts, outcome, log, log') && t in tasks && t !in TerminalTasks(log')
    ensures !EndsWith(History(log', t, LatestAttempt(log', t)), Planned)
  {
    var next := NextAttempt(log, t, maxAttempts);
    PlannedOnlyMeans(tasks, log', t, LatestAttempt(log', t));
    ValidStaysValid(tasks, maxAttempts, outcome, log, log', t);
    if next.Some? {
      CandidateIs(tasks, log, maxAttempts, t, next.value);
      CandidateAdvances(tasks, maxAttempts, outcome, log, log', t, next.value);
    } else {
      OtherTaskKeeps(tasks, maxAttempts, outcome, log, log', t);
      PlannedOnlyMeans(tasks, log, t, LatestAttempt(log, t));
    }
  }

  // ----- attempts are used up -----

  /** The attempts a task may still make. */
  function Left(log: seq<AttemptEvent>, t: TaskKey, maxAttempts: int): nat {
    if t in TerminalTasks(log) || LatestAttempt(log, t) >= maxAttempts then 0
    else maxAttempts - LatestAttempt(log, t)
  }

  function Remaining(tasks: seq<TaskKey>, log: seq<AttemptEvent>, maxAttempts: int): nat {
    if tasks == [] then 0
    else Remaining(tasks[..|tasks| - 1], log, maxAttempts) + Left(log, tasks[|tasks| - 1], maxAttempts)
  }

  lemma TaskUsesAttempts(tasks: seq<TaskKey>, maxAttempts: int, outcome: Outcomes,
                         log: seq<AttemptEvent>, log': seq<AttemptEvent>, t: TaskKey)
    requires Built(tasks, log) && NoPlannedOnly(tasks, log) && maxAttempts >= 1
    requires Joins(tasks, maxAttempts, outcome, log, log') && t in tasks
    ensures Left(log', t, maxAttempts) + (if NextAttempt(log, t, maxAttempts).Some? then 1 else 0)
            <= Left(log, t, maxAttempts)
  {
    var next := NextAttempt(log, t, maxAttempts);
    ValidStaysValid(tasks, maxAttempts, outcome, log, log', t);
    if next.Some? {
      CandidateIs(tasks, log, maxAttempts, t, next.value);
      FreshCandidate(tasks, maxAttempts, log, t, next.value);
      CandidateAdvances(tasks, maxAttempts, outcome, log, log', t, next.value);
    } else {
      OtherTaskKeeps(tasks, maxAttempts, outcome, log, log', t);
    }
  }

  lemma {:induction false} RemainingDrops(part: seq<TaskKey>, tasks: seq<TaskKey>, maxAttempts: int, outcome: Outcomes,
                                          log: seq<AttemptEvent>, log': seq<AttemptEvent>)
    requires Built(tasks, log) && NoPlannedOnly(tasks, log) && maxAttempts >= 1
    requires Joins(tasks, maxAttempts, outcome, log, log') && forall t :: t in part ==> t in tasks
    ensures Remaining(part, log', maxAttempts) + |Candidates(part, log, maxAttempts)|
            <= Remaining(part, log, maxAttempts)
  {
    if part != [] {
      var n := |part| - 1;
      RemainingDrops(part[..n], tasks, maxAttempts, outcome, log, log');
      TaskUsesAttempts(tasks, maxAttempts, outcome, log, log', part[n]);
    }
  }

  /** A completed pass takes at least one attempt off what remains for each of its candidates. */
  lemma PassUsesAttempts(tasks: seq<TaskKey>, maxAttempts: int, outcome: Outcomes,
                         log: seq<AttemptEvent>, log': seq<AttemptEvent>)
    requires Built(tasks, log) && NoPlannedOnly(tasks, log) && maxAttempts >= 1
    requires PassWrites(tasks, maxAttempts, outcome, log, log')
    ensures Remaining(tasks, log', maxAttempts) + |Candidates(tasks, log, maxAttempts)|
            <= Remaining(tasks, log, maxAttempts)
    ensures Candidates(tasks, log, maxAttempts) != [] ==>
              Remaining(tasks, log', maxAttempts) < Remaining(tasks, log, maxAttempts)
  {
    PassJoins(tasks, maxAttempts, outcome, log, log');
    RemainingDrops(tasks, tasks, maxAttempts, outcome, log, log');
  }

  /** Every task without a result has made at least `k` attempts, or all it may. */
  ghost predicate Tried(tasks: seq<TaskKey>, log: seq<AttemptEvent>, maxAttempts: int, k: nat) {
    forall t :: t in tasks && t !in TerminalTasks(log) ==>
      LatestAttempt(log, t) >= maxAttempts || LatestAttempt(log, t) >= k
  }

  lemma TaskTriesAgain(tasks: seq<TaskKey>, maxAttempts: int, outcome: Outcomes,
                       log: seq<AttemptEvent>, log': seq<AttemptEvent>, k: nat, t: TaskKey)
    requires Built(tasks, log) && NoPlannedOnly(tasks, log) && maxAttempts >= 1
    requires Joins(tasks, maxAttempts, outcome, log, log') && Tried(tasks, log, maxAttempts, k)
    requires t in tasks && t !in TerminalTasks(log')
    ensures LatestAttempt(log', t) >= maxAttempts || LatestAttempt(log', t) >= k + 1
  {
    var next := NextAttempt(log, t, maxAttempts);
    ValidStaysValid(tasks, maxAttempts, outcome, log, log', t);
    if next.Some? {
      CandidateIs(tasks, log, maxAttempts, t, next.value);
      FreshCandidate(tasks, maxAttempts, log, t, next.value);
      CandidateAdvances(tasks, maxAttempts, outcome, log, log', t, next.value);
    } else {
      OtherTaskKeeps(tasks, maxAttempts, outcome, log, log', t);
    }
  }

  lemma PassTries(tasks: seq<TaskKey>, maxAttempts: int, outcome: Outcomes,
                  log: seq<AttemptEvent>, log': seq<AttemptEvent>, k: nat)
    requires Built(tasks, log) && NoPlannedOnly(tasks, log) && maxAttempts >= 1
    requires PassWrites(tasks, maxAttempts, outcome, log, log') && Tried(tasks, log, maxAttempts, k)
    ensures Tried(tasks, log', maxAttempts, k + 1)
  {
    PassJoins(tasks, maxAttempts, outcome, log, log');
    forall t | t in tasks && t !in TerminalTasks(log')
      ensures LatestAttempt(log', t) >= maxAttempts || LatestAttempt(log', t) >= k + 1
    {
      TaskTriesAgain(tasks, maxAttempts, outcome, log, log', k, t);
    }
  }

  lemma AllTried(tasks: seq<TaskKey>, log: seq<AttemptEvent>, maxAttempts: int, k: nat)
    requires Built(tasks, log) && NoPlannedOnly(tasks, log) && 1 <= maxAttempts <= k
    requires Tried(tasks, log, maxAttempts, k)
    ensures Candidates(tasks, log, maxAttempts) == []
  {
    if Candidates(tasks, log, maxAttempts) != [] {
      var (t, attempt) := Candidates(tasks, log, maxAttempts)[0];
      assert (t, attempt) in Candidates(tasks, log, maxAttempts);
      CandidateIs(tasks, log, maxAttempts, t, attempt);
      FreshCandidate(tasks, maxAttempts, log, t, attempt);
    }
  }

  ghost predicate PassChain(tasks: seq<TaskKey>, maxAttempts: int, outcomes: seq<Outcomes>,
                            logs: seq<seq<AttemptEvent>>) {
    && |logs| == |outcomes| + 1
    && forall k :: 0 <= k < |outcomes| ==> PassWrites(tasks, maxAttempts, outcomes[k], logs[k], logs[k + 1])
  }

  /** From any resumable ledger, `k` completed passes give each task `k` more attempts or all it may make;
      `maxAttempts` passes leave no candidate. */
  lemma {:induction false} PassesRunOut(tasks: seq<TaskKey>, maxAttempts: int, outcomes: seq<Outcomes>,
                                        logs: seq<seq<AttemptEvent>>)
    requires PassChain(tasks, maxAttempts, outcomes, logs) && maxAttempts >= 1
    requires Built(tasks, logs[0]) && NoPlannedOnly(tasks, logs[0])
    ensures Built(tasks, logs[|outcomes|]) && NoPlannedOnly(tasks, logs[|outcomes|])
    ensures Tried(tasks, logs[|outcomes|], maxAttempts, |outcomes|)
    ensures |outcomes| >= maxAttempts ==> Candidates(tasks, logs[|outcomes|], maxAttempts) == []
    decreases |outcomes|
  {
    var k := |outcomes|;
    if k == 0 {
      NoneTriedYet(tasks, logs[0], maxAttempts);
    } else {
      PassesRunOut(tasks, maxAttempts, outcomes[..k - 1], logs[..k]);
      PassLeavesNoPlannedOnly(tasks, maxAttempts, outcomes[k - 1], logs[k - 1], logs[k]);
      PassTries(tasks, maxAttempts, outcomes[k - 1], logs[k - 1], logs[k], k - 1);
    }
    if k >= maxAttempts {
      AllTried(tasks, logs[k], maxAttempts, k);
    }
  }

  lemma NoneTriedYet(tasks: seq<TaskKey>, log: seq<AttemptEvent>, maxAttempts: int)
    requires Built(tasks, log)
    ensures Tried(tasks, log, maxAttempts, 0)
  {
    forall t ensures LatestAttempt(log, t) >= 0 {
      if HasEvent(log, t) {
        LatestIsPositive(tasks, log, t);
      } else {
        NoEventNoAttempt(log, t);
      }
    }
  }

  // ----- a campaign from scratch -----

  predicate Succeeds(t: TaskKey, attempt: int, outcome: Outcomes) {
    IsValid(Classify(t, attempt, outcome(t, attempt)))
  }

  /** The first of the attempts up to `k` that would be valid. */
  function FirstValid(t: TaskKey, k: nat, outcome: Outcomes): (first: Option<int>)
    ensures first == None <==> forall a :: 1 <= a <= k ==> !Succeeds(t, a, outcome)
    ensures first.Some? ==>
              && 1 <= first.value <= k && Succeeds(t, first.value, outcome)
              && forall a :: 1 <= a < first.value ==> !Succeeds(t, a, outcome)
  {
    if k == 0 then None
    else
      var before := FirstValid(t, k - 1, outcome);
      if before.Some? then before
      else if Succeeds(t, k, outcome) then Some(k)
      else None
  }

  predicate Tries(t: TaskKey, attempt: int, k: int, outcome: Outcomes) {
    1 <= attempt <= k && forall a :: 1 <= a < attempt ==> !Succeeds(t, a, outcome)
  }

  /** The log holds the three events of each attempt up to the first valid one of its task, at most `k`. */
  ghost predicate AfterPasses(tasks: seq<TaskKey>, outcome: Outcomes, k: int, log: seq<AttemptEvent>) {
    forall e :: e in log <==> e.task in tasks && Tries(e.task, e.attempt, k, outcome) && FromAttempt(e, outcome)
  }

  lemma DoneWhenValid(tasks: seq<TaskKey>, outcome: Outcomes, k: nat, log: seq<AttemptEvent>, t: TaskKey)
    requires AfterPasses(tasks, outcome, k, log) && t in tasks
    ensures t in TerminalTasks(log) <==> FirstValid(t, k, outcome).Some?
  {
    var first := FirstValid(t, k, outcome);
    if first.Some? {
      assert FromAttempt(Classify(t, first.value, outcome(t, first.value)), outcome);
    }
    if t in TerminalTasks(log) {
      var e :| e in log && IsValid(e) && e.task == t;
      assert Succeeds(t, e.attempt, outcome);
    }
  }

  lemma LatestIsLastPass(tasks: seq<TaskKey>, outcome: Outcomes, k: nat, log: seq<AttemptEvent>, t: TaskKey)
    requires AfterPasses(tasks, outcome, k, log) && t in tasks && FirstValid(t, k, outcome) == None
    ensures HasEvent(log, t) <==> k > 0
    ensures LatestAttempt(log, t) == k
    ensures Has(log, (t, k), Started) <==> k > 0
  {
    if k > 0 {
      var e := StartedEvent(t, k);
      assert FromAttempt(e, outcome) && Tries(t, k, k, outcome);
      assert e in log;
      LatestIs(log, t, e);
    } else {
      NoEventNoAttempt(log, t);
    }
  }

  lemma NextIsNextPass(tasks: seq<TaskKey>, outcome: Outcomes, k: nat, log: seq<AttemptEvent>, maxAttempts: int,
                       t: TaskKey)
    requires Built(tasks, log) && AfterPasses(tasks, outcome, k, log) && t in tasks
    requires k <= maxAttempts && maxAttempts >= 1
    ensures NextAttempt(log, t, maxAttempts)
            == if FirstValid(t, k, outcome) == None && k < maxAttempts then Some(k + 1) else None
  {
    DoneWhenValid(tasks, outcome, k, log, t);
    if FirstValid(t, k, outcome) == None {
      LatestIsLastPass(tasks, outcome, k, log, t);
      PlannedOnlyMeans(tasks, log, t, LatestAttempt(log, t));
      NextAfterLatest(log, t, maxAttempts);
    }
  }

  lemma NextAfterLatest(log: seq<AttemptEvent>, t: TaskKey, maxAttempts: int)
    requires t !in TerminalTasks(log) && !EndsWith(History(log, t, LatestAttempt(log, t)), Planned)
    ensures NextAttempt(log, t, maxAttempts)
            == if !HasEvent(log, t) then Some(1)
               else if LatestAttempt(log, t) < maxAttempts then Some(LatestAttempt(log, t) + 1)
               else None
  {
  }

  lemma CandidatesAfter(tasks: seq<TaskKey>, outcome: Outcomes, k: nat, log: seq<AttemptEvent>, maxAttempts: int,
                        t: TaskKey, attempt: int)
    requires Built(tasks, log) && AfterPasses(tasks, outcome, k, log) && k <= maxAttempts && maxAttempts >= 1
    ensures (t, attempt) in Candidates(tasks, log, maxAttempts)
            <==> t in tasks && attempt == k + 1 && Tries(t, attempt, maxAttempts, outcome)
  {
    CandidateIs(tasks, log, maxAttempts, t, attempt);
    if t in tasks {
      NextIsNextPass(tasks, outcome, k, log, maxAttempts, t);
    }
  }

  /** One more pass, one more attempt for every task that has not succeeded. */
  lemma PassAddsAttempt(tasks: seq<TaskKey>, maxAttempts: int, outcome: Outcomes, k: nat,
                        log: seq<AttemptEvent>, log': seq<AttemptEvent>)
    requires Built(tasks, log) && AfterPasses(tasks, outcome, k, log) && k < maxAttempts
    requires PassWrites(tasks, maxAttempts, outcome, log, log')
    ensures AfterPasses(tasks, outcome, k + 1, log')
  {
    PassJoins(tasks, maxAttempts, outcome, log, log');
    forall e
      ensures e in log' <==> e.task in tasks && Tries(e.task, e.attempt, k + 1, outcome) && FromAttempt(e, outcome)
    {
      CandidatesAfter(tasks, outcome, k, log, maxAttempts, e.task, e.attempt);
    }
  }

  lemma NoMoreToTry(tasks: seq<TaskKey>, maxAttempts: int, outcome: Outcomes, k: nat, log: seq<AttemptEvent>)
    requires Built(tasks, log) && AfterPasses(tasks, outcome, k, log) && k <= maxAttempts && maxAttempts >= 1
    requires Candidates(tasks, log, maxAttempts) == []
    ensures AfterPasses(tasks, outcome, maxAttempts, log)
  {
    forall e: AttemptEvent | e.task in tasks && k < e.attempt ensures !Tries(e.task, e.attempt, maxAttempts, outcome) {
      CandidatesAfter(tasks, outcome, k, log, maxAttempts, e.task, k + 1);
    }
  }

  /** Whatever the schedules of its passes, a finished campaign has for each task the reward of its first
      valid outcome within `maxAttempts`, and no result exactly where there is none. */
  lemma ResultsAreFirstValid(tasks: seq<TaskKey>, maxAttempts: nat, outcome: Outcomes, log: seq<AttemptEvent>)
    requires Built(tasks, log) && OneValidPerTask(log) && AfterPasses(tasks, outcome, maxAttempts, log)
    ensures forall t :: t in ValidResults(log) <==> t in tasks && FirstValid(t, maxAttempts, outcome).Some?
    ensures forall t :: t in ValidResults(log) ==>
              outcome(t, FirstValid(t, maxAttempts, outcome).value).results
              == [Number(ValidResults(log)[t])]
  {
    ResultsAreSound(tasks, log);
    forall t | t in tasks ensures t in ValidResults(log) <==> FirstValid(t, maxAttempts, outcome).Some? {
      DoneWhenValid(tasks, outcome, maxAttempts, log, t);
    }
    forall t | t in ValidResults(log)
      ensures outcome(t, FirstValid(t, maxAttempts, outcome).value).results == [Number(ValidResults(log)[t])]
    {
      FirstReward(tasks, maxAttempts, outcome, log, t);
    }
  }

  lemma FirstReward(tasks: seq<TaskKey>, maxAttempts: nat, outcome: Outcomes, log: seq<AttemptEvent>, t: TaskKey)
    requires Built(tasks, log) && OneValidPerTask(log) && AfterPasses(tasks, outcome, maxAttempts, log)
    requires t in tasks && t in ValidResults(log) && FirstValid(t, maxAttempts, outcome).Some?
    ensures outcome(t, FirstValid(t, maxAttempts, outcome).value).results == [Number(ValidResults(log)[t])]
  {
    var a := FirstValid(t, maxAttempts, outcome).value;
    var e := Classify(t, a, outcome(t, a));
    ClassificationIsLegal(t, a, outcome(t, a));
    assert e in log by {
      assert FromAttempt(e, outcome) && Tries(t, a, maxAttempts, outcome);
    }
    ResultIsTheOne(log, e);
    assert outcome(t, a).results == [outcome(t, a).results[0]];
  }

  lemma FreshCampaign(tasks: seq<TaskKey>, outcome: Outcomes)
    ensures AfterPasses(tasks, outcome, 0, []) && NoPlannedOnly(tasks, []) && OneValidPerTask([])
  {
    forall t ensures History([], t, LatestAttempt([], t)) == [] {
    }
  }
}
