/**
 The execution limits of a validation contract, and what its request cap is worth over the whole life
 of a campaign.
 */
module Contract {
  import opened Prelude
  import opened Results
  import opened LedgerTheorems
  import opened Evidence
  import opened CampaignMachine
  import opened CampaignInvariants
  import opened CampaignSchedules
  import opened CampaignTheorems
  import opened RetryTheorems

  /** A JSON value; the type test for integers has to keep booleans out. */
  datatype Value = Int(i: int) | Bool(b: bool) | OtherValue | Missing

  datatype Limits = Limits(
    taskCount: int,
    maxSteps: Value,
    sandboxCap: Value,
    modelCap: Value,
    attempts: Value,
    callAttempts: Value,
    timeoutSeconds: Value)

  datatype Field = SandboxCap | ModelCap | Attempts | CallAttempts | TimeoutSeconds

  datatype ContractError =
    | TaskCountDiffers
    | MaxStepsDiffer
    | NotPositive(field: Field)
    | SandboxCapExceedsTasks
    | ModelCapTooLow(worstCase: int)

  const REFERENCE_MAX_STEPS := 50

  function PositiveInt(v: Value, field: Field): Result<int, ContractError> {
    if v.Int? && v.i >= 1 then Ok(v.i) else Err(NotPositive(field))
  }

  function WorstCaseRequests(taskCount: int, attempts: int, callAttempts: int): int {
    taskCount * REFERENCE_MAX_STEPS * callAttempts * attempts
  }

  /** The checks of `validate_contract` on these fields, in its order. */
  function Validate(l: Limits, inventoryCount: int): Option<ContractError> {
    if l.taskCount != inventoryCount then Some(TaskCountDiffers)
    else if l.maxSteps != Int(REFERENCE_MAX_STEPS) then Some(MaxStepsDiffer)
    else if PositiveInt(l.sandboxCap, SandboxCap).Err? then Some(NotPositive(SandboxCap))
    else if PositiveInt(l.modelCap, ModelCap).Err? then Some(NotPositive(ModelCap))
    else if PositiveInt(l.attempts, Attempts).Err? then Some(NotPositive(Attempts))
    else if PositiveInt(l.callAttempts, CallAttempts).Err? then Some(NotPositive(CallAttempts))
    else if PositiveInt(l.timeoutSeconds, TimeoutSeconds).Err? then Some(NotPositive(TimeoutSeconds))
    else if l.sandboxCap.i > l.taskCount then Some(SandboxCapExceedsTasks)
    else
      var worst := WorstCaseRequests(l.taskCount, l.attempts.i, l.callAttempts.i);
      if l.modelCap.i < worst then Some(ModelCapTooLow(worst)) else None
  }

  /** All limits but the request cap are in order: the inventory's task count, 50 steps, positive integers, and no
      more sandboxes than tasks. */
  predicate LimitsInOrder(l: Limits, inventoryCount: int) {
    && l.taskCount == inventoryCount && l.maxSteps == Int(50)
    && l.sandboxCap.Int? && 1 <= l.sandboxCap.i <= inventoryCount
    && l.modelCap.Int? && l.modelCap.i >= 1
    && l.attempts.Int? && l.attempts.i >= 1
    && l.callAttempts.Int? && l.callAttempts.i >= 1
    && l.timeoutSeconds.Int? && l.timeoutSeconds.i >= 1
  }

  /** A contract is accepted exactly when its limits are in order and its request cap covers 50 steps for each call
      attempt of each attempt of each task. */
  lemma AcceptedIff(l: Limits, inventoryCount: int)
    ensures Validate(l, inventoryCount) == None
            <==> LimitsInOrder(l, inventoryCount)
                 && inventoryCount * 50 * l.callAttempts.i * l.attempts.i <= l.modelCap.i
  {
  }

  /** Each error says what is wrong, and the cap is looked at last. */
  lemma RefusalTells(l: Limits, inventoryCount: int, error: ContractError)
    requires Validate(l, inventoryCount) == Some(error)
    ensures match error
            case TaskCountDiffers => l.taskCount != inventoryCount
            case MaxStepsDiffer => l.maxSteps != Int(50)
            case NotPositive(field) =>
              var v := match field
                       case SandboxCap => l.sandboxCap
                       case ModelCap => l.modelCap
                       case Attempts => l.attempts
                       case CallAttempts => l.callAttempts
                       case TimeoutSeconds => l.timeoutSeconds;
              v.Int? ==> v.i < 1
            case SandboxCapExceedsTasks => l.sandboxCap.Int? && l.sandboxCap.i > inventoryCount
            case ModelCapTooLow(worst) =>
              && LimitsInOrder(l, inventoryCount) && l.modelCap.i < worst
              && worst == inventoryCount * 50 * l.callAttempts.i * l.attempts.i
  {
  }

  /** How many model requests each attempt makes, once started. */
  type Requests = (TaskKey, int) -> nat

  function TotalRequests(log: seq<AttemptEvent>, requests: Requests): nat {
    if log == [] then 0
    else
      var e := log[|log| - 1];
      TotalRequests(log[..|log| - 1], requests) + (if e.event == Started then requests(e.task, e.attempt) else 0)
  }

  /** No attempt makes more requests than its steps and retries allow. */
  ghost predicate WithinSteps(requests: Requests, callAttempts: int) {
    forall t, attempt :: requests(t, attempt) <= REFERENCE_MAX_STEPS * callAttempts
  }

  lemma {:induction false} TotalIsBounded(log: seq<AttemptEvent>, requests: Requests, most: nat)
    requires forall t, attempt :: requests(t, attempt) <= most
    ensures TotalRequests(log, requests) <= KindCount(log, Started) * most
  {
    if log != [] {
      var n := |log| - 1;
      TotalIsBounded(log[..n], requests, most);
      assert log == log[..n] + [log[n]];
      KindAppend(log[..n], log[n], Started);
      OneMoreRow(KindCount(log[..n], Started), most);
    }
  }

  lemma {:induction false} TotalIsReached(log: seq<AttemptEvent>, requests: Requests, most: nat)
    requires forall t, attempt :: requests(t, attempt) == most
    ensures TotalRequests(log, requests) == KindCount(log, Started) * most
  {
    if log != [] {
      var n := |log| - 1;
      TotalIsReached(log[..n], requests, most);
      assert log == log[..n] + [log[n]];
      KindAppend(log[..n], log[n], Started);
      OneMoreRow(KindCount(log[..n], Started), most);
    }
  }

  lemma ScaleUp(a: nat, b: nat, most: nat)
    requires a <= b
    ensures a * most <= b * most
  {
  }

  lemma WorstCaseIs(tasks: nat, attempts: nat, callAttempts: nat)
    ensures WorstCaseRequests(tasks, attempts, callAttempts)
            == (tasks * attempts) * (REFERENCE_MAX_STEPS * callAttempts)
  {
    assert (tasks * attempts) * (50 * callAttempts) == tasks * (attempts * (50 * callAttempts));
    assert attempts * (50 * callAttempts) == (50 * callAttempts) * attempts;
    assert tasks * ((50 * callAttempts) * attempts) == (tasks * (50 * callAttempts)) * attempts;
    assert tasks * (50 * callAttempts) == (tasks * 50) * callAttempts;
  }

  /** Over any passes, resumes and crashes, an accepted contract's request cap is never exceeded. */
  lemma CapIsNeverExceeded(l: Limits, tasks: seq<TaskKey>, c: Campaign, requests: Requests)
    requires NoDuplicates(tasks) && Validate(l, |tasks|) == None
    requires Reachable(tasks, l.attempts.i, c) && WithinSteps(requests, l.callAttempts.i)
    ensures TotalRequests(c.log, requests) <= l.modelCap.i
  {
    var most := REFERENCE_MAX_STEPS * l.callAttempts.i;
    AttemptsAreBounded(tasks, l.attempts.i, c);
    TotalIsBounded(c.log, requests, most);
    ScaleUp(KindCount(c.log, Started), |tasks| * l.attempts.i, most);
    WorstCaseIs(|tasks|, l.attempts.i, l.callAttempts.i);
  }

  /** An accepted contract has integers, not booleans, in all its limits, and no more sandboxes than
      tasks; then no pass within its sandbox cap ever has more children than there are tasks. */
  lemma SandboxCapHolds(l: Limits, tasks: seq<TaskKey>, c: Campaign)
    requires NoDuplicates(tasks) && Validate(l, |tasks|) == None
    ensures forall v :: v in {l.sandboxCap, l.modelCap, l.attempts, l.callAttempts, l.timeoutSeconds} ==>
              v.Int? && v.i >= 1
    ensures Reachable(tasks, l.attempts.i, c) && c.pass.Some? && c.pass.value.numEnvs <= l.sandboxCap.i ==>
              Children(c.pass.value.places) <= l.sandboxCap.i <= |tasks|
  {
    if Reachable(tasks, l.attempts.i, c) && c.pass.Some? {
      ChildrenStayBounded(tasks, l.attempts.i, c);
    }
  }

  // ----- the bound is reached -----

  lemma ReachableOn(tasks: seq<TaskKey>, maxAttempts: int, c: Campaign, moves: seq<Move>, c': Campaign)
    requires Reachable(tasks, maxAttempts, c) && Run(tasks, maxAttempts, c, moves) == Some(c')
    ensures Reachable(tasks, maxAttempts, c')
  {
    var before :| Run(tasks, maxAttempts, Campaign([], None), before) == Some(c);
    RunConcat(tasks, maxAttempts, Campaign([], None), before, c, moves, c');
  }

  /** Some campaign makes `k` complete passes, whatever the outcomes. */
  lemma {:induction false} SomeCampaign(tasks: seq<TaskKey>, maxAttempts: nat, outcome: Outcomes, k: nat)
    returns (c: Campaign)
    requires NoDuplicates(tasks) && k <= maxAttempts && maxAttempts >= 1 && Uninterrupted(outcome)
    ensures Reachable(tasks, maxAttempts, c) && c.pass == None
    ensures AfterPasses(tasks, outcome, k, c.log) && NoPlannedOnly(tasks, c.log)
  {
    if k == 0 {
      c := Campaign([], None);
      assert Run(tasks, maxAttempts, c, []) == Some(c);
      FreshCampaign(tasks, outcome);
    } else {
      var before := SomeCampaign(tasks, maxAttempts, outcome, k - 1);
      c := OneMorePass(tasks, maxAttempts, outcome, before);
      ReachableInv(tasks, maxAttempts, before);
      PassLeavesNoPlannedOnly(tasks, maxAttempts, outcome, before.log, c.log);
      PassAddsAttempt(tasks, maxAttempts, outcome, k - 1, before.log, c.log);
    }
  }

  lemma OneMorePass(tasks: seq<TaskKey>, maxAttempts: nat, outcome: Outcomes, c: Campaign) returns (c': Campaign)
    requires NoDuplicates(tasks) && Reachable(tasks, maxAttempts, c) && c.pass == None && maxAttempts >= 1
    requires NoPlannedOnly(tasks, c.log) && Uninterrupted(outcome)
    ensures Reachable(tasks, maxAttempts, c') && c'.pass == None
    ensures PassWrites(tasks, maxAttempts, outcome, c.log, c'.log)
  {
    ReachableInv(tasks, maxAttempts, c);
    var moves, last := PassExists(tasks, maxAttempts, outcome, c);
    c' := Campaign(last.log, None);
    CompleteMeans(tasks, maxAttempts, last);
    assert CompletePass(tasks, maxAttempts, outcome, c, moves, c');
    CompletePassWrites(tasks, maxAttempts, outcome, c, moves, c');
    ReachableOn(tasks, maxAttempts, c, moves, last);
    assert Run(tasks, maxAttempts, c', []) == Some(c');
    assert [Complete][1..] == [];
    assert Run(tasks, maxAttempts, last, [Complete]) == Some(c');
    ReachableOn(tasks, maxAttempts, last, [Complete], c');
  }

  const TIMED_OUT := Observation(false, true, None, [], NoFile)

  function AlwaysTimedOut(): Outcomes {
    (_, _) => TIMED_OUT
  }

  lemma NeverSucceeds(t: TaskKey, attempt: int)
    ensures !Succeeds(t, attempt, AlwaysTimedOut())
  {
  }

  /** `keys` are the attempts 1 to `maxAttempts` of every task. */
  ghost predicate Grid(tasks: seq<TaskKey>, maxAttempts: nat, keys: set<(TaskKey, int)>) {
    forall t, a :: (t, a) in keys <==> t in tasks && 1 <= a <= maxAttempts
  }

  lemma GridTasks(tasks: seq<TaskKey>, maxAttempts: nat, keys: set<(TaskKey, int)>)
    requires Grid(tasks, maxAttempts, keys)
    ensures forall key :: key in keys ==> key.0 in tasks
  {
    forall key | key in keys ensures key.0 in tasks {
      var (t, a) := key;
      assert (t, a) in keys;
    }
  }

  lemma GridWithoutLast(tasks: seq<TaskKey>, maxAttempts: nat, keys: set<(TaskKey, int)>)
    requires NoDuplicates(tasks) && tasks != [] && Grid(tasks, maxAttempts, keys)
    ensures var mine := CampaignInvariants.Attempts(tasks[|tasks| - 1], maxAttempts);
            mine <= keys && Grid(tasks[..|tasks| - 1], maxAttempts, keys - mine)
  {
    var n := |tasks| - 1;
    var mine := CampaignInvariants.Attempts(tasks[n], maxAttempts);
    forall t, a ensures (t, a) in mine <==> t == tasks[n] && 1 <= a <= maxAttempts {
    }
    forall t ensures t in tasks[..n] <==> t in tasks && t != tasks[n] {
      assert tasks == tasks[..n] + [tasks[n]];
    }
  }

  lemma {:induction false} GridSize(tasks: seq<TaskKey>, maxAttempts: nat, keys: set<(TaskKey, int)>)
    requires NoDuplicates(tasks) && Grid(tasks, maxAttempts, keys)
    ensures |keys| == |tasks| * maxAttempts
  {
    if tasks == [] {
      GridTasks(tasks, maxAttempts, keys);
      assert keys == {};
    } else {
      var n := |tasks| - 1;
      var mine := CampaignInvariants.Attempts(tasks[n], maxAttempts);
      GridWithoutLast(tasks, maxAttempts, keys);
      GridSize(tasks[..n], maxAttempts, keys - mine);
      AttemptsOfTask(tasks[n], maxAttempts);
      SplitSize(keys, mine);
      OneMoreRow(n, maxAttempts);
    }
  }

  lemma AllTimeOut(tasks: seq<TaskKey>, maxAttempts: nat, log: seq<AttemptEvent>)
    requires NoDuplicates(tasks) && Built(tasks, log) && AfterPasses(tasks, AlwaysTimedOut(), maxAttempts, log)
    ensures KindCount(log, Started) == |tasks| * maxAttempts
  {
    forall t, a ensures (t, a) in Keys(log) <==> t in tasks && 1 <= a <= maxAttempts {
      EachAttemptStarts(tasks, maxAttempts, log, t, a);
    }
    GridSize(tasks, maxAttempts, Keys(log));
    PlannedIsKeys(tasks, log);
    AttemptsAddUp(tasks, log);
    forall key | key in Keys(log) ensures Has(log, key, Started) {
      EachAttemptStarts(tasks, maxAttempts, log, key.0, key.1);
    }
    assert UnstartedKeys(log) == {};
  }

  lemma EachAttemptStarts(tasks: seq<TaskKey>, maxAttempts: nat, log: seq<AttemptEvent>, t: TaskKey, a: int)
    requires AfterPasses(tasks, AlwaysTimedOut(), maxAttempts, log)
    ensures (t, a) in Keys(log) <==> t in tasks && 1 <= a <= maxAttempts
    ensures (t, a) in Keys(log) ==> Has(log, (t, a), Started)
  {
    var e := StartedEvent(t, a);
    assert FromAttempt(e, AlwaysTimedOut());
    forall b ensures !Succeeds(t, b, AlwaysTimedOut()) {
      NeverSucceeds(t, b);
    }
    assert e in log <==> t in tasks && 1 <= a <= maxAttempts;
  }

  /** A campaign whose attempts all time out after their last request reaches the worst case. */
  lemma WorstCaseIsReached(tasks: seq<TaskKey>, attempts: nat, callAttempts: nat)
    returns (c: Campaign, requests: Requests)
    requires NoDuplicates(tasks) && attempts >= 1
    ensures Reachable(tasks, attempts, c) && WithinSteps(requests, callAttempts)
    ensures TotalRequests(c.log, requests) == WorstCaseRequests(|tasks|, attempts, callAttempts)
  {
    var most: nat := REFERENCE_MAX_STEPS * callAttempts;
    requests := (_, _) => most;
    c := SomeCampaign(tasks, attempts, AlwaysTimedOut(), attempts);
    ReachableInv(tasks, attempts, c);
    AllTimeOut(tasks, attempts, c.log);
    TotalIsReached(c.log, requests, most);
    WorstCaseIs(|tasks|, attempts, callAttempts);
  }

  /** No history of a campaign over the inventory makes more requests than the cap. */
  ghost predicate CapSuffices(l: Limits, tasks: seq<TaskKey>)
    requires l.attempts.Int? && l.callAttempts.Int? && l.modelCap.Int?
  {
    forall c, requests :: Reachable(tasks, l.attempts.i, c) && WithinSteps(requests, l.callAttempts.i)
                          ==> TotalRequests(c.log, requests) <= l.modelCap.i
  }

  /** A contract is accepted exactly when its other limits are in order and no history of a campaign over the
      inventory can make more requests than its cap. */
  lemma CapIsExact(l: Limits, tasks: seq<TaskKey>)
    requires NoDuplicates(tasks)
    ensures Validate(l, |tasks|) == None <==> LimitsInOrder(l, |tasks|) && CapSuffices(l, tasks)
  {
    AcceptedIff(l, |tasks|);
    if Validate(l, |tasks|) == None {
      forall c, requests | Reachable(tasks, l.attempts.i, c) && WithinSteps(requests, l.callAttempts.i)
        ensures TotalRequests(c.log, requests) <= l.modelCap.i
      {
        CapIsNeverExceeded(l, tasks, c, requests);
      }
    } else if LimitsInOrder(l, |tasks|) {
      var c, requests := WorstCaseIsReached(tasks, l.attempts.i, l.callAttempts.i);
    }
  }
}
