/**
 The attempt ledger: its events, the guard on appending one, and the questions that are answered by
 folding the log. `RunLedger` in RunLedgers is the object that computes these in loops.
 */
module Results {
  import opened Prelude

  datatype TaskKey = TaskKey(domain: string, id: string)

  datatype EventKind = Planned | Started | Terminal | OtherKind(name: string)

  datatype Verdict = Valid | Invalid | OtherVerdict(name: string)

  datatype Reason =
    | RunnerExit | TimedOut | MissingResult | MalformedResult | IdentityDrift | CleanupFailure | Interrupted
    | OtherReason(name: string)

  /** A float: the exact value of a finite one, or an infinity or NaN. */
  datatype Reward = Finite(value: real) | NonFinite

  datatype CleanupStatus = Success | Failed | NotObserved | Malformed

  datatype AttemptEvent = AttemptEvent(
    event: EventKind,
    task: TaskKey,
    attempt: int,
    outcome: Option<Verdict>,
    reason: Option<Reason>,
    reward: Option<Reward>,
    cleanup: Option<CleanupStatus>)

  // ----- the checks of the event constructor -----

  datatype EventError =
    | AttemptNotPositive
    | UnknownEvent
    | ValidNeedsFiniteReward
    | ValidNeedsCleanup
    | ValidHasReason
    | UnknownReason
    | InvalidHasReward
    | NoVerdict

  /** `__post_init__`: the error it raises, if any. */
  function PostInit(e: AttemptEvent): Option<EventError> {
    if e.attempt < 1 then Some(AttemptNotPositive)
    else if e.event.OtherKind? then Some(UnknownEvent)
    else if e.event != Terminal then None
    else if e.outcome == Some(Valid) then
      if e.reward == None || e.reward.value.NonFinite? then Some(ValidNeedsFiniteReward)
      else if e.cleanup != Some(Success) then Some(ValidNeedsCleanup)
      else if e.reason.Some? then Some(ValidHasReason)
      else None
    else if e.outcome == Some(Invalid) then
      if e.reason == None || e.reason.value.OtherReason? then Some(UnknownReason)
      else if e.reward.Some? then Some(InvalidHasReward)
      else None
    else Some(NoVerdict)
  }

  predicate Legal(e: AttemptEvent) {
    PostInit(e).None?
  }

  function PlannedEvent(task: TaskKey, attempt: int): AttemptEvent {
    AttemptEvent(Planned, task, attempt, None, None, None, None)
  }

  function StartedEvent(task: TaskKey, attempt: int): AttemptEvent {
    AttemptEvent(Started, task, attempt, None, None, None, None)
  }

  function ValidEvent(task: TaskKey, attempt: int, reward: Reward, cleanup: CleanupStatus): AttemptEvent {
    AttemptEvent(Terminal, task, attempt, Some(Valid), None, Some(reward), Some(cleanup))
  }

  function InvalidEvent(task: TaskKey, attempt: int, reason: Reason, cleanup: CleanupStatus): AttemptEvent {
    AttemptEvent(Terminal, task, attempt, Some(Invalid), Some(reason), None, Some(cleanup))
  }

  // ----- appending -----

  predicate Of(e: AttemptEvent, task: TaskKey, attempt: int) {
    e.task == task && e.attempt == attempt
  }

  /** The events of one attempt, in order. */
  function History(log: seq<AttemptEvent>, task: TaskKey, attempt: int): (h: seq<AttemptEvent>)
    ensures forall e :: e in h <==> e in log && Of(e, task, attempt)
  {
    if log == [] then []
    else
      var last := log[|log| - 1];
      History(log[..|log| - 1], task, attempt) + (if Of(last, task, attempt) then [last] else [])
  }

  predicate IsValid(e: AttemptEvent) {
    e.event == Terminal && e.outcome == Some(Valid)
  }

  function TerminalTasks(log: seq<AttemptEvent>): set<TaskKey> {
    set e | e in log && IsValid(e) :: e.task
  }

  datatype AppendError =
    | OutsideInventory
    | AlreadyPlanned
    | AlreadyValid
    | StartedMustFollowPlanned
    | AlreadyTerminal
    | TerminalMustFollowStarted

  predicate EndsWith(history: seq<AttemptEvent>, kind: EventKind) {
    history != [] && history[|history| - 1].event == kind
  }

  predicate AnyOf(history: seq<AttemptEvent>, kind: EventKind) {
    exists e :: e in history && e.event == kind
  }

  /** The guard of `append`: the error it raises, if any. */
  function Refusal(tasks: seq<TaskKey>, log: seq<AttemptEvent>, e: AttemptEvent): Option<AppendError> {
    var history := History(log, e.task, e.attempt);
    if e.task !in tasks then Some(OutsideInventory)
    else if e.event == Planned then
      if history != [] then Some(AlreadyPlanned)
      else if e.task in TerminalTasks(log) then Some(AlreadyValid)
      else None
    else if e.event == Started then
      if EndsWith(history, Planned) then None else Some(StartedMustFollowPlanned)
    else if EndsWith(history, Started) then None
    else if AnyOf(history, Terminal) then Some(AlreadyTerminal)
    else Some(TerminalMustFollowStarted)
  }

  predicate Accepted(tasks: seq<TaskKey>, log: seq<AttemptEvent>, e: AttemptEvent) {
    Refusal(tasks, log, e).None?
  }

  /** A log that accepted appends of legal events have built. */
  predicate Built(tasks: seq<TaskKey>, log: seq<AttemptEvent>) {
    log == [] ||
    var n := |log| - 1;
    Built(tasks, log[..n]) && Legal(log[n]) && Accepted(tasks, log[..n], log[n])
  }

  // ----- folding the log -----

  /** The latest valid reward of each task. */
  function ValidResults(log: seq<AttemptEvent>): (m: map<TaskKey, Reward>)
    ensures m.Keys == TerminalTasks(log)
  {
    if log == [] then map[]
    else
      var n := |log| - 1;
      var m := ValidResults(log[..n]);
      assert log == log[..n] + [log[n]];
      if IsValid(log[n]) then m[log[n].task := RewardOf(log[n])] else m
  }

  function RewardOf(e: AttemptEvent): Reward {
    if e.reward.Some? then e.reward.value else NonFinite
  }

  /** The highest attempt of a task, 0 when it has no event. */
  function LatestAttempt(log: seq<AttemptEvent>, task: TaskKey): (latest: int)
  {
    if log == [] then 0
    else
      var n := |log| - 1;
      var before := LatestAttempt(log[..n], task);
      if log[n].task == task && (before < log[n].attempt || !HasEvent(log[..n], task)) then log[n].attempt
      else before
  }

  predicate HasEvent(log: seq<AttemptEvent>, task: TaskKey) {
    exists e :: e in log && e.task == task
  }

  /** The attempt of a task that a resumed campaign would run next. */
  function NextAttempt(log: seq<AttemptEvent>, task: TaskKey, maxAttempts: int): Option<int> {
    if task in TerminalTasks(log) then None
    else if !HasEvent(log, task) then Some(1)
    else
      var latest := LatestAttempt(log, task);
      if EndsWith(History(log, task, latest), Planned) then Some(latest)
      else if latest < maxAttempts then Some(latest + 1)
      else None
  }

  function Candidates(tasks: seq<TaskKey>, log: seq<AttemptEvent>, maxAttempts: int): seq<(TaskKey, int)> {
    if tasks == [] then []
    else
      var n := |tasks| - 1;
      var attempt := NextAttempt(log, tasks[n], maxAttempts);
      Candidates(tasks[..n], log, maxAttempts) + (if attempt.Some? then [(tasks[n], attempt.value)] else [])
  }

  // ----- the aggregate -----

  function KindCount(log: seq<AttemptEvent>, kind: EventKind): nat {
    Count(log, (e: AttemptEvent) => e.event == kind)
  }

  function ValidCount(log: seq<AttemptEvent>): nat {
    Count(log, (e: AttemptEvent) => IsValid(e))
  }

  predicate IsInvalid(e: AttemptEvent, reason: Reason) {
    e.event == Terminal && e.outcome != Some(Valid) && e.reason == Some(reason)
  }

  function InvalidCount(log: seq<AttemptEvent>, reason: Reason): nat {
    Count(log, (e: AttemptEvent) => IsInvalid(e, reason))
  }

  const INVALID_REASONS: set<Reason> :=
    {RunnerExit, TimedOut, MissingResult, MalformedResult, IdentityDrift, CleanupFailure, Interrupted}

  function InvalidByReason(log: seq<AttemptEvent>): map<Reason, nat> {
    map r | r in INVALID_REASONS && InvalidCount(log, r) > 0 :: InvalidCount(log, r)
  }

  function Keys(log: seq<AttemptEvent>): set<(TaskKey, int)> {
    set e | e in log :: (e.task, e.attempt)
  }

  predicate Has(log: seq<AttemptEvent>, key: (TaskKey, int), kind: EventKind) {
    exists e :: e in log && Of(e, key.0, key.1) && e.event == kind
  }

  /** The attempts that started and never ended. */
  function MissingKeys(log: seq<AttemptEvent>): set<(TaskKey, int)> {
    set key | key in Keys(log) && Has(log, key, Started) && !Has(log, key, Terminal)
  }

  /** The attempts that were planned and never started. */
  function UnstartedKeys(log: seq<AttemptEvent>): set<(TaskKey, int)> {
    set key | key in Keys(log) && !Has(log, key, Started)
  }

  function Value(r: Reward): real {
    if r.Finite? then r.value else 0.0
  }

  /** The sum of the rewards in `results`, taken in the order of the inventory. */
  function RewardSum(tasks: seq<TaskKey>, results: map<TaskKey, Reward>): real {
    if tasks == [] then 0.0
    else
      var n := |tasks| - 1;
      RewardSum(tasks[..n], results) + (if tasks[n] in results then Value(results[tasks[n]]) else 0.0)
  }

  datatype Aggregate = Aggregate(
    plannedTasks: int,
    plannedAttempts: int,
    startedAttempts: int,
    terminalAttempts: int,
    missingAttempts: int,
    validTasks: int,
    remainingTasks: int,
    invalidByReason: map<Reason, nat>,
    rewardSum: real,
    score: Option<real>)

  /** The mean reward of the tasks that have one. */
  function Score(total: real, n: nat): (score: Option<real>)
    ensures score == None <==> n == 0
    ensures score.Some? ==> score.value * n as real == total
  {
    if n == 0 then None else Some(total / n as real)
  }

  function AggregateOf(tasks: seq<TaskKey>, log: seq<AttemptEvent>): Aggregate {
    var results := ValidResults(log);
    var total := RewardSum(tasks, results);
    Aggregate(
      |tasks|, KindCount(log, Planned), KindCount(log, Started), KindCount(log, Terminal),
      |MissingKeys(log)|, |results|, |tasks| - |results|, InvalidByReason(log), total,
      Score(total, |results|))
  }
}
