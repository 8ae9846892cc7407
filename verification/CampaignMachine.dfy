/**
 A campaign over its whole life: passes of `execute_campaign` that schedule one coroutine per resume
 candidate under a semaphore, and coordinators that may crash after any step. The log survives a
 crash, the pass does not. One coordinator runs at a time.
 */
module CampaignMachine {
  import opened Prelude
  import opened Results
  import opened Evidence

  /** Where the coroutine of one candidate is: before the semaphore, between PLANNED and STARTED,
      waiting for its child, ended, or ended with an exception. */
  datatype Place = Waiting | Spawning | Running | Ended | Broken

  datatype Pass = Pass(
    candidates: seq<(TaskKey, int)>,
    places: seq<Place>,
    numEnvs: int,
    permits: int,
    active: int,
    previousMax: int,
    maxObserved: int)

  datatype Campaign = Campaign(log: seq<AttemptEvent>, pass: Option<Pass>)

  datatype Move =
    | Begin(numEnvs: int, previousMax: int)
    | Plan(i: int)
    | Start(i: int)
    | SpawnFails(i: int)
    | Finish(i: int, observation: Observation)
    | Complete
    | Crash

  function FreshPass(candidates: seq<(TaskKey, int)>, numEnvs: int, previousMax: int): Pass {
    Pass(candidates, seq(|candidates|, _ => Waiting), numEnvs, numEnvs, 0, previousMax, previousMax)
  }

  predicate AllEnded(places: seq<Place>) {
    forall i :: 0 <= i < |places| ==> places[i] == Ended
  }

  predicate InPass(p: Pass, i: int) {
    0 <= i < |p.candidates| && |p.places| == |p.candidates|
  }

  function Max(a: int, b: int): int {
    if a < b then b else a
  }

  /** Inside the semaphore: record PLANNED and go on to create the child. */
  function PlanStep(tasks: seq<TaskKey>, c: Campaign, p: Pass, i: int): Option<Campaign>
    requires InPass(p, i)
  {
    var event := PlannedEvent(p.candidates[i].0, p.candidates[i].1);
    if p.places[i] != Waiting || p.permits <= 0 then None
    else if Accepted(tasks, c.log, event) then
      Some(Campaign(c.log + [event], Some(p.(places := p.places[i := Spawning], permits := p.permits - 1))))
    else Some(c.(pass := Some(p.(places := p.places[i := Broken]))))
  }

  function StartStep(tasks: seq<TaskKey>, c: Campaign, p: Pass, i: int): Option<Campaign>
    requires InPass(p, i)
  {
    var event := StartedEvent(p.candidates[i].0, p.candidates[i].1);
    if p.places[i] != Spawning then None
    else if Accepted(tasks, c.log, event) then
      Some(Campaign(c.log + [event], Some(p.(places := p.places[i := Running], active := p.active + 1,
                                             maxObserved := Max(p.maxObserved, p.active + 1)))))
    else Some(c.(pass := Some(p.(places := p.places[i := Broken], permits := p.permits + 1))))
  }

  /** The child is gone: one fewer is active, the terminal event is recorded, the permit returned. An
      interrupted coroutine raises after its event. */
  function FinishStep(tasks: seq<TaskKey>, c: Campaign, p: Pass, i: int, o: Observation): Option<Campaign>
    requires InPass(p, i)
  {
    var event := Classify(p.candidates[i].0, p.candidates[i].1, o);
    var place := if o.interrupted || !Accepted(tasks, c.log, event) then Broken else Ended;
    var p' := p.(places := p.places[i := place], active := p.active - 1, permits := p.permits + 1);
    if p.places[i] != Running then None
    else Some(Campaign(if Accepted(tasks, c.log, event) then c.log + [event] else c.log, Some(p')))
  }

  function Next(tasks: seq<TaskKey>, maxAttempts: int, c: Campaign, m: Move): Option<Campaign> {
    match c.pass
    case None =>
      if m.Begin? && m.numEnvs >= 1 && maxAttempts >= 1 then
        Some(c.(pass := Some(FreshPass(Candidates(tasks, c.log, maxAttempts), m.numEnvs, m.previousMax))))
      else None
    case Some(p) =>
      match m
      case Begin(_, _) => None
      case Plan(i) => if InPass(p, i) then PlanStep(tasks, c, p, i) else None
      case Start(i) => if InPass(p, i) then StartStep(tasks, c, p, i) else None
      case SpawnFails(i) =>
        if InPass(p, i) && p.places[i] == Spawning
        then Some(c.(pass := Some(p.(places := p.places[i := Broken], permits := p.permits + 1)))) else None
      case Finish(i, o) => if InPass(p, i) then FinishStep(tasks, c, p, i, o) else None
      case Complete => if AllEnded(p.places) then Some(c.(pass := None)) else None
      case Crash => Some(c.(pass := None))
  }

  function Run(tasks: seq<TaskKey>, maxAttempts: int, c: Campaign, moves: seq<Move>): Option<Campaign>
    decreases |moves|
  {
    if moves == [] then Some(c)
    else
      match Next(tasks, maxAttempts, c, moves[0])
      case None => None
      case Some(c') => Run(tasks, maxAttempts, c', moves[1..])
  }
}
