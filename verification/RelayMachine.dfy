/**
 The relay's `GuestManager` as a transition system. Any number of `replace`, `revert`,
 `save_snapshot` and `stop` coroutines run at once; a step of the machine runs one of them from
 one suspension point to the next. Both locks are explicit, and the outcome of every remote call
 (create, readiness, kill, snapshot) is chosen by the step.

 `created`, `killed`, `published` and the per-operation counters are history: no step reads them
 to decide anything, except that a new sandbox gets an id that was never used.
 */
module RelayMachine {
  import opened Prelude

  // Only equality of sandbox ids matters.
  type SandboxId = int
  type OpId = int

  datatype Seed = Template | Snapshot(snapshotId: string)

  datatype Guest = Guest(id: SandboxId, generation: nat, seed: Seed)

  /** The records of the relay's event log, in the order the code writes them. */
  datatype RelayEvent =
    | CreateStarted(generation: nat, seed: Seed)
    | Created(id: SandboxId, generation: nat, seed: Seed)
    | Ready(id: SandboxId, generation: nat, seed: Seed)
    | Cleaned(id: SandboxId)
    | CleanupFailed(id: SandboxId)
    | SnapshotSaved(id: SandboxId, name: string, snapshotId: string)

  /** An empty name stands for a revert without a snapshot name. */
  datatype Call = Replace | Revert(name: string) | SaveSnapshot(name: string) | Stop

  /** What a coroutine does once `_cleanup_or_track` returns. */
  datatype After =
    | RaiseError
    | ReturnGuest(guest: Guest)
    | Drain(rest: seq<SandboxId>)

  datatype Outcome = Raised | Returned(guest: Guest) | Saved(snapshotId: string) | Stopped

  /** Where a coroutine is suspended. A `Want...` point waits for a lock; an `-ing` point inside
      `_lock` is followed by the body of that critical section. */
  datatype Pc =
    | WantReplaceLock
    | WantGeneration
    | ReadingGeneration
    | Creating(generation: nat)
    | WaitingReady(candidate: Guest)
    | WantPublish(candidate: Guest)
    | Publishing(candidate: Guest)
    | Killing(id: SandboxId, attempt: int, after: After)
    | WantRecord(id: SandboxId, dead: bool, after: After)
    | Recording(id: SandboxId, dead: bool, after: After)
    | WantStopFlag
    | SettingStopFlag
    | WantStopReplaceLock
    | WantSweep
    | Sweeping
    | WantCurrent
    | ReadingCurrent
    | Snapshotting(guest: Guest)
    | Finished(outcome: Outcome)

  /** `source` is the snapshot id a replacement was asked to start from. `quota` counts the
      sandboxes the operation may set out to clean up, `killCalls` its calls of `kill`. */
  datatype Op = Op(call: Call, source: Option<string>, pc: Pc, killCalls: nat, quota: nat)

  datatype Birth = Birth(op: OpId, seed: Seed)

  datatype Publication = Publication(op: OpId, guest: Guest)

  datatype State = State(
    guest: Option<Guest>,
    stopped: bool,
    pending: seq<SandboxId>,
    snapshots: map<string, string>,
    lock: Option<OpId>,
    replaceLock: Option<OpId>,
    log: seq<RelayEvent>,
    ops: map<OpId, Op>,
    created: map<SandboxId, Birth>,
    killed: set<SandboxId>,
    published: seq<Publication>)

  const INITIAL := State(None, false, [], map[], None, None, [], map[], map[], {}, [])

  datatype Step =
    | Spawn(op: OpId, call: Call)
    | Acquire(op: OpId)
    | RunSection(op: OpId)
    | CreateFails(op: OpId)
    | CreateReturns(op: OpId, id: SandboxId, hasToken: bool)
    | BecomesReady(op: OpId)
    | NeverReady(op: OpId)
    | KillReturns(op: OpId)
    | KillRaises(op: OpId)
    | SnapshotReturns(op: OpId, snapshotId: string)
    | SnapshotRaises(op: OpId)

  // ----- the dictionary `_pending_cleanup`, in insertion order -----

  function Put(pending: seq<SandboxId>, id: SandboxId): seq<SandboxId> {
    if id in pending then pending else pending + [id]
  }

  function Pop(pending: seq<SandboxId>, id: SandboxId): seq<SandboxId> {
    if pending == [] then []
    else if pending[0] == id then pending[1..]
    else [pending[0]] + Pop(pending[1..], id)
  }

  // ----- pieces of the steps -----

  /** `source or template`: an empty snapshot id counts as no source. */
  function SeedOf(source: Option<string>): Seed {
    if source.Some? && source.value != "" then Snapshot(source.value) else Template
  }

  /** The lookup in `revert`, which runs before the coroutine first waits. */
  function SourceFor(snapshots: map<string, string>, call: Call): Option<string> {
    if call.Revert? && call.name != "" && call.name in snapshots
    then Some(snapshots[call.name]) else None
  }

  function FirstPc(call: Call): Pc {
    match call
    case Stop => WantStopFlag
    case SaveSnapshot(_) => WantCurrent
    case _ => WantReplaceLock
  }

  function Goto(s: State, op: OpId, pc: Pc): State
    requires op in s.ops
  {
    s.(ops := s.ops[op := s.ops[op].(pc := pc)])
  }

  /** Leaving `async with self._replace_lock`. */
  function Leave(s: State, op: OpId, outcome: Outcome): State
    requires op in s.ops
  {
    Goto(s.(replaceLock := None), op, Finished(outcome))
  }

  /** Entering `_kill_sandbox`: without a single attempt it gives up at once. */
  function StartCleanup(attempts: int, s: State, op: OpId, id: SandboxId, after: After): State
    requires op in s.ops
  {
    Goto(s.(log := s.log + GivesUp(attempts, id)), op, CleanupPc(attempts, id, after))
  }

  function CleanupPc(attempts: int, id: SandboxId, after: After): Pc {
    if 1 <= attempts then Killing(id, 1, after) else WantRecord(id, false, after)
  }

  function GivesUp(attempts: int, id: SandboxId): seq<RelayEvent> {
    if 1 <= attempts then [] else [CleanupFailed(id)]
  }

  function Resume(attempts: int, s: State, op: OpId, after: After): State
    requires op in s.ops
  {
    match after
    case RaiseError => Leave(s, op, Raised)
    case ReturnGuest(guest) => Leave(s, op, Returned(guest))
    case Drain(rest) =>
      if rest == [] then Leave(s, op, Stopped)
      else StartCleanup(attempts, s, op, rest[0], Drain(rest[1..]))
  }

  function Afterwards(pc: Pc): Option<Pc> {
    match pc
    case WantReplaceLock => Some(WantGeneration)
    case WantStopReplaceLock => Some(WantSweep)
    case WantGeneration => Some(ReadingGeneration)
    case WantPublish(candidate) => Some(Publishing(candidate))
    case WantRecord(id, dead, after) => Some(Recording(id, dead, after))
    case WantStopFlag => Some(SettingStopFlag)
    case WantSweep => Some(Sweeping)
    case WantCurrent => Some(ReadingCurrent)
    case _ => None
  }

  predicate WantsReplaceLock(pc: Pc) {
    pc.WantReplaceLock? || pc.WantStopReplaceLock?
  }

  predicate WantsLock(pc: Pc) {
    Afterwards(pc).Some? && !WantsReplaceLock(pc)
  }

  function AcquireStep(s: State, op: OpId): Option<State>
    requires op in s.ops
  {
    var pc := s.ops[op].pc;
    if WantsReplaceLock(pc) && s.replaceLock == None then
      Some(Goto(s.(replaceLock := Some(op)), op, Afterwards(pc).value))
    else if WantsLock(pc) && s.lock == None then
      Some(Goto(s.(lock := Some(op)), op, Afterwards(pc).value))
    else None
  }

  function ReadGenerationSection(s: State, op: OpId): State
    requires op in s.ops
  {
    if s.stopped then Leave(s, op, Raised)
    else
      var generation := if s.guest.Some? then s.guest.value.generation + 1 else 1;
      var event := CreateStarted(generation, SeedOf(s.ops[op].source));
      Goto(s.(log := s.log + [event]), op, Creating(generation))
  }

  function PublishSection(attempts: int, s: State, op: OpId, candidate: Guest): State
    requires op in s.ops
  {
    if s.stopped then StartCleanup(attempts, s, op, candidate.id, RaiseError)
    else
      var s' := s.(guest := Some(candidate),
                   published := s.published + [Publication(op, candidate)]);
      if s.guest.Some? then StartCleanup(attempts, s', op, s.guest.value.id, ReturnGuest(candidate))
      else Leave(s', op, Returned(candidate))
  }

  function RecordSection(attempts: int, s: State, op: OpId, id: SandboxId, dead: bool, after: After): State
    requires op in s.ops
  {
    Resume(attempts, s.(pending := if dead then Pop(s.pending, id) else Put(s.pending, id)), op, after)
  }

  function Swept(s: State): seq<SandboxId> {
    s.pending + (if s.guest.Some? then [s.guest.value.id] else [])
  }

  function SweepSection(attempts: int, s: State, op: OpId): State
    requires op in s.ops
  {
    var all := Swept(s);
    var s' := s.(guest := None, pending := [], ops := s.ops[op := s.ops[op].(quota := |all|)]);
    Resume(attempts, s', op, Drain(all))
  }

  function SectionStep(attempts: int, s: State, op: OpId): Option<State>
    requires op in s.ops
  {
    var free := s.(lock := None);
    match s.ops[op].pc
    case ReadingGeneration => Some(ReadGenerationSection(free, op))
    case Publishing(candidate) => Some(PublishSection(attempts, free, op, candidate))
    case Recording(id, dead, after) => Some(RecordSection(attempts, free, op, id, dead, after))
    case SettingStopFlag => Some(Goto(free.(stopped := true), op, WantStopReplaceLock))
    case Sweeping => Some(SweepSection(attempts, free, op))
    case ReadingCurrent =>
      Some(Goto(free, op, if s.guest.Some? then Snapshotting(s.guest.value) else Finished(Raised)))
    case _ => None
  }

  function CreateStep(attempts: int, s: State, op: OpId, id: SandboxId, hasToken: bool): Option<State>
    requires op in s.ops
  {
    var o := s.ops[op];
    if !o.pc.Creating? || id in s.created then None
    else
      var seed := SeedOf(o.source);
      var s' := s.(created := s.created[id := Birth(op, seed)]);
      if hasToken then
        var event := Created(id, o.pc.generation, seed);
        Some(Goto(s'.(log := s.log + [event]), op, WaitingReady(Guest(id, o.pc.generation, seed))))
      else Some(StartCleanup(attempts, s', op, id, RaiseError))
  }

  function ReadyStep(s: State, op: OpId): Option<State>
    requires op in s.ops
  {
    match s.ops[op].pc
    case WaitingReady(g) =>
      Some(Goto(s.(log := s.log + [Ready(g.id, g.generation, g.seed)]), op, WantPublish(g)))
    case _ => None
  }

  function CountKill(s: State, op: OpId): State
    requires op in s.ops
  {
    s.(ops := s.ops[op := s.ops[op].(killCalls := s.ops[op].killCalls + 1)])
  }

  function KillReturnsStep(s: State, op: OpId): Option<State>
    requires op in s.ops
  {
    match s.ops[op].pc
    case Killing(id, _, after) =>
      var s' := CountKill(s, op).(log := s.log + [Cleaned(id)], killed := s.killed + {id});
      Some(Goto(s', op, WantRecord(id, true, after)))
    case _ => None
  }

  function KillRaisesStep(attempts: int, s: State, op: OpId): Option<State>
    requires op in s.ops
  {
    match s.ops[op].pc
    case Killing(id, attempt, after) =>
      var s' := CountKill(s, op);
      if attempt < attempts then Some(Goto(s', op, Killing(id, attempt + 1, after)))
      else Some(Goto(s'.(log := s.log + [CleanupFailed(id)]), op, WantRecord(id, false, after)))
    case _ => None
  }

  function SnapshotStep(s: State, op: OpId, snapshotId: string): Option<State>
    requires op in s.ops
  {
    var o := s.ops[op];
    if !o.pc.Snapshotting? || !o.call.SaveSnapshot? then None
    else
      var event := SnapshotSaved(o.pc.guest.id, o.call.name, snapshotId);
      Some(Goto(s.(snapshots := s.snapshots[o.call.name := snapshotId], log := s.log + [event]),
                op, Finished(Saved(snapshotId))))
  }

  /** The state after `step`, if that step can be taken. */
  function Next(attempts: int, s: State, step: Step): Option<State> {
    var op := step.op;
    if step.Spawn? then
      if op in s.ops then None
      else
        var o := Op(step.call, SourceFor(s.snapshots, step.call), FirstPc(step.call), 0,
                    if step.call.Stop? then 0 else 1);
        Some(s.(ops := s.ops[op := o]))
    else if op !in s.ops then None
    else
      match step
      case Acquire(_) => AcquireStep(s, op)
      case RunSection(_) => SectionStep(attempts, s, op)
      case CreateFails(_) => if s.ops[op].pc.Creating? then Some(Leave(s, op, Raised)) else None
      case CreateReturns(_, id, hasToken) => CreateStep(attempts, s, op, id, hasToken)
      case BecomesReady(_) => ReadyStep(s, op)
      case NeverReady(_) =>
        if s.ops[op].pc.WaitingReady?
        then Some(StartCleanup(attempts, s, op, s.ops[op].pc.candidate.id, RaiseError)) else None
      case KillReturns(_) => KillReturnsStep(s, op)
      case KillRaises(_) => KillRaisesStep(attempts, s, op)
      case SnapshotReturns(_, snapshotId) => SnapshotStep(s, op, snapshotId)
      case SnapshotRaises(_) =>
        if s.ops[op].pc.Snapshotting? then Some(Goto(s, op, Finished(Raised))) else None
  }

  /** A whole run: the state after all of `steps`, if each can be taken in turn. */
  function Run(attempts: int, s: State, steps: seq<Step>): Option<State>
    decreases |steps|
  {
    if steps == [] then Some(s)
    else
      match Next(attempts, s, steps[0])
      case None => None
      case Some(s') => Run(attempts, s', steps[1..])
  }
}
