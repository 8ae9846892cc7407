/** What every step of the relay machine keeps, beyond its locks and its sandboxes. */
module RelayInvariants {
  import opened Prelude
  import opened RelayMachine
  import opened RelayConservation

  // ----- what the event log and the operations record -----

  function CreatedIds(log: seq<RelayEvent>): set<SandboxId> {
    set e | e in log && e.Created? :: e.id
  }

  function CleanedIds(log: seq<RelayEvent>): set<SandboxId> {
    set e | e in log && e.Cleaned? :: e.id
  }

  function FailedIds(log: seq<RelayEvent>): set<SandboxId> {
    set e | e in log && e.CleanupFailed? :: e.id
  }

  ghost predicate SavedUnder(log: seq<RelayEvent>, name: string, snapshotId: string) {
    exists id :: SnapshotSaved(id, name, snapshotId) in log
  }

  predicate Known(s: State, id: SandboxId) {
    id in CreatedIds(s.log) || id in s.killed || id in FailedIds(s.log)
  }

  /** The operation kills the sandbox and then raises. */
  predicate BeingDropped(pc: Pc, id: SandboxId) {
    pc.Killing? && pc.id == id && pc.after.RaiseError?
  }

  /** A sandbox without a CREATED record was killed, or its cleanup failed, or it came without a
      traffic token and its creator is killing it now. */
  predicate Accounted(s: State, id: SandboxId) {
    || Known(s, id)
    || (s.replaceLock.Some? && s.replaceLock.value in s.ops
        && BeingDropped(s.ops[s.replaceLock.value].pc, id))
  }

  ghost predicate LogBase(s: State) {
    && CleanedIds(s.log) == s.killed
    && CreatedIds(s.log) <= s.created.Keys
    && (s.guest.Some? ==> s.guest.value.id in CreatedIds(s.log))
    && (forall id :: id in s.pending ==> id in FailedIds(s.log))
  }

  ghost predicate AllAccounted(s: State) {
    forall id :: id in s.created ==> Accounted(s, id)
  }

  /** The k-th published guest has generation k, and the current guest is the last published. */
  ghost predicate Generations(s: State) {
    && (forall k :: 0 <= k < |s.published| ==> s.published[k].guest.generation == k + 1)
    && (s.guest.Some? ==> s.published != [] && s.published[|s.published| - 1].guest == s.guest.value)
    && (s.guest == None && !s.stopped ==> s.published == [])
    && (forall p :: p in s.published ==>
          p.op in s.ops && p.guest.id in s.created && s.created[p.guest.id] == Birth(p.op, p.guest.seed))
  }

  ghost predicate Sources(s: State) {
    && (forall name :: name in s.snapshots ==> SavedUnder(s.log, name, s.snapshots[name]))
    && (forall e :: e in s.log && e.SnapshotSaved? ==> e.name in s.snapshots)
    && (forall id :: id in s.created ==>
          s.created[id].op in s.ops && s.created[id].seed == SeedOf(s.ops[s.created[id].op].source))
  }

  // ----- what holds of each operation -----

  function Candidate(pc: Pc): Option<Guest> {
    match pc
    case WaitingReady(candidate) => Some(candidate)
    case WantPublish(candidate) => Some(candidate)
    case Publishing(candidate) => Some(candidate)
    case _ => None
  }

  function Cleanup(pc: Pc): Option<After> {
    match pc
    case Killing(_, _, after) => Some(after)
    case WantRecord(_, _, after) => Some(after)
    case Recording(_, _, after) => Some(after)
    case _ => None
  }

  /** The guest this operation has published. */
  function Published(pc: Pc): Option<Guest> {
    if pc.Finished? && pc.outcome.Returned? then Some(pc.outcome.guest)
    else if Cleanup(pc).Some? && Cleanup(pc).value.ReturnGuest? then Some(Cleanup(pc).value.guest)
    else None
  }

  /** The points of `stop` after its replace-lock section emptied the manager. */
  predicate AfterSweep(pc: Pc) {
    pc == Finished(Stopped) || (Cleanup(pc).Some? && Cleanup(pc).value.Drain?)
  }

  predicate AfterFlag(pc: Pc) {
    AfterSweep(pc) || pc.WantStopReplaceLock? || pc.WantSweep? || pc.Sweeping?
  }

  ghost predicate CandidateOk(s: State, o: OpId)
    requires o in s.ops
  {
    var op := s.ops[o];
    && (op.pc.Creating? ==> op.pc.generation == |s.published| + 1)
    && (Candidate(op.pc).Some? ==>
          var c := Candidate(op.pc).value;
          && c.generation == |s.published| + 1 && c.seed == SeedOf(op.source)
          && c.id in s.created && s.created[c.id] == Birth(o, c.seed) && c.id in CreatedIds(s.log)
          && (op.pc.WaitingReady? || Ready(c.id, c.generation, c.seed) in s.log))
  }

  predicate FlagsOk(s: State, pc: Pc) {
    (AfterFlag(pc) ==> s.stopped) && (AfterSweep(pc) ==> s.guest == None)
  }

  function Allowance(attempts: int): nat {
    if attempts < 0 then 0 else attempts
  }

  /** The most kill calls an operation at `pc` can still make before it takes on new sandboxes. */
  function Remaining(attempts: int, pc: Pc): int {
    match pc
    case Killing(_, attempt, after) => attempts - attempt + 1 + Allowance(attempts) * |Rest(after)|
    case WantRecord(_, _, after) => Allowance(attempts) * |Rest(after)|
    case Recording(_, _, after) => Allowance(attempts) * |Rest(after)|
    case _ =>
      if pc.WantReplaceLock? || pc.WantGeneration? || pc.ReadingGeneration? || pc.Creating?
         || Candidate(pc).Some?
      then Allowance(attempts) else 0
  }

  predicate BeforeSweep(pc: Pc) {
    pc.WantStopFlag? || pc.SettingStopFlag? || pc.WantStopReplaceLock? || pc.WantSweep? || pc.Sweeping?
  }

  predicate QuotaOk(attempts: int, op: Op) {
    && (BeforeSweep(op.pc) ==> op.call.Stop? && op.killCalls == 0)
    && (!op.call.Stop? ==> op.quota == 1)
    && (op.pc.Killing? ==> 1 <= op.pc.attempt <= attempts)
    && op.killCalls + Remaining(attempts, op.pc) <= Allowance(attempts) * op.quota
  }

  ghost predicate SourceOk(s: State, op: Op) {
    op.source.Some? ==>
      op.call.Revert? && op.call.name != "" && SavedUnder(s.log, op.call.name, op.source.value)
  }

  ghost predicate PublishOk(s: State, o: OpId, pc: Pc) {
    && (Published(pc).Some? ==> Publication(o, Published(pc).value) in s.published)
    && (forall p :: p in s.published && p.op == o ==> Published(pc) == Some(p.guest))
  }

  /** A sandbox about to be recorded as alive has a cleanup failure in the log. */
  predicate Noted(s: State, pc: Pc) {
    (pc.WantRecord? && !pc.dead) || (pc.Recording? && !pc.dead) ==> pc.id in FailedIds(s.log)
  }

  ghost predicate OpOk(attempts: int, s: State, o: OpId)
    requires o in s.ops
  {
    var op := s.ops[o];
    && CandidateOk(s, o) && FlagsOk(s, op.pc) && QuotaOk(attempts, op) && SourceOk(s, op)
    && PublishOk(s, o, op.pc) && Settled(s, op.pc) && Noted(s, op.pc)
  }

  ghost predicate Inv(attempts: int, s: State) {
    && Locks(s) && Conserved(s) && LogBase(s) && AllAccounted(s) && Generations(s) && Sources(s)
    && (forall o :: o in s.ops ==> OpOk(attempts, s, o))
  }

  // ----- what no step takes back -----

  ghost predicate Grows(s: State, op: OpId, s': State) {
    && s.log <= s'.log && s.published <= s'.published && s.killed <= s'.killed
    && (s.stopped ==> s'.stopped) && (s.stopped && s.guest == None ==> s'.guest == None)
    && (s.published != s'.published ==> s.replaceLock == Some(op) && |s'.published| == |s.published| + 1
                                        && s'.published[|s.published|].op == op)
    && (forall id :: id in s.created ==> id in s'.created && s'.created[id] == s.created[id])
  }

  lemma ResumeGrows(attempts: int, s: State, op: OpId, after: After)
    requires op in s.ops
    ensures Grows(s, op, Resume(attempts, s, op, after))
  {
  }

  lemma PublishGrows(attempts: int, s: State, op: OpId, candidate: Guest)
    requires op in s.ops && s.replaceLock == Some(op)
    ensures Grows(s, op, PublishSection(attempts, s, op, candidate))
  {
  }

  lemma SectionGrows(attempts: int, s: State, op: OpId, s': State)
    requires op in s.ops && SectionStep(attempts, s, op) == Some(s')
    requires s.ops[op].pc.Publishing? ==> s.replaceLock == Some(op)
    ensures Grows(s, op, s')
  {
    var free := s.(lock := None);
    match s.ops[op].pc
    case Publishing(candidate) => PublishGrows(attempts, free, op, candidate);
    case Recording(id, dead, after) =>
      ResumeGrows(attempts, free.(pending := if dead then Pop(s.pending, id) else Put(s.pending, id)), op, after);
    case Sweeping =>
      var all := Swept(s);
      var s1 := free.(guest := None, pending := [], ops := s.ops[op := s.ops[op].(quota := |all|)]);
      ResumeGrows(attempts, s1, op, Drain(all));
    case _ =>
  }

  lemma OutcomeGrows(attempts: int, s: State, step: Step, s': State)
    requires Next(attempts, s, step) == Some(s') && (EndsWait(step) || step.Acquire? || step.Spawn?)
    ensures Grows(s, step.op, s')
  {
  }

  lemma StepGrows(attempts: int, s: State, step: Step, s': State)
    requires Locks(s) && Next(attempts, s, step) == Some(s')
    ensures Grows(s, step.op, s')
  {
    if step.RunSection? {
      assert InReplaceLock(s.ops[step.op].pc) <==> s.replaceLock == Some(step.op);
      SectionGrows(attempts, s, step.op, s');
    } else if EndsWait(step) || step.Acquire? || step.Spawn? {
      OutcomeGrows(attempts, s, step, s');
    }
  }

  lemma LogGrows(log: seq<RelayEvent>, log': seq<RelayEvent>)
    requires log <= log'
    ensures CreatedIds(log) <= CreatedIds(log') && FailedIds(log) <= FailedIds(log')
    ensures forall name, v :: SavedUnder(log, name, v) ==> SavedUnder(log', name, v)
  {
    assert forall x :: x in log ==> x in log';
  }

  /** An operation that does not move stays in order. */
  lemma OthersStayOk(attempts: int, s: State, op: OpId, s': State, o: OpId)
    requires Locks(s) && MovesOne(s, op, s') && Grows(s, op, s') && o in s.ops && o != op
    requires OpOk(attempts, s, o)
    ensures OpOk(attempts, s', o)
  {
    assert InReplaceLock(s.ops[o].pc) <==> s.replaceLock == Some(o);
    LogGrows(s.log, s'.log);
    forall p | p in s'.published && p.op == o ensures p in s.published {
    }
  }

  // ----- the operation that moves -----

  lemma NotedAfterGivingUp(attempts: int, s: State, id: SandboxId, after: After)
    ensures Noted(s.(log := s.log + GivesUp(attempts, id)), CleanupPc(attempts, id, after))
  {
    if attempts < 1 {
      assert CleanupFailed(id) in s.log + GivesUp(attempts, id);
    }
  }

  /** What an operation must bring along when it enters a cleanup or leaves one. */
  ghost predicate Carries(s: State, op: OpId, after: After)
    requires op in s.ops
  {
    && SourceOk(s, s.ops[op])
    && (after.Drain? ==> s.stopped && s.guest == None)
    && (after.ReturnGuest? ==> Publication(op, after.guest) in s.published)
    && (forall p :: p in s.published && p.op == op ==> after == ReturnGuest(p.guest))
  }

  lemma StartCleanupOk(attempts: int, s: State, op: OpId, id: SandboxId, after: After)
    requires op in s.ops && Carries(s, op, after) && (!s.ops[op].call.Stop? ==> s.ops[op].quota == 1)
    requires s.ops[op].killCalls + Allowance(attempts) + Allowance(attempts) * |Rest(after)|
             <= Allowance(attempts) * s.ops[op].quota
    ensures OpOk(attempts, StartCleanup(attempts, s, op, id, after), op)
  {
    var s' := StartCleanup(attempts, s, op, id, after);
    var pc' := CleanupPc(attempts, id, after);
    assert s'.ops[op] == s.ops[op].(pc := pc');
    NotedAfterGivingUp(attempts, s, id, after);
    LogGrows(s.log, s'.log);
    assert Candidate(pc') == None && Cleanup(pc') == Some(after);
  }

  lemma ResumeOk(attempts: int, s: State, op: OpId, after: After)
    requires op in s.ops && Carries(s, op, after) && (!s.ops[op].call.Stop? ==> s.ops[op].quota == 1)
    requires s.ops[op].killCalls + Allowance(attempts) * |Rest(after)| <= Allowance(attempts) * s.ops[op].quota
    ensures OpOk(attempts, Resume(attempts, s, op, after), op)
  {
    if after.Drain? && after.rest != [] {
      QuotaSplit(attempts, after.rest);
      StartCleanupOk(attempts, s, op, after.rest[0], Drain(after.rest[1..]));
    }
  }

  lemma QuotaSplit(attempts: int, rest: seq<SandboxId>)
    requires rest != []
    ensures Allowance(attempts) + Allowance(attempts) * |rest[1..]| == Allowance(attempts) * |rest|
  {
  }

  lemma ReadGenerationOk(attempts: int, s: State, op: OpId)
    requires op in s.ops && s.ops[op].pc.ReadingGeneration? && OpOk(attempts, s, op) && Generations(s)
    ensures OpOk(attempts, ReadGenerationSection(s, op), op)
  {
    LogGrows(s.log, ReadGenerationSection(s, op).log);
  }

  lemma PublishSectionOk(attempts: int, s: State, op: OpId, candidate: Guest)
    requires op in s.ops && s.ops[op].pc == Publishing(candidate) && OpOk(attempts, s, op)
    ensures OpOk(attempts, PublishSection(attempts, s, op, candidate), op)
  {
    var s1 := s.(guest := Some(candidate), published := s.published + [Publication(op, candidate)]);
    if s.stopped {
      StartCleanupOk(attempts, s, op, candidate.id, RaiseError);
    } else if s.guest.Some? {
      StartCleanupOk(attempts, s1, op, s.guest.value.id, ReturnGuest(candidate));
    } else {
      ResumeOk(attempts, s1, op, ReturnGuest(candidate));
    }
  }

  lemma RecordSectionOk(attempts: int, s: State, op: OpId, id: SandboxId, dead: bool, after: After)
    requires op in s.ops && s.ops[op].pc == Recording(id, dead, after) && OpOk(attempts, s, op)
    ensures OpOk(attempts, RecordSection(attempts, s, op, id, dead, after), op)
  {
    ResumeOk(attempts, s.(pending := if dead then Pop(s.pending, id) else Put(s.pending, id)), op, after);
  }

  lemma SweepSectionOk(attempts: int, s: State, op: OpId)
    requires op in s.ops && s.ops[op].pc.Sweeping? && OpOk(attempts, s, op)
    ensures OpOk(attempts, SweepSection(attempts, s, op), op)
  {
    var all := Swept(s);
    var s1 := s.(guest := None, pending := [], ops := s.ops[op := s.ops[op].(quota := |all|)]);
    ResumeOk(attempts, s1, op, Drain(all));
  }

  lemma QuietSectionOk(attempts: int, s: State, op: OpId, s': State)
    requires op in s.ops && SectionStep(attempts, s, op) == Some(s') && OpOk(attempts, s, op)
    requires s.ops[op].pc.SettingStopFlag? || s.ops[op].pc.ReadingCurrent?
    ensures OpOk(attempts, s', op)
  {
  }

  lemma SectionOk(attempts: int, s: State, op: OpId, s': State)
    requires op in s.ops && SectionStep(attempts, s, op) == Some(s') && op in s'.ops
    requires OpOk(attempts, s, op) && Generations(s)
    ensures OpOk(attempts, s', op)
  {
    var free := s.(lock := None);
    assert OpOk(attempts, free, op);
    match s.ops[op].pc
    case ReadingGeneration => ReadGenerationOk(attempts, free, op);
    case Publishing(candidate) => PublishSectionOk(attempts, free, op, candidate);
    case Recording(id, dead, after) => RecordSectionOk(attempts, free, op, id, dead, after);
    case Sweeping => SweepSectionOk(attempts, free, op);
    case _ => QuietSectionOk(attempts, s, op, s');
  }

  lemma CreateOk(attempts: int, s: State, op: OpId, id: SandboxId, hasToken: bool, s': State)
    requires op in s.ops && CreateStep(attempts, s, op, id, hasToken) == Some(s') && OpOk(attempts, s, op)
    ensures OpOk(attempts, s', op)
  {
    var seed := SeedOf(s.ops[op].source);
    var s1 := s.(created := s.created[id := Birth(op, seed)]);
    if hasToken {
      LogGrows(s.log, s'.log);
      var event := Created(id, s.ops[op].pc.generation, seed);
      assert event in s'.log;
    } else {
      StartCleanupOk(attempts, s1, op, id, RaiseError);
    }
  }

  lemma KillReturnsOk(attempts: int, s: State, op: OpId, s': State)
    requires op in s.ops && KillReturnsStep(s, op) == Some(s') && OpOk(attempts, s, op)
    ensures OpOk(attempts, s', op)
  {
    LogGrows(s.log, s'.log);
  }

  lemma KillRaisesOk(attempts: int, s: State, op: OpId, s': State)
    requires op in s.ops && KillRaisesStep(attempts, s, op) == Some(s') && OpOk(attempts, s, op)
    ensures OpOk(attempts, s', op)
  {
    if s.ops[op].pc.attempt < attempts {
      RetriesOk(attempts, s, op, s');
    } else {
      GivesUpOk(attempts, s, op, s');
    }
  }

  lemma RetriesOk(attempts: int, s: State, op: OpId, s': State)
    requires op in s.ops && KillRaisesStep(attempts, s, op) == Some(s') && OpOk(attempts, s, op)
    requires s.ops[op].pc.Killing? && s.ops[op].pc.attempt < attempts
    ensures OpOk(attempts, s', op)
  {
  }

  lemma GivesUpOk(attempts: int, s: State, op: OpId, s': State)
    requires op in s.ops && KillRaisesStep(attempts, s, op) == Some(s') && OpOk(attempts, s, op)
    requires s.ops[op].pc.Killing? && s.ops[op].pc.attempt >= attempts
    ensures OpOk(attempts, s', op)
  {
    LogGrows(s.log, s'.log);
    assert CleanupFailed(s.ops[op].pc.id) in s'.log;
  }

  lemma AfterwardsIsAlike(attempts: int, pc: Pc)
    requires Afterwards(pc).Some?
    ensures var pc' := Afterwards(pc).value;
            && Candidate(pc') == Candidate(pc) && Cleanup(pc') == Cleanup(pc)
            && AfterFlag(pc') == AfterFlag(pc) && BeforeSweep(pc') == BeforeSweep(pc)
            && Remaining(attempts, pc') == Remaining(attempts, pc)
            && !pc.Creating? && !pc'.Creating? && !pc'.Killing? && !pc.Finished? && !pc'.Finished?
  {
  }

  lemma AcquireOk(attempts: int, s: State, op: OpId, s': State)
    requires op in s.ops && AcquireStep(s, op) == Some(s') && OpOk(attempts, s, op)
    ensures OpOk(attempts, s', op)
  {
    var pc := s.ops[op].pc;
    AfterwardsIsAlike(attempts, pc);
    assert s'.ops[op] == s.ops[op].(pc := Afterwards(pc).value);
    assert s'.guest == s.guest && s'.stopped == s.stopped && s'.log == s.log && s'.published == s.published
           && s'.created == s.created && s'.killed == s.killed;
  }

  lemma BecomesReadyOk(attempts: int, s: State, op: OpId, s': State)
    requires op in s.ops && ReadyStep(s, op) == Some(s') && OpOk(attempts, s, op)
    ensures OpOk(attempts, s', op)
  {
    LogGrows(s.log, s'.log);
  }

  /** A remote call that fails, or a snapshot that returns, ends its operation. */
  lemma EndsCallOk(attempts: int, s: State, step: Step, s': State)
    requires EndsWait(step) && !step.BecomesReady?
    requires Next(attempts, s, step) == Some(s') && OpOk(attempts, s, step.op)
    ensures OpOk(attempts, s', step.op)
  {
    LogGrows(s.log, s'.log);
  }

  lemma MoverOk(attempts: int, s: State, step: Step, s': State)
    requires Next(attempts, s, step) == Some(s') && !step.Spawn? && step.op in s'.ops
    requires OpOk(attempts, s, step.op) && Generations(s)
    ensures OpOk(attempts, s', step.op)
  {
    var op := step.op;
    match step
    case Acquire(_) => AcquireOk(attempts, s, op, s');
    case RunSection(_) => SectionOk(attempts, s, op, s');
    case CreateReturns(_, id, hasToken) => CreateOk(attempts, s, op, id, hasToken, s');
    case NeverReady(_) => StartCleanupOk(attempts, s, op, s.ops[op].pc.candidate.id, RaiseError);
    case KillReturns(_) => KillReturnsOk(attempts, s, op, s');
    case KillRaises(_) => KillRaisesOk(attempts, s, op, s');
    case BecomesReady(_) => BecomesReadyOk(attempts, s, op, s');
    case _ => EndsCallOk(attempts, s, step, s');
  }

  lemma SpawnOk(attempts: int, s: State, step: Step, s': State)
    requires Next(attempts, s, step) == Some(s') && step.Spawn? && Generations(s) && Sources(s)
    ensures OpOk(attempts, s', step.op)
  {
  }

  lemma KeepsOps(attempts: int, s: State, step: Step, s': State)
    requires Inv(attempts, s) && Next(attempts, s, step) == Some(s')
    ensures forall o :: o in s'.ops ==> OpOk(attempts, s', o)
  {
    StepGrows(attempts, s, step, s');
    forall o | o in s'.ops ensures OpOk(attempts, s', o) {
      if step.Spawn? {
        if o == step.op {
          SpawnOk(attempts, s, step, s');
        } else {
          assert OpOk(attempts, s, o);
        }
      } else {
        StepMoves(attempts, s, step, s');
        if o == step.op {
          MoverOk(attempts, s, step, s');
        } else {
          OthersStayOk(attempts, s, step.op, s', o);
        }
      }
    }
  }

  // ----- the event log -----

  lemma LogAppend(log: seq<RelayEvent>, e: RelayEvent)
    ensures CreatedIds(log + [e]) == CreatedIds(log) + (if e.Created? then {e.id} else {})
    ensures CleanedIds(log + [e]) == CleanedIds(log) + (if e.Cleaned? then {e.id} else {})
    ensures FailedIds(log + [e]) == FailedIds(log) + (if e.CleanupFailed? then {e.id} else {})
  {
    assert forall x :: x in log + [e] <==> x in log || x == e;
  }

  lemma StartCleanupLogs(attempts: int, s: State, op: OpId, id: SandboxId, after: After)
    requires op in s.ops && LogBase(s)
    ensures LogBase(StartCleanup(attempts, s, op, id, after))
  {
    LogAppend(s.log, CleanupFailed(id));
    assert attempts >= 1 ==> s.log + GivesUp(attempts, id) == s.log;
  }

  lemma ResumeLogs(attempts: int, s: State, op: OpId, after: After)
    requires op in s.ops && LogBase(s)
    ensures LogBase(Resume(attempts, s, op, after))
  {
    if after.Drain? && after.rest != [] {
      StartCleanupLogs(attempts, s, op, after.rest[0], Drain(after.rest[1..]));
    }
  }

  lemma PublishLogs(attempts: int, s: State, op: OpId, candidate: Guest)
    requires op in s.ops && LogBase(s) && candidate.id in CreatedIds(s.log)
    ensures LogBase(PublishSection(attempts, s, op, candidate))
  {
    var s1 := s.(guest := Some(candidate), published := s.published + [Publication(op, candidate)]);
    if s.stopped {
      StartCleanupLogs(attempts, s, op, candidate.id, RaiseError);
    } else if s.guest.Some? {
      StartCleanupLogs(attempts, s1, op, s.guest.value.id, ReturnGuest(candidate));
    }
  }

  lemma {:induction false} PopShrinks(pending: seq<SandboxId>, id: SandboxId, x: SandboxId)
    requires x in Pop(pending, id)
    ensures x in pending
  {
    if pending[0] != id && x != pending[0] {
      PopShrinks(pending[1..], id, x);
    }
  }

  lemma RecordLogs(attempts: int, s: State, op: OpId, id: SandboxId, dead: bool, after: After)
    requires op in s.ops && LogBase(s) && (!dead ==> id in FailedIds(s.log))
    ensures LogBase(RecordSection(attempts, s, op, id, dead, after))
  {
    var pending' := if dead then Pop(s.pending, id) else Put(s.pending, id);
    forall x | x in pending' ensures x in FailedIds(s.log) {
      if dead {
        PopShrinks(s.pending, id, x);
      }
    }
    ResumeLogs(attempts, s.(pending := pending'), op, after);
  }

  lemma SectionLogs(attempts: int, s: State, op: OpId, s': State)
    requires op in s.ops && SectionStep(attempts, s, op) == Some(s') && LogBase(s) && OpOk(attempts, s, op)
    ensures LogBase(s')
  {
    var free := s.(lock := None);
    match s.ops[op].pc
    case ReadingGeneration =>
      if !s.stopped {
        LogAppend(s.log, s'.log[|s.log|]);
      }
    case Publishing(candidate) => PublishLogs(attempts, free, op, candidate);
    case Recording(id, dead, after) => RecordLogs(attempts, free, op, id, dead, after);
    case Sweeping =>
      var all := Swept(s);
      var s1 := free.(guest := None, pending := [], ops := s.ops[op := s.ops[op].(quota := |all|)]);
      ResumeLogs(attempts, s1, op, Drain(all));
    case _ =>
  }

  lemma OutcomeLogs(attempts: int, s: State, step: Step, s': State)
    requires Next(attempts, s, step) == Some(s') && !step.RunSection? && !step.NeverReady? && LogBase(s)
    requires step.CreateReturns? ==> step.hasToken
    ensures LogBase(s')
  {
    if s'.log != s.log {
      LogAppend(s.log, s'.log[|s.log|]);
      assert s'.log == s.log + [s'.log[|s.log|]];
    }
  }

  lemma KeepsLogBase(attempts: int, s: State, step: Step, s': State)
    requires LogBase(s) && Next(attempts, s, step) == Some(s')
    requires !step.Spawn? ==> OpOk(attempts, s, step.op)
    ensures LogBase(s')
  {
    var op := step.op;
    if step.RunSection? {
      SectionLogs(attempts, s, op, s');
    } else if step.NeverReady? {
      StartCleanupLogs(attempts, s, op, s.ops[op].pc.candidate.id, RaiseError);
    } else if step.CreateReturns? && !step.hasToken {
      var s1 := s.(created := s.created[step.id := Birth(op, SeedOf(s.ops[op].source))]);
      StartCleanupLogs(attempts, s1, op, step.id, RaiseError);
    } else {
      OutcomeLogs(attempts, s, step, s');
    }
  }

  // ----- every created sandbox is on record -----

  lemma KnownStays(s: State, op: OpId, s': State, id: SandboxId)
    requires Grows(s, op, s') && Known(s, id)
    ensures Known(s', id)
  {
    LogGrows(s.log, s'.log);
  }

  lemma AccountedFollows(s: State, op: OpId, s': State)
    requires Locks(s) && MovesOne(s, op, s') && Grows(s, op, s') && AllAccounted(s)
    requires forall x :: x in s'.created && x !in s.created ==>
               Known(s', x) || (BeingDropped(s'.ops[op].pc, x) && s'.replaceLock == Some(op))
    requires forall x :: BeingDropped(s.ops[op].pc, x) ==>
               Known(s', x) || (BeingDropped(s'.ops[op].pc, x) && s'.replaceLock == Some(op))
    ensures AllAccounted(s')
  {
    forall x | x in s'.created ensures Accounted(s', x) {
      if x in s.created {
        assert Accounted(s, x);
        if Known(s, x) {
          KnownStays(s, op, s', x);
        } else if s.replaceLock != Some(op) {
          var h := s.replaceLock.value;
          assert s.replaceLock == Some(h) && s'.ops[h] == s.ops[h];
        }
      }
    }
  }

  lemma CreateAccounted(attempts: int, s: State, op: OpId, id: SandboxId, hasToken: bool, s': State)
    requires Locks(s) && op in s.ops && CreateStep(attempts, s, op, id, hasToken) == Some(s')
    ensures Known(s', id) || (BeingDropped(s'.ops[op].pc, id) && s'.replaceLock == Some(op))
  {
    assert InReplaceLock(s.ops[op].pc) <==> s.replaceLock == Some(op);
    if hasToken {
      assert Created(id, s.ops[op].pc.generation, SeedOf(s.ops[op].source)) in s'.log;
    } else if attempts < 1 {
      assert CleanupFailed(id) in s'.log;
    }
  }

  lemma KillAccounted(attempts: int, s: State, op: OpId, s': State, x: SandboxId)
    requires Locks(s) && op in s.ops && BeingDropped(s.ops[op].pc, x)
    requires KillReturnsStep(s, op) == Some(s') || KillRaisesStep(attempts, s, op) == Some(s')
    ensures Known(s', x) || (BeingDropped(s'.ops[op].pc, x) && s'.replaceLock == Some(op))
  {
    assert InReplaceLock(s.ops[op].pc) <==> s.replaceLock == Some(op);
    if s'.ops[op].pc.WantRecord? && !s'.ops[op].pc.dead {
      assert CleanupFailed(x) in s'.log;
    }
  }

  lemma OnlyCreateAdds(attempts: int, s: State, step: Step, s': State)
    requires Next(attempts, s, step) == Some(s') && !step.CreateReturns?
    ensures s'.created == s.created
  {
    if step.RunSection? {
      SectionKeepsCreated(attempts, s, step.op, s');
    }
  }

  lemma SectionKeepsCreated(attempts: int, s: State, op: OpId, s': State)
    requires op in s.ops && SectionStep(attempts, s, op) == Some(s')
    ensures s'.created == s.created
  {
  }

  lemma KeepsAccounted(attempts: int, s: State, step: Step, s': State)
    requires Locks(s) && AllAccounted(s) && Next(attempts, s, step) == Some(s')
    ensures AllAccounted(s')
  {
    var op := step.op;
    if step.Spawn? {
      forall x | x in s'.created ensures Accounted(s', x) {
        assert Accounted(s, x);
      }
    } else {
      StepMoves(attempts, s, step, s');
      StepGrows(attempts, s, step, s');
      if step.CreateReturns? {
        CreateAccounted(attempts, s, op, step.id, step.hasToken, s');
      } else {
        OnlyCreateAdds(attempts, s, step, s');
        forall x | BeingDropped(s.ops[op].pc, x)
          ensures Known(s', x) || (BeingDropped(s'.ops[op].pc, x) && s'.replaceLock == Some(op))
        {
          KillAccounted(attempts, s, op, s', x);
        }
      }
      AccountedFollows(s, op, s');
    }
  }

  // ----- generations and sources -----

  lemma PublishGenerations(attempts: int, s: State, op: OpId, candidate: Guest)
    requires op in s.ops && s.ops[op].pc == Publishing(candidate) && CandidateOk(s, op) && Generations(s)
    ensures Generations(PublishSection(attempts, s, op, candidate))
  {
  }

  /** The fields that leaving or entering a cleanup does not touch. */
  lemma ResumeLeaves(attempts: int, s: State, op: OpId, after: After)
    requires op in s.ops
    ensures var s' := Resume(attempts, s, op, after);
            && s'.guest == s.guest && s'.published == s.published && s'.stopped == s.stopped
            && s'.snapshots == s.snapshots && s'.created == s.created && s'.ops.Keys == s.ops.Keys
            && (forall e :: e in s'.log && e.SnapshotSaved? ==> e in s.log)
  {
  }

  lemma SameGenerations(s: State, s': State)
    requires Generations(s) && s'.published == s.published && s'.created == s.created
    requires s.ops.Keys <= s'.ops.Keys && (s.stopped ==> s'.stopped)
    requires s'.guest == s.guest || (s'.guest == None && s'.stopped)
    ensures Generations(s')
  {
  }

  lemma SectionGenerations(attempts: int, s: State, op: OpId, s': State)
    requires op in s.ops && SectionStep(attempts, s, op) == Some(s') && Generations(s)
    requires CandidateOk(s, op) && FlagsOk(s, s.ops[op].pc)
    ensures Generations(s')
  {
    var free := s.(lock := None);
    match s.ops[op].pc
    case Publishing(candidate) => PublishGenerations(attempts, free, op, candidate);
    case Recording(id, dead, after) =>
      ResumeLeaves(attempts, free.(pending := if dead then Pop(s.pending, id) else Put(s.pending, id)), op, after);
      SameGenerations(s, s');
    case Sweeping =>
      var all := Swept(s);
      var s1 := free.(guest := None, pending := [], ops := s.ops[op := s.ops[op].(quota := |all|)]);
      ResumeLeaves(attempts, s1, op, Drain(all));
      SameGenerations(s, s');
    case _ => SameGenerations(s, s');
  }

  lemma CreateGenerations(attempts: int, s: State, op: OpId, id: SandboxId, hasToken: bool, s': State)
    requires op in s.ops && CreateStep(attempts, s, op, id, hasToken) == Some(s') && Generations(s)
    ensures Generations(s')
  {
  }

  lemma QuietGenerations(attempts: int, s: State, step: Step, s': State)
    requires Next(attempts, s, step) == Some(s') && !step.RunSection? && !step.CreateReturns? && Generations(s)
    ensures Generations(s')
  {
    SameGenerations(s, s');
  }

  lemma KeepsGenerations(attempts: int, s: State, step: Step, s': State)
    requires Generations(s) && Next(attempts, s, step) == Some(s')
    requires !step.Spawn? ==> OpOk(attempts, s, step.op)
    ensures Generations(s')
  {
    match step
    case RunSection(op) => SectionGenerations(attempts, s, op, s');
    case CreateReturns(op, id, hasToken) => CreateGenerations(attempts, s, op, id, hasToken, s');
    case _ => QuietGenerations(attempts, s, step, s');
  }

  lemma NoNewSaves(attempts: int, s: State, step: Step, s': State)
    requires Next(attempts, s, step) == Some(s') && !step.SnapshotReturns?
    ensures s'.snapshots == s.snapshots
    ensures forall e :: e in s'.log && e.SnapshotSaved? ==> e in s.log
  {
    if step.RunSection? {
      SectionSavesNothing(attempts, s, step.op, s');
    }
  }

  lemma PublishSavesNothing(attempts: int, s: State, op: OpId, candidate: Guest)
    requires op in s.ops
    ensures var s' := PublishSection(attempts, s, op, candidate);
            s'.snapshots == s.snapshots && forall e :: e in s'.log && e.SnapshotSaved? ==> e in s.log
  {
  }

  lemma SectionSavesNothing(attempts: int, s: State, op: OpId, s': State)
    requires op in s.ops && SectionStep(attempts, s, op) == Some(s')
    ensures s'.snapshots == s.snapshots
    ensures forall e :: e in s'.log && e.SnapshotSaved? ==> e in s.log
  {
    var free := s.(lock := None);
    match s.ops[op].pc
    case Publishing(candidate) => PublishSavesNothing(attempts, free, op, candidate);
    case Recording(id, dead, after) =>
      ResumeLeaves(attempts, free.(pending := if dead then Pop(s.pending, id) else Put(s.pending, id)), op, after);
    case Sweeping =>
      var all := Swept(s);
      var s1 := free.(guest := None, pending := [], ops := s.ops[op := s.ops[op].(quota := |all|)]);
      ResumeLeaves(attempts, s1, op, Drain(all));
    case _ =>
  }

  lemma SnapshotSources(s: State, op: OpId, snapshotId: string, s': State)
    requires op in s.ops && SnapshotStep(s, op, snapshotId) == Some(s') && Sources(s)
    ensures Sources(s')
  {
    var event := SnapshotSaved(s.ops[op].pc.guest.id, s.ops[op].call.name, snapshotId);
    assert event in s'.log;
    LogGrows(s.log, s'.log);
    assert forall id :: id in s'.created ==> s'.ops[s'.created[id].op].source == s.ops[s.created[id].op].source;
  }

  /** New operations and new sandboxes leave the old ones' sources as they were. */
  lemma BirthsKeepSeeds(attempts: int, s: State, step: Step, s': State, id: SandboxId)
    requires Locks(s) && Sources(s) && Next(attempts, s, step) == Some(s') && id in s'.created
    ensures s'.created[id].op in s'.ops && s'.created[id].seed == SeedOf(s'.ops[s'.created[id].op].source)
  {
    if !step.Spawn? {
      StepMoves(attempts, s, step, s');
    }
    if !step.CreateReturns? {
      OnlyCreateAdds(attempts, s, step, s');
    }
  }

  lemma KeepsSources(attempts: int, s: State, step: Step, s': State)
    requires Locks(s) && Sources(s) && Next(attempts, s, step) == Some(s')
    ensures Sources(s')
  {
    if step.SnapshotReturns? {
      SnapshotSources(s, step.op, step.snapshotId, s');
    } else {
      StepGrows(attempts, s, step, s');
      NoNewSaves(attempts, s, step, s');
      LogGrows(s.log, s'.log);
      forall id | id in s'.created
        ensures s'.created[id].op in s'.ops
        ensures s'.created[id].seed == SeedOf(s'.ops[s'.created[id].op].source)
      {
        BirthsKeepSeeds(attempts, s, step, s', id);
      }
    }
  }

  // ----- the invariant -----

  lemma InvInitially(attempts: int)
    ensures Inv(attempts, INITIAL)
  {
    assert CleanedIds([]) == {} && CreatedIds([]) == {};
  }

  /** Every step of every coroutine keeps the invariant. */
  lemma KeepsInv(attempts: int, s: State, step: Step, s': State)
    requires Inv(attempts, s) && Next(attempts, s, step) == Some(s')
    ensures Inv(attempts, s')
  {
    KeepsLocks(attempts, s, step, s');
    assert !step.Spawn? ==> OpOk(attempts, s, step.op);
    KeepsConserved(attempts, s, step, s');
    KeepsLogBase(attempts, s, step, s');
    KeepsAccounted(attempts, s, step, s');
    KeepsGenerations(attempts, s, step, s');
    KeepsSources(attempts, s, step, s');
    KeepsOps(attempts, s, step, s');
  }

  lemma {:induction false} RunKeepsInv(attempts: int, s: State, steps: seq<Step>, s': State)
    requires Inv(attempts, s) && Run(attempts, s, steps) == Some(s')
    ensures Inv(attempts, s')
    decreases |steps|
  {
    if steps != [] {
      var s1 := Next(attempts, s, steps[0]).value;
      KeepsInv(attempts, s, steps[0], s1);
      RunKeepsInv(attempts, s1, steps[1..], s');
    }
  }
}
