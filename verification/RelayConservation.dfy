/** Lock discipline and the conservation of sandboxes in the relay machine. */
module RelayConservation {
  import opened Prelude
  import opened RelayMachine

  // ----- lock discipline -----

  predicate InLock(pc: Pc) {
    pc.ReadingGeneration? || pc.Publishing? || pc.Recording? || pc.SettingStopFlag? || pc.Sweeping?
    || pc.ReadingCurrent?
  }

  predicate InReplaceLock(pc: Pc) {
    pc.WantGeneration? || pc.ReadingGeneration? || pc.Creating? || pc.WaitingReady? || pc.WantPublish?
    || pc.Publishing? || pc.Killing? || pc.WantRecord? || pc.Recording? || pc.WantSweep? || pc.Sweeping?
  }

  /** An operation is at a point inside a lock exactly when it holds that lock. */
  ghost predicate Locks(s: State) {
    && (s.lock.Some? ==> s.lock.value in s.ops)
    && (s.replaceLock.Some? ==> s.replaceLock.value in s.ops)
    && (forall o :: o in s.ops ==> (InLock(s.ops[o].pc) <==> s.lock == Some(o)))
    && (forall o :: o in s.ops ==> (InReplaceLock(s.ops[o].pc) <==> s.replaceLock == Some(o)))
  }

  predicate Handed(before: Option<OpId>, after: Option<OpId>, op: OpId) {
    before == after || (before == None && after == Some(op)) || (before == Some(op) && after == None)
  }

  /** `s'` differs from `s` in one operation only, and in its locks as that operation's place says. */
  ghost predicate MovesOne(s: State, op: OpId, s': State) {
    && op in s.ops && s'.ops.Keys == s.ops.Keys
    && (forall o :: o in s.ops && o != op ==> s'.ops[o] == s.ops[o])
    && s'.ops[op].call == s.ops[op].call && s'.ops[op].source == s.ops[op].source
    && Handed(s.lock, s'.lock, op)
    && Handed(s.replaceLock, s'.replaceLock, op)
    && (InLock(s'.ops[op].pc) <==> s'.lock == Some(op))
    && (InReplaceLock(s'.ops[op].pc) <==> s'.replaceLock == Some(op))
  }

  lemma StartCleanupMoves(attempts: int, s: State, op: OpId, id: SandboxId, after: After)
    requires op in s.ops && s.replaceLock == Some(op) && s.lock != Some(op)
    ensures MovesOne(s, op, StartCleanup(attempts, s, op, id, after))
  {
  }

  lemma ResumeMoves(attempts: int, s: State, op: OpId, after: After)
    requires op in s.ops && s.replaceLock == Some(op) && s.lock != Some(op)
    ensures MovesOne(s, op, Resume(attempts, s, op, after))
  {
  }

  lemma SectionMoves(attempts: int, s: State, op: OpId, s': State)
    requires op in s.ops && s.lock == Some(op)
    requires InReplaceLock(s.ops[op].pc) <==> s.replaceLock == Some(op)
    requires SectionStep(attempts, s, op) == Some(s')
    ensures MovesOne(s, op, s')
  {
    var free := s.(lock := None);
    match s.ops[op].pc
    case ReadingGeneration =>
    case Publishing(candidate) => PublishMoves(attempts, free, op, candidate);
    case Recording(id, dead, after) =>
      var marked := free.(pending := if dead then Pop(s.pending, id) else Put(s.pending, id));
      ResumeMoves(attempts, marked, op, after);
    case SettingStopFlag =>
    case Sweeping => SweepMoves(attempts, free, op);
    case ReadingCurrent =>
    case _ =>
  }

  lemma PublishMoves(attempts: int, s: State, op: OpId, candidate: Guest)
    requires op in s.ops && s.replaceLock == Some(op) && s.lock == None
    ensures MovesOne(s, op, PublishSection(attempts, s, op, candidate))
  {
    if s.stopped {
      StartCleanupMoves(attempts, s, op, candidate.id, RaiseError);
    } else if s.guest.Some? {
      var s' := s.(guest := Some(candidate), published := s.published + [Publication(op, candidate)]);
      StartCleanupMoves(attempts, s', op, s.guest.value.id, ReturnGuest(candidate));
    }
  }

  lemma SweepMoves(attempts: int, s: State, op: OpId)
    requires op in s.ops && s.replaceLock == Some(op) && s.lock == None
    ensures MovesOne(s, op, SweepSection(attempts, s, op))
  {
    var all := Swept(s);
    var swept := s.(guest := None, pending := [], ops := s.ops[op := s.ops[op].(quota := |all|)]);
    ResumeMoves(attempts, swept, op, Drain(all));
  }

  lemma CreateMoves(attempts: int, s: State, op: OpId, id: SandboxId, hasToken: bool, s': State)
    requires op in s.ops && s.lock != Some(op) && (s.ops[op].pc.Creating? ==> s.replaceLock == Some(op))
    requires CreateStep(attempts, s, op, id, hasToken) == Some(s')
    ensures MovesOne(s, op, s')
  {
  }

  lemma KillMoves(attempts: int, s: State, op: OpId, s': State)
    requires op in s.ops && s.lock != Some(op) && (s.ops[op].pc.Killing? ==> s.replaceLock == Some(op))
    requires KillReturnsStep(s, op) == Some(s') || KillRaisesStep(attempts, s, op) == Some(s')
    ensures MovesOne(s, op, s')
  {
  }

  lemma AcquireMoves(s: State, op: OpId, s': State)
    requires op in s.ops && AcquireStep(s, op) == Some(s')
    requires InLock(s.ops[op].pc) <==> s.lock == Some(op)
    requires InReplaceLock(s.ops[op].pc) <==> s.replaceLock == Some(op)
    ensures MovesOne(s, op, s')
  {
  }

  predicate EndsWait(step: Step) {
    step.CreateFails? || step.BecomesReady? || step.SnapshotReturns? || step.SnapshotRaises?
  }

  lemma OutcomeMoves(attempts: int, s: State, step: Step, s': State)
    requires EndsWait(step) && Next(attempts, s, step) == Some(s')
    requires InLock(s.ops[step.op].pc) <==> s.lock == Some(step.op)
    requires InReplaceLock(s.ops[step.op].pc) <==> s.replaceLock == Some(step.op)
    ensures MovesOne(s, step.op, s')
  {
  }

  lemma StepMoves(attempts: int, s: State, step: Step, s': State)
    requires Locks(s) && Next(attempts, s, step) == Some(s') && !step.Spawn?
    ensures MovesOne(s, step.op, s')
  {
    var op := step.op;
    assert InLock(s.ops[op].pc) <==> s.lock == Some(op);
    assert InReplaceLock(s.ops[op].pc) <==> s.replaceLock == Some(op);
    match step
    case Acquire(_) => AcquireMoves(s, op, s');
    case RunSection(_) => SectionMoves(attempts, s, op, s');
    case CreateReturns(_, id, hasToken) => CreateMoves(attempts, s, op, id, hasToken, s');
    case NeverReady(_) => StartCleanupMoves(attempts, s, op, s.ops[op].pc.candidate.id, RaiseError);
    case KillReturns(_) => KillMoves(attempts, s, op, s');
    case KillRaises(_) => KillMoves(attempts, s, op, s');
    case _ => OutcomeMoves(attempts, s, step, s');
  }

  lemma KeepsLocks(attempts: int, s: State, step: Step, s': State)
    requires Locks(s) && Next(attempts, s, step) == Some(s')
    ensures Locks(s')
  {
    if !step.Spawn? {
      StepMoves(attempts, s, step, s');
    }
  }

  // ----- conservation of sandboxes -----

  function Rest(after: After): seq<SandboxId> {
    if after.Drain? then after.rest else []
  }

  function Times(ids: seq<SandboxId>, x: SandboxId): nat {
    multiset(ids)[x]
  }

  function One(b: bool): nat {
    if b then 1 else 0
  }

  /** How often an operation at `pc` has sandbox `x` in its own hands. */
  function Held(pc: Pc, x: SandboxId): nat {
    match pc
    case WaitingReady(candidate) => One(candidate.id == x)
    case WantPublish(candidate) => One(candidate.id == x)
    case Publishing(candidate) => One(candidate.id == x)
    case Killing(id, _, after) => One(id == x) + Times(Rest(after), x)
    case WantRecord(id, dead, after) => One(!dead && id == x) + Times(Rest(after), x)
    case Recording(id, dead, after) => One(!dead && id == x) + Times(Rest(after), x)
    case _ => 0
  }

  function HeldNow(s: State, x: SandboxId): nat {
    if s.replaceLock.Some? && s.replaceLock.value in s.ops then Held(s.ops[s.replaceLock.value].pc, x)
    else 0
  }

  /** The same for the fields of the manager and the sandboxes already killed. */
  function Elsewhere(s: State, x: SandboxId): nat {
    One(s.guest.Some? && s.guest.value.id == x) + Times(s.pending, x) + One(x in s.killed)
  }

  /** A sandbox that was ever created is in exactly one place, any other in none. */
  ghost predicate Conserved(s: State) {
    forall x :: Elsewhere(s, x) + HeldNow(s, x) == One(x in s.created)
  }

  /** Without duplicates, taking out one id is keeping all others. */
  lemma {:induction false} PopIsFilter(pending: seq<SandboxId>, id: SandboxId, others: SandboxId -> bool)
    requires NoDuplicates(pending) && forall x :: others(x) <==> x != id
    ensures Pop(pending, id) == Filter(pending, others)
    decreases |pending|
  {
    if pending != [] {
      FilterFront(pending, others);
      DistinctTail(pending);
      if pending[0] == id {
        FilterKeepsAll(pending[1..], others);
      } else {
        PopIsFilter(pending[1..], id, others);
      }
    }
  }

  lemma {:induction false} PopMissing(pending: seq<SandboxId>, id: SandboxId)
    requires id !in pending
    ensures Pop(pending, id) == pending
  {
    if pending != [] {
      PopMissing(pending[1..], id);
    }
  }

  lemma TimesCons(id: SandboxId, ids: seq<SandboxId>, x: SandboxId)
    ensures Times([id] + ids, x) == One(id == x) + Times(ids, x)
    ensures Times(ids + [id], x) == One(id == x) + Times(ids, x)
  {
  }

  lemma StartCleanupHolds(attempts: int, s: State, op: OpId, id: SandboxId, after: After, x: SandboxId)
    requires op in s.ops && s.replaceLock == Some(op)
    ensures HeldNow(StartCleanup(attempts, s, op, id, after), x) == One(id == x) + Times(Rest(after), x)
    ensures Elsewhere(StartCleanup(attempts, s, op, id, after), x) == Elsewhere(s, x)
  {
    assert StartCleanup(attempts, s, op, id, after).ops[op].pc == CleanupPc(attempts, id, after);
  }

  lemma ResumeHolds(attempts: int, s: State, op: OpId, after: After, x: SandboxId)
    requires op in s.ops && s.replaceLock == Some(op)
    ensures HeldNow(Resume(attempts, s, op, after), x) == Times(Rest(after), x)
    ensures Elsewhere(Resume(attempts, s, op, after), x) == Elsewhere(s, x)
    ensures Resume(attempts, s, op, after).created == s.created
  {
    if after.Drain? && after.rest != [] {
      assert after.rest == [after.rest[0]] + after.rest[1..];
      TimesCons(after.rest[0], after.rest[1..], x);
      StartCleanupHolds(attempts, s, op, after.rest[0], Drain(after.rest[1..]), x);
    }
  }

  // ----- conservation, step by step -----

  lemma OutsideHoldsNothing(pc: Pc, x: SandboxId)
    requires !InReplaceLock(pc)
    ensures Held(pc, x) == 0
  {
  }

  /** Only the operation that moves can change what is held. */
  lemma HeldFollows(s: State, op: OpId, s': State, x: SandboxId)
    requires Locks(s) && MovesOne(s, op, s')
    ensures HeldNow(s', x) - Held(s'.ops[op].pc, x) == HeldNow(s, x) - Held(s.ops[op].pc, x)
  {
    assert InReplaceLock(s.ops[op].pc) <==> s.replaceLock == Some(op);
    if s.replaceLock != Some(op) {
      OutsideHoldsNothing(s.ops[op].pc, x);
    }
    if s'.replaceLock != Some(op) {
      OutsideHoldsNothing(s'.ops[op].pc, x);
    }
    if s.replaceLock.Some? && s.replaceLock != Some(op) {
      var h := s.replaceLock.value;
      assert s.replaceLock == Some(h) && s'.ops[h] == s.ops[h];
    }
  }

  /** A sandbox in one place is in no other. */
  lemma OnePlace(s: State, x: SandboxId)
    requires Conserved(s)
    ensures HeldNow(s, x) >= 1 ==> x !in s.pending && x !in s.killed && x in s.created
    ensures x in s.killed ==> x !in s.pending
  {
    assert Elsewhere(s, x) + HeldNow(s, x) == One(x in s.created);
  }

  /** The sandboxes move from place to place, and none appears or disappears. */
  ghost predicate Balanced(s: State, s': State, x: SandboxId) {
    Elsewhere(s', x) + HeldNow(s', x) - One(x in s'.created)
    == Elsewhere(s, x) + HeldNow(s, x) - One(x in s.created)
  }

  lemma PublishBalance(attempts: int, s: State, op: OpId, candidate: Guest, x: SandboxId)
    requires op in s.ops && s.replaceLock == Some(op) && s.ops[op].pc == Publishing(candidate)
    ensures Balanced(s, PublishSection(attempts, s, op, candidate), x)
  {
    var s1 := s.(guest := Some(candidate), published := s.published + [Publication(op, candidate)]);
    if s.stopped {
      StartCleanupHolds(attempts, s, op, candidate.id, RaiseError, x);
    } else if s.guest.Some? {
      StartCleanupHolds(attempts, s1, op, s.guest.value.id, ReturnGuest(candidate), x);
    } else {
      ResumeHolds(attempts, s1, op, ReturnGuest(candidate), x);
    }
  }

  lemma RecordBalance(attempts: int, s: State, op: OpId, id: SandboxId, dead: bool, after: After, x: SandboxId)
    requires op in s.ops && s.replaceLock == Some(op) && s.ops[op].pc == Recording(id, dead, after)
    requires id !in s.pending
    ensures Balanced(s, RecordSection(attempts, s, op, id, dead, after), x)
  {
    if dead {
      PopMissing(s.pending, id);
      ResumeHolds(attempts, s.(pending := s.pending), op, after, x);
    } else {
      TimesCons(id, s.pending, x);
      ResumeHolds(attempts, s.(pending := s.pending + [id]), op, after, x);
    }
  }

  lemma SweepBalance(attempts: int, s: State, op: OpId, x: SandboxId)
    requires op in s.ops && s.replaceLock == Some(op) && s.ops[op].pc.Sweeping?
    ensures Balanced(s, SweepSection(attempts, s, op), x)
  {
    var all := Swept(s);
    var s1 := s.(guest := None, pending := [], ops := s.ops[op := s.ops[op].(quota := |all|)]);
    ResumeHolds(attempts, s1, op, Drain(all), x);
    if s.guest.Some? {
      TimesCons(s.guest.value.id, s.pending, x);
    }
  }

  /** A step that leaves the manager's fields alone and whose operation keeps what it holds. */
  lemma QuietBalance(s: State, op: OpId, s': State, x: SandboxId)
    requires Locks(s) && MovesOne(s, op, s')
    requires s'.guest == s.guest && s'.pending == s.pending && s'.killed == s.killed && s'.created == s.created
    requires Held(s.ops[op].pc, x) == Held(s'.ops[op].pc, x)
    ensures Balanced(s, s', x)
  {
    HeldFollows(s, op, s', x);
  }

  lemma QuietSectionBalance(attempts: int, s: State, op: OpId, s': State, x: SandboxId)
    requires Locks(s) && op in s.ops && MovesOne(s, op, s') && SectionStep(attempts, s, op) == Some(s')
    requires var pc := s.ops[op].pc; !pc.Publishing? && !pc.Recording? && !pc.Sweeping?
    ensures Balanced(s, s', x)
  {
    QuietBalance(s, op, s', x);
  }

  /** An operation that found a sandbox dead has killed it. */
  predicate Settled(s: State, pc: Pc) {
    (pc.WantRecord? && pc.dead) || (pc.Recording? && pc.dead) ==> pc.id in s.killed
  }

  lemma SectionBalance(attempts: int, s: State, op: OpId, s': State, x: SandboxId)
    requires Locks(s) && Conserved(s) && op in s.ops && SectionStep(attempts, s, op) == Some(s')
    requires MovesOne(s, op, s') && Settled(s, s.ops[op].pc)
    ensures Balanced(s, s', x)
  {
    var free := s.(lock := None);
    var pc := s.ops[op].pc;
    assert InReplaceLock(pc) <==> s.replaceLock == Some(op);
    if pc.Publishing? {
      PublishBalance(attempts, free, op, pc.candidate, x);
    } else if pc.Recording? {
      OnePlace(s, pc.id);
      RecordBalance(attempts, free, op, pc.id, pc.dead, pc.after, x);
    } else if pc.Sweeping? {
      SweepBalance(attempts, free, op, x);
    } else {
      QuietSectionBalance(attempts, s, op, s', x);
    }
  }

  lemma CreateBalance(attempts: int, s: State, op: OpId, id: SandboxId, hasToken: bool, s': State, x: SandboxId)
    requires Locks(s) && op in s.ops && CreateStep(attempts, s, op, id, hasToken) == Some(s')
    ensures Balanced(s, s', x)
  {
    assert InReplaceLock(s.ops[op].pc) <==> s.replaceLock == Some(op);
    if !hasToken {
      var s1 := s.(created := s.created[id := Birth(op, SeedOf(s.ops[op].source))]);
      StartCleanupHolds(attempts, s1, op, id, RaiseError, x);
    }
  }

  lemma KillBalance(attempts: int, s: State, op: OpId, s': State, x: SandboxId)
    requires Locks(s) && Conserved(s) && op in s.ops
    requires KillReturnsStep(s, op) == Some(s') || KillRaisesStep(attempts, s, op) == Some(s')
    ensures Balanced(s, s', x)
  {
    assert InReplaceLock(s.ops[op].pc) <==> s.replaceLock == Some(op);
    OnePlace(s, s.ops[op].pc.id);
  }

  lemma NeverReadyBalance(attempts: int, s: State, op: OpId, x: SandboxId)
    requires op in s.ops && s.replaceLock == Some(op) && s.ops[op].pc.WaitingReady?
    ensures Balanced(s, StartCleanup(attempts, s, op, s.ops[op].pc.candidate.id, RaiseError), x)
  {
    StartCleanupHolds(attempts, s, op, s.ops[op].pc.candidate.id, RaiseError, x);
  }

  lemma QuietStepBalance(attempts: int, s: State, step: Step, s': State, x: SandboxId)
    requires Locks(s) && Next(attempts, s, step) == Some(s') && MovesOne(s, step.op, s')
    requires EndsWait(step)
    ensures Balanced(s, s', x)
  {
    QuietBalance(s, step.op, s', x);
  }

  lemma AcquireBalance(s: State, op: OpId, s': State, x: SandboxId)
    requires Locks(s) && op in s.ops && AcquireStep(s, op) == Some(s') && MovesOne(s, op, s')
    ensures Balanced(s, s', x)
  {
    assert s'.ops[op].pc == Afterwards(s.ops[op].pc).value;
    QuietBalance(s, op, s', x);
  }

  lemma StepBalance(attempts: int, s: State, step: Step, s': State, x: SandboxId)
    requires Locks(s) && Conserved(s) && Next(attempts, s, step) == Some(s') && !step.Spawn?
    requires Settled(s, s.ops[step.op].pc)
    ensures Balanced(s, s', x)
  {
    var op := step.op;
    StepMoves(attempts, s, step, s');
    match step
    case Acquire(_) => AcquireBalance(s, op, s', x);
    case RunSection(_) => SectionBalance(attempts, s, op, s', x);
    case CreateReturns(_, id, hasToken) => CreateBalance(attempts, s, op, id, hasToken, s', x);
    case NeverReady(_) =>
      assert InReplaceLock(s.ops[op].pc) <==> s.replaceLock == Some(op);
      NeverReadyBalance(attempts, s, op, x);
    case KillReturns(_) => KillBalance(attempts, s, op, s', x);
    case KillRaises(_) => KillBalance(attempts, s, op, s', x);
    case _ => QuietStepBalance(attempts, s, step, s', x);
  }

  lemma KeepsConserved(attempts: int, s: State, step: Step, s': State)
    requires Locks(s) && Conserved(s) && Next(attempts, s, step) == Some(s')
    requires !step.Spawn? ==> Settled(s, s.ops[step.op].pc)
    ensures Conserved(s')
  {
    forall x ensures Elsewhere(s', x) + HeldNow(s', x) == One(x in s'.created) {
      assert Elsewhere(s, x) + HeldNow(s, x) == One(x in s.created);
      if !step.Spawn? {
        StepBalance(attempts, s, step, s', x);
      }
    }
  }
}
