/** How each call ends: the points it goes through, and what makes it raise. */
module RelayCalls {
  import opened Prelude
  import opened RelayMachine
  import opened RelayConservation
  import opened RelayInvariants
  import opened RelayTheorems

  /** The points an operation with this call can be at. */
  predicate CallFits(call: Call, pc: Pc) {
    match call
    case Stop => BeforeSweep(pc) || AfterSweep(pc)
    case SaveSnapshot(_) =>
      || pc.WantCurrent? || pc.ReadingCurrent? || pc.Snapshotting?
      || (pc.Finished? && (pc.outcome.Saved? || pc.outcome.Raised?))
    case _ =>
      || pc.WantReplaceLock? || pc.WantGeneration? || pc.ReadingGeneration? || pc.Creating? || Candidate(pc).Some?
      || (Cleanup(pc).Some? && !Cleanup(pc).value.Drain?)
      || (pc.Finished? && (pc.outcome.Returned? || pc.outcome.Raised?))
  }

  ghost predicate CallsFit(s: State) {
    forall o :: o in s.ops ==> CallFits(s.ops[o].call, s.ops[o].pc)
  }

  lemma ResumeFits(attempts: int, s: State, op: OpId, after: After)
    requires op in s.ops && CallFits(s.ops[op].call, WantRecord(0, true, after))
    ensures CallFits(s.ops[op].call, Resume(attempts, s, op, after).ops[op].pc)
  {
  }

  lemma SectionFits(attempts: int, s: State, op: OpId, s': State)
    requires op in s.ops && SectionStep(attempts, s, op) == Some(s') && op in s'.ops
    requires CallFits(s.ops[op].call, s.ops[op].pc)
    ensures CallFits(s.ops[op].call, s'.ops[op].pc)
  {
    var free := s.(lock := None);
    match s.ops[op].pc
    case Recording(id, dead, after) =>
      ResumeFits(attempts, free.(pending := if dead then Pop(s.pending, id) else Put(s.pending, id)), op, after);
    case Sweeping =>
      var all := Swept(s);
      var s1 := free.(guest := None, pending := [], ops := s.ops[op := s.ops[op].(quota := |all|)]);
      ResumeFits(attempts, s1, op, Drain(all));
    case _ =>
  }

  lemma WaitFits(attempts: int, s: State, step: Step, s': State)
    requires Next(attempts, s, step) == Some(s') && !step.Spawn? && !step.RunSection? && step.op in s'.ops
    requires CallFits(s.ops[step.op].call, s.ops[step.op].pc)
    ensures CallFits(s.ops[step.op].call, s'.ops[step.op].pc)
  {
    match step
    case Acquire(_) => AcquireFits(s, step.op, s');
    case KillReturns(_) => KillFits(attempts, s, step.op, s');
    case KillRaises(_) => KillFits(attempts, s, step.op, s');
    case _ =>
  }

  lemma AcquireFits(s: State, op: OpId, s': State)
    requires op in s.ops && AcquireStep(s, op) == Some(s') && CallFits(s.ops[op].call, s.ops[op].pc)
    ensures op in s'.ops && CallFits(s.ops[op].call, s'.ops[op].pc)
  {
  }

  lemma KillFits(attempts: int, s: State, op: OpId, s': State)
    requires op in s.ops && CallFits(s.ops[op].call, s.ops[op].pc)
    requires KillReturnsStep(s, op) == Some(s') || KillRaisesStep(attempts, s, op) == Some(s')
    ensures op in s'.ops && CallFits(s.ops[op].call, s'.ops[op].pc)
  {
  }

  lemma StepFits(attempts: int, s: State, step: Step, s': State)
    requires Locks(s) && CallsFit(s) && Next(attempts, s, step) == Some(s')
    ensures CallsFit(s')
  {
    if !step.Spawn? {
      StepMoves(attempts, s, step, s');
      if step.RunSection? {
        SectionFits(attempts, s, step.op, s');
      } else {
        WaitFits(attempts, s, step, s');
      }
    }
  }

  lemma {:induction false} RunFits(attempts: int, s: State, steps: seq<Step>, s': State)
    requires Locks(s) && CallsFit(s) && Run(attempts, s, steps) == Some(s')
    ensures CallsFit(s')
    decreases |steps|
  {
    if steps != [] {
      var s1 := Next(attempts, s, steps[0]).value;
      StepFits(attempts, s, steps[0], s1);
      KeepsLocks(attempts, s, steps[0], s1);
      RunFits(attempts, s1, steps[1..], s');
    }
  }

  /** Every call ends in its own way: a `stop` never raises, and when it is over the flag is set and there is no
      guest; a replacement or revert returns a guest or raises; a save returns the id that was recorded under
      its name or raises. */
  lemma FinishedCalls(attempts: int, s: State, op: OpId)
    requires Reachable(attempts, s) && op in s.ops && s.ops[op].pc.Finished?
    ensures var outcome := s.ops[op].pc.outcome;
            match s.ops[op].call
            case Stop => outcome == Stopped && s.stopped && s.guest == None
            case SaveSnapshot(_) => outcome.Saved? || outcome == Raised
            case _ => outcome == Raised || (outcome.Returned? && Publication(op, outcome.guest) in s.published)
  {
    var steps :| Run(attempts, INITIAL, steps) == Some(s);
    RunFits(attempts, INITIAL, steps, s);
    ReachableInv(attempts, s);
    assert OpOk(attempts, s, op);
    assert CallFits(s.ops[op].call, s.ops[op].pc);
  }

  // ----- why a call raises -----

  /** From here on the operation raises. */
  predicate Raising(pc: Pc) {
    pc == Finished(Raised) || (Cleanup(pc).Some? && Cleanup(pc).value.RaiseError?)
  }

  /** What makes operation `op` raise: a creation that fails or comes without a token, a candidate that never
      becomes ready, a manager that was stopped before the creation or before the publication, a save without a
      guest, or a capture that fails. */
  predicate IsCause(s: State, op: OpId, step: Step) {
    && step.op == op && op in s.ops
    && match step
       case CreateFails(_) => true
       case CreateReturns(_, _, hasToken) => !hasToken
       case NeverReady(_) => true
       case SnapshotRaises(_) => true
       case RunSection(_) =>
         var pc := s.ops[op].pc;
         || ((pc.ReadingGeneration? || pc.Publishing?) && s.stopped)
         || (pc.ReadingCurrent? && s.guest == None)
       case _ => false
  }

  lemma SectionRaisesIff(attempts: int, s: State, op: OpId, s': State)
    requires op in s.ops && SectionStep(attempts, s, op) == Some(s') && op in s'.ops
    ensures Raising(s'.ops[op].pc) <==> Raising(s.ops[op].pc) || IsCause(s, op, RunSection(op))
  {
    var free := s.(lock := None);
    match s.ops[op].pc
    case Recording(id, dead, after) =>
      ResumeRaisesIff(attempts, free.(pending := if dead then Pop(s.pending, id) else Put(s.pending, id)), op, after);
    case Sweeping =>
      var all := Swept(s);
      var s1 := free.(guest := None, pending := [], ops := s.ops[op := s.ops[op].(quota := |all|)]);
      ResumeRaisesIff(attempts, s1, op, Drain(all));
    case _ =>
  }

  lemma ResumeRaisesIff(attempts: int, s: State, op: OpId, after: After)
    requires op in s.ops
    ensures Raising(Resume(attempts, s, op, after).ops[op].pc) <==> after.RaiseError?
  {
  }

  lemma WaitRaisesIff(attempts: int, s: State, step: Step, s': State)
    requires Next(attempts, s, step) == Some(s') && !step.Spawn? && !step.RunSection? && step.op in s'.ops
    ensures Raising(s'.ops[step.op].pc) <==> Raising(s.ops[step.op].pc) || IsCause(s, step.op, step)
  {
    match step
    case Acquire(_) => AcquireKeepsRaising(s, step.op, s');
    case KillReturns(_) => KillKeepsRaising(attempts, s, step.op, s');
    case KillRaises(_) => KillKeepsRaising(attempts, s, step.op, s');
    case _ =>
  }

  lemma AcquireKeepsRaising(s: State, op: OpId, s': State)
    requires op in s.ops && AcquireStep(s, op) == Some(s')
    ensures op in s'.ops && (Raising(s'.ops[op].pc) <==> Raising(s.ops[op].pc))
  {
  }

  lemma KillKeepsRaising(attempts: int, s: State, op: OpId, s': State)
    requires op in s.ops && (KillReturnsStep(s, op) == Some(s') || KillRaisesStep(attempts, s, op) == Some(s'))
    ensures op in s'.ops && (Raising(s'.ops[op].pc) <==> Raising(s.ops[op].pc))
  {
  }

  /** A step makes an operation raise exactly when it is a cause. */
  lemma StepRaisesIff(attempts: int, s: State, step: Step, s': State, op: OpId)
    requires Locks(s) && Next(attempts, s, step) == Some(s') && op in s.ops
    ensures op in s'.ops
    ensures Raising(s'.ops[op].pc) <==> Raising(s.ops[op].pc) || IsCause(s, op, step)
  {
    if !step.Spawn? {
      StepMoves(attempts, s, step, s');
      if step.op == op {
        if step.RunSection? {
          SectionRaisesIff(attempts, s, op, s');
        } else {
          WaitRaisesIff(attempts, s, step, s');
        }
      }
    }
  }

  /** Some step of the run is a cause. */
  ghost predicate HasCause(attempts: int, s: State, op: OpId, steps: seq<Step>) {
    exists k :: CauseAt(attempts, s, op, steps, k)
  }

  ghost predicate CauseAt(attempts: int, s: State, op: OpId, steps: seq<Step>, k: int) {
    && 0 <= k < |steps| && Run(attempts, s, steps[..k]).Some?
    && IsCause(Run(attempts, s, steps[..k]).value, op, steps[k])
  }

  lemma CauseShifts(attempts: int, s: State, op: OpId, steps: seq<Step>, k: nat)
    requires steps != [] && Next(attempts, s, steps[0]).Some?
    ensures CauseAt(attempts, s, op, steps, k + 1)
            <==> CauseAt(attempts, Next(attempts, s, steps[0]).value, op, steps[1..], k)
  {
    if k + 1 <= |steps| {
      assert steps[..k + 1][1..] == steps[1..][..k];
    }
  }

  lemma CauseFirstOrLater(attempts: int, s: State, op: OpId, steps: seq<Step>)
    requires steps != [] && Next(attempts, s, steps[0]).Some?
    ensures HasCause(attempts, s, op, steps)
            <==> IsCause(s, op, steps[0]) || HasCause(attempts, Next(attempts, s, steps[0]).value, op, steps[1..])
  {
    var s1 := Next(attempts, s, steps[0]).value;
    assert steps[..0] == [];
    if k :| CauseAt(attempts, s, op, steps, k) {
      if k > 0 {
        CauseShifts(attempts, s, op, steps, k - 1);
      }
    }
    if IsCause(s, op, steps[0]) {
      assert CauseAt(attempts, s, op, steps, 0);
    }
    if k :| CauseAt(attempts, s1, op, steps[1..], k) {
      CauseShifts(attempts, s, op, steps, k);
    }
  }

  lemma NoStepNoCause(attempts: int, s: State, op: OpId)
    ensures !HasCause(attempts, s, op, [])
  {
  }

  lemma {:induction false} RaisesIffCause(attempts: int, s: State, op: OpId, steps: seq<Step>, s': State)
    requires Locks(s) && op in s.ops && Run(attempts, s, steps) == Some(s')
    ensures op in s'.ops
    ensures Raising(s'.ops[op].pc) <==> Raising(s.ops[op].pc) || HasCause(attempts, s, op, steps)
    decreases |steps|
  {
    if steps == [] {
      NoStepNoCause(attempts, s, op);
    } else {
      var s1 := Next(attempts, s, steps[0]).value;
      KeepsLocks(attempts, s, steps[0], s1);
      StepRaisesIff(attempts, s, steps[0], s1, op);
      RaisesIffCause(attempts, s1, op, steps[1..], s');
      CauseFirstOrLater(attempts, s, op, steps);
    }
  }

  /** A call that is over has raised if and only if there was a cause on the way from its beginning. */
  lemma RaisedIffCause(attempts: int, s: State, op: OpId, call: Call, s1: State, steps: seq<Step>, s2: State)
    requires Reachable(attempts, s) && Next(attempts, s, Spawn(op, call)) == Some(s1)
    requires Run(attempts, s1, steps) == Some(s2) && op in s2.ops && s2.ops[op].pc.Finished?
    ensures s2.ops[op].pc.outcome == Raised <==> HasCause(attempts, s1, op, steps)
  {
    ReachableInv(attempts, s);
    KeepsLocks(attempts, s, Spawn(op, call), s1);
    RaisesIffCause(attempts, s1, op, steps, s2);
  }
}
