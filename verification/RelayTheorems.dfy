/** What every run of the relay guarantees, whatever the interleaving and whatever fails. */
module RelayTheorems {
  import opened Prelude
  import opened RelayMachine
  import opened RelayConservation
  import opened RelayInvariants

  /** `s` is the state after some run of coroutines that starts with a new manager. */
  ghost predicate Reachable(attempts: int, s: State) {
    exists steps :: Run(attempts, INITIAL, steps) == Some(s)
  }

  lemma ReachableInv(attempts: int, s: State)
    requires Reachable(attempts, s)
    ensures Inv(attempts, s)
  {
    var steps :| Run(attempts, INITIAL, steps) == Some(s);
    InvInitially(attempts);
    RunKeepsInv(attempts, INITIAL, steps, s);
  }

  // ----- conservation -----

  /** Every sandbox ever created is the current guest, or waits for cleanup, or was killed, or is in
      the hands of the one operation that holds the replace lock: one of these and no other. */
  lemma SandboxIsInOnePlace(attempts: int, s: State, id: SandboxId)
    requires Reachable(attempts, s)
    ensures One(s.guest.Some? && s.guest.value.id == id) + One(id in s.pending) + One(id in s.killed)
            + One(exists o :: o in s.ops && s.replaceLock == Some(o) && Held(s.ops[o].pc, id) > 0)
            == One(id in s.created)
    ensures forall o :: o in s.ops && Held(s.ops[o].pc, id) > 0 ==> s.replaceLock == Some(o)
    ensures NoDuplicates(s.pending)
  {
    ReachableInv(attempts, s);
    assert Elsewhere(s, id) + HeldNow(s, id) == One(id in s.created);
    forall o | o in s.ops && Held(s.ops[o].pc, id) > 0 ensures s.replaceLock == Some(o) {
      if !InReplaceLock(s.ops[o].pc) {
        OutsideHoldsNothing(s.ops[o].pc, id);
      }
    }
    if s.replaceLock.Some? {
      var h := s.replaceLock.value;
      assert s.replaceLock == Some(h);
    }
    forall x | x in s.pending ensures multiset(s.pending)[x] == 1 {
      assert Elsewhere(s, x) + HeldNow(s, x) == One(x in s.created);
    }
    MultisetOfNoDuplicates(s.pending);
  }

  /** No kill is ever aimed at the current guest, at a sandbox already killed, or at one that
      another operation could kill as well. */
  lemma KillsOnlyRetiredSandboxes(attempts: int, s: State, op: OpId)
    requires Reachable(attempts, s) && op in s.ops && s.ops[op].pc.Killing?
    ensures var id := s.ops[op].pc.id;
            && id in s.created && id !in s.killed && id !in s.pending
            && (s.guest.Some? ==> s.guest.value.id != id)
            && s.replaceLock == Some(op)
  {
    ReachableInv(attempts, s);
    var id := s.ops[op].pc.id;
    assert InReplaceLock(s.ops[op].pc) <==> s.replaceLock == Some(op);
    assert Elsewhere(s, id) + HeldNow(s, id) == One(id in s.created);
  }

  // ----- stop -----

  /** Once `stop` was called no step installs a guest. */
  lemma StoppedStepInstallsNothing(attempts: int, s: State, step: Step, s': State)
    requires Locks(s) && s.stopped && Next(attempts, s, step) == Some(s')
    ensures s'.stopped && (s'.guest == s.guest || s'.guest == None)
  {
    StepGrows(attempts, s, step, s');
    if step.RunSection? {
      StoppedSection(attempts, s, step.op, s');
    }
  }

  lemma StoppedSection(attempts: int, s: State, op: OpId, s': State)
    requires s.stopped && op in s.ops && SectionStep(attempts, s, op) == Some(s')
    ensures s'.guest == s.guest || s'.guest == None
  {
    var free := s.(lock := None);
    match s.ops[op].pc
    case Recording(id, dead, after) =>
      ResumeLeaves(attempts, free.(pending := if dead then Pop(s.pending, id) else Put(s.pending, id)), op, after);
    case Sweeping =>
      var all := Swept(s);
      var s1 := free.(guest := None, pending := [], ops := s.ops[op := s.ops[op].(quota := |all|)]);
      ResumeLeaves(attempts, s1, op, Drain(all));
    case _ =>
  }

  lemma {:induction false} StoppedInstallsNothing(attempts: int, s: State, steps: seq<Step>, s': State)
    requires Inv(attempts, s) && s.stopped && Run(attempts, s, steps) == Some(s')
    ensures s'.stopped && (s'.guest == s.guest || s'.guest == None)
    decreases |steps|
  {
    if steps != [] {
      var s1 := Next(attempts, s, steps[0]).value;
      StoppedStepInstallsNothing(attempts, s, steps[0], s1);
      KeepsInv(attempts, s, steps[0], s1);
      StoppedInstallsNothing(attempts, s1, steps[1..], s');
    }
  }

  lemma ReachableFurther(attempts: int, s: State, steps: seq<Step>, s': State)
    requires Reachable(attempts, s) && Run(attempts, s, steps) == Some(s')
    ensures Reachable(attempts, s')
  {
    var before :| Run(attempts, INITIAL, before) == Some(s);
    RunConcat(attempts, INITIAL, before, s, steps);
    assert Run(attempts, INITIAL, before + steps) == Some(s');
  }

  lemma {:induction false} RunConcat(attempts: int, s: State, first: seq<Step>, mid: State, second: seq<Step>)
    requires Run(attempts, s, first) == Some(mid)
    ensures Run(attempts, s, first + second) == Run(attempts, mid, second)
    decreases |first|
  {
    if first == [] {
      assert first + second == second;
    } else {
      assert (first + second)[1..] == first[1..] + second;
      RunConcat(attempts, Next(attempts, s, first[0]).value, first[1..], mid, second);
    }
  }

  /** After the replace-lock section of `stop` the manager never has a guest again. */
  lemma NoGuestAfterSweep(attempts: int, s: State, stop: OpId, steps: seq<Step>, s': State)
    requires Reachable(attempts, s) && stop in s.ops && AfterSweep(s.ops[stop].pc)
    requires Run(attempts, s, steps) == Some(s')
    ensures s'.stopped && s'.guest == None
  {
    ReachableInv(attempts, s);
    assert OpOk(attempts, s, stop);
    StoppedInstallsNothing(attempts, s, steps, s');
  }

  /** A sandbox that is not the guest when `stop` is called never becomes the guest; once no
      operation holds the replace lock it was killed or waits for cleanup. */
  lemma RacingCandidateIsReaped(attempts: int, s: State, id: SandboxId, steps: seq<Step>, s': State)
    requires Reachable(attempts, s) && s.stopped && (s.guest.Some? ==> s.guest.value.id != id)
    requires Run(attempts, s, steps) == Some(s') && id in s'.created
    ensures s'.guest.Some? ==> s'.guest.value.id != id
    ensures s'.replaceLock == None ==> (id in s'.killed) != (id in s'.pending)
  {
    ReachableInv(attempts, s);
    StoppedInstallsNothing(attempts, s, steps, s');
    ReachableFurther(attempts, s, steps, s');
    ReachableInv(attempts, s');
    assert Elsewhere(s', id) + HeldNow(s', id) == One(id in s'.created);
  }

  // ----- kill calls -----

  lemma {:induction false} SweptQuotaStays(attempts: int, s: State, op: OpId, steps: seq<Step>, s': State)
    requires Inv(attempts, s) && op in s.ops && AfterSweep(s.ops[op].pc) && Run(attempts, s, steps) == Some(s')
    ensures op in s'.ops && AfterSweep(s'.ops[op].pc) && s'.ops[op].quota == s.ops[op].quota
    decreases |steps|
  {
    if steps != [] {
      var s1 := Next(attempts, s, steps[0]).value;
      KeepsInv(attempts, s, steps[0], s1);
      if !steps[0].Spawn? {
        StepMoves(attempts, s, steps[0], s1);
        if steps[0].op == op {
          SweptStepKeepsQuota(attempts, s, steps[0], s1);
        }
      }
      SweptQuotaStays(attempts, s1, op, steps[1..], s');
    }
  }

  lemma SweptStepKeepsQuota(attempts: int, s: State, step: Step, s': State)
    requires Next(attempts, s, step) == Some(s') && !step.Spawn? && AfterSweep(s.ops[step.op].pc)
    ensures step.op in s'.ops && AfterSweep(s'.ops[step.op].pc)
    ensures s'.ops[step.op].quota == s.ops[step.op].quota
  {
  }

  lemma SweptKillBound(attempts: int, s: State, op: OpId, steps: seq<Step>, s': State, n: nat)
    requires Inv(attempts, s) && op in s.ops && AfterSweep(s.ops[op].pc) && s.ops[op].quota <= n
    requires Run(attempts, s, steps) == Some(s')
    ensures op in s'.ops && s'.ops[op].killCalls <= Allowance(attempts) * n
  {
    SweptQuotaStays(attempts, s, op, steps, s');
    RunKeepsInv(attempts, s, steps, s');
    assert OpOk(attempts, s', op);
    QuotaBound(attempts, s'.ops[op], n);
  }

  /** A call of `kill` by `op`, whatever comes of it. */
  predicate IsKill(op: OpId, step: Step) {
    step.op == op && (step.KillReturns? || step.KillRaises?)
  }

  /** How often `op` calls `kill` in a run. */
  function KillSteps(op: OpId, steps: seq<Step>): nat {
    if steps == [] then 0 else (if IsKill(op, steps[0]) then 1 else 0) + KillSteps(op, steps[1..])
  }

  function KillCalls(s: State, op: OpId): nat {
    if op in s.ops then s.ops[op].killCalls else 0
  }

  lemma MoverCounts(attempts: int, s: State, step: Step, s': State)
    requires Next(attempts, s, step) == Some(s') && !step.Spawn? && step.op in s'.ops
    ensures s'.ops[step.op].killCalls == s.ops[step.op].killCalls + (if IsKill(step.op, step) then 1 else 0)
  {
    match step
    case RunSection(_) => SectionKillsNothing(attempts, s, step.op, s');
    case CreateReturns(_, id, hasToken) => CreateKillsNothing(attempts, s, step.op, id, hasToken, s');
    case _ =>
  }

  lemma SectionKillsNothing(attempts: int, s: State, op: OpId, s': State)
    requires op in s.ops && SectionStep(attempts, s, op) == Some(s')
    ensures op in s'.ops && s'.ops[op].killCalls == s.ops[op].killCalls
  {
    var free := s.(lock := None);
    match s.ops[op].pc
    case Recording(id, dead, after) =>
      ResumeKillsNothing(attempts, free.(pending := if dead then Pop(s.pending, id) else Put(s.pending, id)), op, after);
    case Sweeping =>
      var all := Swept(s);
      var s1 := free.(guest := None, pending := [], ops := s.ops[op := s.ops[op].(quota := |all|)]);
      ResumeKillsNothing(attempts, s1, op, Drain(all));
    case _ =>
  }

  lemma ResumeKillsNothing(attempts: int, s: State, op: OpId, after: After)
    requires op in s.ops
    ensures var s' := Resume(attempts, s, op, after);
            op in s'.ops && s'.ops[op].killCalls == s.ops[op].killCalls
  {
  }

  lemma CreateKillsNothing(attempts: int, s: State, op: OpId, id: SandboxId, hasToken: bool, s': State)
    requires op in s.ops && CreateStep(attempts, s, op, id, hasToken) == Some(s')
    ensures op in s'.ops && s'.ops[op].killCalls == s.ops[op].killCalls
  {
  }

  lemma StepCounts(attempts: int, s: State, step: Step, s': State, op: OpId)
    requires Locks(s) && Next(attempts, s, step) == Some(s')
    ensures KillCalls(s', op) == KillCalls(s, op) + (if IsKill(op, step) then 1 else 0)
  {
    if !step.Spawn? {
      StepMoves(attempts, s, step, s');
      MoverCounts(attempts, s, step, s');
    }
  }

  /** The counter of an operation grows by one with each of its calls of `kill`, and in no other way. */
  lemma {:induction false} KillCallsAreSteps(attempts: int, s: State, op: OpId, steps: seq<Step>, s': State)
    requires Locks(s) && Run(attempts, s, steps) == Some(s')
    ensures KillCalls(s', op) == KillCalls(s, op) + KillSteps(op, steps)
    decreases |steps|
  {
    if steps != [] {
      var s1 := Next(attempts, s, steps[0]).value;
      StepCounts(attempts, s, steps[0], s1, op);
      KeepsLocks(attempts, s, steps[0], s1);
      KillCallsAreSteps(attempts, s1, op, steps[1..], s');
    }
  }

  /** A `stop` calls `kill` at most attempts times for each sandbox it finds, pending or guest, however long it
      runs. */
  lemma StopKillBound(attempts: int, s: State, op: OpId, s1: State, steps: seq<Step>, s2: State)
    requires Reachable(attempts, s) && op in s.ops && s.ops[op].pc.Sweeping?
    requires Next(attempts, s, RunSection(op)) == Some(s1) && Run(attempts, s1, steps) == Some(s2)
    ensures var found := |s.pending| + (if s.guest.Some? then 1 else 0);
            KillSteps(op, steps) <= (if attempts < 0 then 0 else attempts) * found
  {
    ReachableInv(attempts, s);
    KeepsInv(attempts, s, RunSection(op), s1);
    SweepStarts(attempts, s, op, s1);
    SweptKillBound(attempts, s1, op, steps, s2, |s.pending| + (if s.guest.Some? then 1 else 0));
    KillCallsAreSteps(attempts, s1, op, steps, s2);
  }

  lemma QuotaBound(attempts: int, op: Op, n: nat)
    requires QuotaOk(attempts, op) && op.quota <= n
    ensures op.killCalls <= Allowance(attempts) * n
  {
    RemainingIsNonNegative(attempts, op.pc);
    Monotone(Allowance(attempts), op.quota, n);
  }

  lemma RemainingIsNonNegative(attempts: int, pc: Pc)
    requires pc.Killing? ==> pc.attempt <= attempts
    ensures Remaining(attempts, pc) >= 0
  {
    if Cleanup(pc).Some? {
      Monotone(Allowance(attempts), 0, |Rest(Cleanup(pc).value)|);
    }
  }

  lemma Monotone(a: nat, m: nat, n: nat)
    requires m <= n
    ensures a * m <= a * n
  {
  }

  lemma SweepStarts(attempts: int, s: State, op: OpId, s1: State)
    requires op in s.ops && s.ops[op].pc.Sweeping? && Next(attempts, s, RunSection(op)) == Some(s1)
    ensures op in s1.ops && AfterSweep(s1.ops[op].pc)
    ensures s1.ops[op].quota == |s.pending| + (if s.guest.Some? then 1 else 0)
  {
  }

  lemma OneQuota(attempts: int, s: State, op: OpId)
    requires Reachable(attempts, s) && op in s.ops && !s.ops[op].call.Stop?
    ensures s.ops[op].killCalls <= Allowance(attempts)
  {
    ReachableInv(attempts, s);
    assert OpOk(attempts, s, op);
    QuotaBound(attempts, s.ops[op], 1);
  }

  lemma CountFromStart(attempts: int, steps: seq<Step>, s: State, op: OpId)
    requires Run(attempts, INITIAL, steps) == Some(s) && op in s.ops
    ensures s.ops[op].killCalls == KillSteps(op, steps)
  {
    KillCallsAreSteps(attempts, INITIAL, op, steps, s);
  }

  /** A replacement calls `kill` at most attempts times in all: for its failed candidate, or for the guest it
      replaced. */
  lemma ReplaceKillBound(attempts: int, steps: seq<Step>, s: State, op: OpId)
    requires Run(attempts, INITIAL, steps) == Some(s) && op in s.ops && !s.ops[op].call.Stop?
    ensures KillSteps(op, steps) <= if attempts < 0 then 0 else attempts
  {
    OneQuota(attempts, s, op);
    CountFromStart(attempts, steps, s, op);
  }

  // ----- locks -----

  /** Nothing waits for a lock it holds, and nothing that holds `_lock` waits for any lock. */
  lemma LockOrder(attempts: int, s: State, op: OpId)
    requires Reachable(attempts, s) && op in s.ops
    ensures WantsReplaceLock(s.ops[op].pc) ==> s.replaceLock != Some(op) && s.lock != Some(op)
    ensures WantsLock(s.ops[op].pc) ==> s.lock != Some(op)
    ensures forall o :: o in s.ops && o != op && InReplaceLock(s.ops[op].pc) ==> !InReplaceLock(s.ops[o].pc)
  {
    ReachableInv(attempts, s);
    assert InLock(s.ops[op].pc) <==> s.lock == Some(op);
    assert InReplaceLock(s.ops[op].pc) <==> s.replaceLock == Some(op);
  }

  /** An operation that waits for no lock can always go on. */
  lemma FreeToGo(attempts: int, s: State, op: OpId)
    requires op in s.ops && !s.ops[op].pc.Finished?
    requires WantsReplaceLock(s.ops[op].pc) ==> s.replaceLock == None
    requires WantsLock(s.ops[op].pc) ==> s.lock == None
    ensures exists step: Step :: !step.Spawn? && step.op == op && Next(attempts, s, step).Some?
  {
    var pc := s.ops[op].pc;
    if InLock(pc) {
      assert Next(attempts, s, RunSection(op)).Some?;
    } else if WantsLock(pc) || WantsReplaceLock(pc) {
      assert Next(attempts, s, Acquire(op)).Some?;
    } else {
      WaitCanEnd(attempts, s, op);
    }
  }

  lemma WaitCanEnd(attempts: int, s: State, op: OpId)
    requires op in s.ops
    requires var pc := s.ops[op].pc; pc.Creating? || pc.WaitingReady? || pc.Killing? || pc.Snapshotting?
    ensures exists step: Step :: !step.Spawn? && step.op == op && Next(attempts, s, step).Some?
  {
    var pc := s.ops[op].pc;
    var step := if pc.Creating? then CreateFails(op) else if pc.WaitingReady? then NeverReady(op)
                else if pc.Killing? then KillReturns(op) else SnapshotRaises(op);
    assert Next(attempts, s, step).Some?;
  }

  /** Deadlock freedom: while some operation is unfinished, some operation can take a step. */
  lemma NoDeadlock(attempts: int, s: State, op: OpId)
    requires Reachable(attempts, s) && op in s.ops && !s.ops[op].pc.Finished?
    ensures exists step: Step :: !step.Spawn? && Next(attempts, s, step).Some?
  {
    ReachableInv(attempts, s);
    if s.lock.Some? {
      var h := s.lock.value;
      assert InLock(s.ops[h].pc) <==> s.lock == Some(h);
      FreeToGo(attempts, s, h);
    } else if s.replaceLock.Some? {
      var h := s.replaceLock.value;
      assert InReplaceLock(s.ops[h].pc) <==> s.replaceLock == Some(h);
      FreeToGo(attempts, s, h);
    } else {
      FreeToGo(attempts, s, op);
    }
  }

  function Phase(pc: Pc): nat {
    match pc
    case WantReplaceLock => 12
    case WantGeneration => 11
    case ReadingGeneration => 10
    case Creating(_) => 9
    case WaitingReady(_) => 8
    case WantPublish(_) => 7
    case Publishing(_) => 6
    case WantStopFlag => 10
    case SettingStopFlag => 9
    case WantStopReplaceLock => 8
    case WantSweep => 7
    case Sweeping => 6
    case WantCurrent => 8
    case ReadingCurrent => 7
    case Snapshotting(_) => 6
    case Finished(_) => 0
    case _ => 5
  }

  /** The steps a cleanup can still take. */
  function Work(attempts: int, pc: Pc): int {
    match pc
    case Killing(_, attempt, after) => attempts - attempt + 3 + (Allowance(attempts) + 2) * |Rest(after)|
    case WantRecord(_, _, after) => 2 + (Allowance(attempts) + 2) * |Rest(after)|
    case Recording(_, _, after) => 1 + (Allowance(attempts) + 2) * |Rest(after)|
    case _ => 0
  }

  predicate RunsDown(attempts: int, before: Pc, after: Pc) {
    Phase(after) < Phase(before)
    || (Phase(after) == Phase(before) && 0 <= Work(attempts, after) < Work(attempts, before))
  }

  lemma NextCleanupRunsDown(attempts: int, id: SandboxId, rest: seq<SandboxId>, all: seq<SandboxId>)
    requires |all| == |rest| + 1
    ensures var pc := CleanupPc(attempts, id, Drain(rest));
            Phase(pc) == 5 && 0 <= Work(attempts, pc) < Work(attempts, Recording(id, true, Drain(all)))
  {
    var a := Allowance(attempts);
    assert (a + 2) * |rest| + (a + 2) == (a + 2) * |all|;
    Monotone(a + 2, 0, |rest|);
  }

  lemma ResumeRunsDown(attempts: int, s: State, op: OpId, after: After, pc: Pc)
    requires op in s.ops
    requires Phase(pc) > 5 || (pc.Recording? && pc.after == after)
    ensures op in Resume(attempts, s, op, after).ops
    ensures RunsDown(attempts, pc, Resume(attempts, s, op, after).ops[op].pc)
  {
    if after.Drain? && after.rest != [] {
      NextCleanupRunsDown(attempts, after.rest[0], after.rest[1..], after.rest);
      assert Resume(attempts, s, op, after).ops[op].pc == CleanupPc(attempts, after.rest[0], Drain(after.rest[1..]));
    }
  }

  lemma SectionRunsDown(attempts: int, s: State, op: OpId, s': State)
    requires op in s.ops && SectionStep(attempts, s, op) == Some(s')
    ensures op in s'.ops && RunsDown(attempts, s.ops[op].pc, s'.ops[op].pc)
  {
    var free := s.(lock := None);
    var pc := s.ops[op].pc;
    match pc
    case Recording(id, dead, after) =>
      ResumeRunsDown(attempts, free.(pending := if dead then Pop(s.pending, id) else Put(s.pending, id)), op, after, pc);
    case Sweeping =>
      var all := Swept(s);
      var s1 := free.(guest := None, pending := [], ops := s.ops[op := s.ops[op].(quota := |all|)]);
      ResumeRunsDown(attempts, s1, op, Drain(all), pc);
    case _ =>
  }

  /** No operation runs for ever: each of its steps brings it closer to its end and moves no other. */
  lemma StepsRunDown(attempts: int, s: State, step: Step, s': State)
    requires Reachable(attempts, s) && Next(attempts, s, step) == Some(s') && !step.Spawn?
    ensures step.op in s'.ops && RunsDown(attempts, s.ops[step.op].pc, s'.ops[step.op].pc)
    ensures forall o :: o in s.ops && o != step.op ==> o in s'.ops && s'.ops[o] == s.ops[o]
  {
    ReachableInv(attempts, s);
    StepMoves(attempts, s, step, s');
    assert OpOk(attempts, s, step.op);
    if step.RunSection? {
      SectionRunsDown(attempts, s, step.op, s');
    } else {
      WaitRunsDown(attempts, s, step, s');
    }
  }

  lemma WaitRunsDown(attempts: int, s: State, step: Step, s': State)
    requires Next(attempts, s, step) == Some(s') && !step.Spawn? && !step.RunSection? && step.op in s'.ops
    requires QuotaOk(attempts, s.ops[step.op])
    ensures RunsDown(attempts, s.ops[step.op].pc, s'.ops[step.op].pc)
  {
    var op := step.op;
    if step.Acquire? {
      AcquireRunsDown(attempts, s, op, s');
    } else if step.KillReturns? || step.KillRaises? {
      KillRunsDown(attempts, s, op, s');
    } else {
      assert Phase(s'.ops[op].pc) < Phase(s.ops[op].pc);
    }
  }

  lemma AcquireRunsDown(attempts: int, s: State, op: OpId, s': State)
    requires op in s.ops && AcquireStep(s, op) == Some(s')
    ensures op in s'.ops && RunsDown(attempts, s.ops[op].pc, s'.ops[op].pc)
  {
  }

  lemma KillRunsDown(attempts: int, s: State, op: OpId, s': State)
    requires op in s.ops && QuotaOk(attempts, s.ops[op])
    requires KillReturnsStep(s, op) == Some(s') || KillRaisesStep(attempts, s, op) == Some(s')
    ensures op in s'.ops && RunsDown(attempts, s.ops[op].pc, s'.ops[op].pc)
  {
  }

  // ----- generations -----

  /** The k-th published guest has generation k, whatever failed in between, and the current guest is
      the last one published. */
  lemma GenerationsHaveNoGaps(attempts: int, s: State)
    requires Reachable(attempts, s)
    ensures forall k :: 0 <= k < |s.published| ==> s.published[k].guest.generation == k + 1
    ensures s.guest.Some? ==> s.published != [] && s.published[|s.published| - 1].guest == s.guest.value
  {
    ReachableInv(attempts, s);
  }

  /** The guest changes in two places only: a replacement installs a candidate that became ready,
      before any `stop`; or the section of a `stop` clears it. */
  lemma GuestChanges(attempts: int, s: State, step: Step, s': State)
    requires Reachable(attempts, s) && Next(attempts, s, step) == Some(s') && s'.guest != s.guest
    ensures step.RunSection?
    ensures if s'.guest.Some? then
              var g := s'.guest.value;
              && !s.stopped && s.ops[step.op].pc == Publishing(g)
              && Ready(g.id, g.generation, g.seed) in s.log
              && g.id in s.created && s.created[g.id] == Birth(step.op, g.seed)
              && g.generation == (if s.guest.Some? then s.guest.value.generation + 1 else 1)
            else s.stopped && s.ops[step.op].pc.Sweeping?
  {
    ReachableInv(attempts, s);
    OnlySectionsChangeGuest(attempts, s, step, s');
    assert OpOk(attempts, s, step.op);
    GuestChangeSection(attempts, s, step.op, s');
  }

  lemma OnlySectionsChangeGuest(attempts: int, s: State, step: Step, s': State)
    requires Next(attempts, s, step) == Some(s') && s'.guest != s.guest
    ensures step.RunSection? && step.op in s.ops && SectionStep(attempts, s, step.op) == Some(s')
  {
  }

  lemma GuestChangeSection(attempts: int, s: State, op: OpId, s': State)
    requires op in s.ops && SectionStep(attempts, s, op) == Some(s') && s'.guest != s.guest
    requires CandidateOk(s, op) && FlagsOk(s, s.ops[op].pc) && Generations(s)
    ensures if s'.guest.Some? then
              var g := s'.guest.value;
              && !s.stopped && s.ops[op].pc == Publishing(g)
              && Ready(g.id, g.generation, g.seed) in s.log
              && g.id in s.created && s.created[g.id] == Birth(op, g.seed)
              && g.generation == (if s.guest.Some? then s.guest.value.generation + 1 else 1)
            else s.stopped && s.ops[op].pc.Sweeping?
  {
    var free := s.(lock := None);
    match s.ops[op].pc
    case Publishing(_) =>
    case Recording(id, dead, after) =>
      ResumeLeaves(attempts, free.(pending := if dead then Pop(s.pending, id) else Put(s.pending, id)), op, after);
    case Sweeping =>
      var all := Swept(s);
      var s1 := free.(guest := None, pending := [], ops := s.ops[op := s.ops[op].(quota := |all|)]);
      ResumeLeaves(attempts, s1, op, Drain(all));
    case _ =>
  }

  /** A call that raised published nothing; one that returned published exactly what it returned. */
  lemma OutcomeTellsPublication(attempts: int, s: State, op: OpId, p: Publication)
    requires Reachable(attempts, s) && op in s.ops && s.ops[op].pc.Finished? && p.op == op
    ensures p in s.published <==> s.ops[op].pc.outcome == Returned(p.guest)
  {
    ReachableInv(attempts, s);
    assert OpOk(attempts, s, op);
  }

  // ----- where a reverted guest comes from -----

  lemma {:induction false} CallStays(attempts: int, s: State, op: OpId, steps: seq<Step>, s': State)
    requires Inv(attempts, s) && op in s.ops && Run(attempts, s, steps) == Some(s')
    ensures op in s'.ops && s'.ops[op].source == s.ops[op].source
    decreases |steps|
  {
    if steps != [] {
      var s1 := Next(attempts, s, steps[0]).value;
      KeepsInv(attempts, s, steps[0], s1);
      if !steps[0].Spawn? {
        StepMoves(attempts, s, steps[0], s1);
      }
      CallStays(attempts, s1, op, steps[1..], s');
    }
  }

  /** A revert to a name under which a snapshot was recorded starts its sandbox from such a snapshot
      and never from the template, unless the name or that snapshot's id is empty; a revert to any
      other name starts from the template. */
  lemma RevertStartsFromItsSnapshot(attempts: int, s: State, op: OpId, name: string, s1: State,
                                    steps: seq<Step>, s2: State, id: SandboxId)
    requires Reachable(attempts, s) && Next(attempts, s, Spawn(op, Revert(name))) == Some(s1)
    requires Run(attempts, s1, steps) == Some(s2) && id in s2.created && s2.created[id].op == op
    ensures (exists v :: SavedUnder(s.log, name, v)) <==> name in s.snapshots
    ensures name in s.snapshots ==> SavedUnder(s.log, name, s.snapshots[name])
    ensures s2.created[id].seed
            == if name != "" && name in s.snapshots && s.snapshots[name] != "" then Snapshot(s.snapshots[name])
               else Template
  {
    ReachableInv(attempts, s);
    KeepsInv(attempts, s, Spawn(op, Revert(name)), s1);
    CallStays(attempts, s1, op, steps, s2);
    RunKeepsInv(attempts, s1, steps, s2);
    if v :| SavedUnder(s.log, name, v) {
      var x :| SnapshotSaved(x, name, v) in s.log;
      assert SnapshotSaved(x, name, v).name in s.snapshots;
    }
  }
}
