/**
 `GuestManager` as the object it is: coroutines that update its fields. Each method is one coroutine
 that runs without another one in between; the outcomes of the remote calls are its arguments. The
 ghost field `now` is the relay machine, which takes a step whenever the body passes a suspension
 point: each body, run alone, is a run of the machine. Interleavings are the machine's own.
 */
module GuestManagers {
  import opened Prelude
  import opened RelayMachine
  import opened RelayConservation
  import opened RelayInvariants
  import opened RelayTheorems

  /** What `Sandbox.create` and the readiness poll do for one candidate. */
  datatype Creation = CreationFails | Creates(id: SandboxId, hasToken: bool, ready: bool)

  /** Some attempt in `from..attempts` kills the sandbox. */
  predicate Dies(attempts: int, kill: int -> bool, from: int)
    decreases attempts - from
  {
    from <= attempts && (kill(from) || Dies(attempts, kill, from + 1))
  }

  lemma {:induction false} DiesMeans(attempts: int, kill: int -> bool, from: int)
    ensures Dies(attempts, kill, from) <==> exists n :: from <= n <= attempts && kill(n)
    decreases attempts - from
  {
    if from <= attempts {
      DiesMeans(attempts, kill, from + 1);
    }
  }

  lemma {:induction false} RunStep(attempts: int, s: State, steps: seq<Step>, m: State, step: Step)
    requires Run(attempts, s, steps) == Some(m) && Next(attempts, m, step).Some?
    ensures Run(attempts, s, steps + [step]) == Next(attempts, m, step)
  {
    RunConcat(attempts, s, steps, m, [step]);
    assert Run(attempts, Next(attempts, m, step).value, [step][1..]) == Next(attempts, m, step);
  }

  /** Two machine states with the same manager fields, up to the event log. */
  predicate SameFields(s: State, s': State) {
    && s.guest == s'.guest && s.stopped == s'.stopped && s.pending == s'.pending
    && s.snapshots == s'.snapshots && s.lock == s'.lock && s.replaceLock == s'.replaceLock
  }

  predicate At(s: State, op: OpId, pc: Pc) {
    op in s.ops && s.ops[op].pc == pc
  }

  lemma KillReturnsIs(attempts: int, s: State, op: OpId, id: SandboxId, attempt: int, after: After)
    requires At(s, op, Killing(id, attempt, after))
    ensures Next(attempts, s, KillReturns(op)).Some?
    ensures var s' := Next(attempts, s, KillReturns(op)).value;
            && At(s', op, WantRecord(id, true, after)) && SameFields(s, s')
            && s'.log == s.log + [Cleaned(id)]
  {
  }

  lemma KillRaisesIs(attempts: int, s: State, op: OpId, id: SandboxId, attempt: int, after: After)
    requires At(s, op, Killing(id, attempt, after))
    ensures Next(attempts, s, KillRaises(op)).Some?
    ensures var s' := Next(attempts, s, KillRaises(op)).value;
            && SameFields(s, s')
            && (if attempt < attempts then At(s', op, Killing(id, attempt + 1, after)) && s'.log == s.log
                else At(s', op, WantRecord(id, false, after)) && s'.log == s.log + [CleanupFailed(id)])
  {
  }

  /** Only the place of `op` changed, not what it was called with and no other operation. */
  ghost predicate OnlyMoved(s: State, op: OpId, s': State)
    requires op in s.ops
  {
    && s'.created == s.created
    && op in s'.ops && s'.ops[op].source == s.ops[op].source && s'.ops[op].call == s.ops[op].call
    && (forall o :: o in s.ops && o != op ==> o in s'.ops && s'.ops[o] == s.ops[o])
  }

  lemma GotoOnlyMoves(s: State, op: OpId, lock: Option<OpId>, replaceLock: Option<OpId>, pc: Pc)
    requires op in s.ops
    ensures var s' := Goto(s.(lock := lock, replaceLock := replaceLock), op, pc);
            OnlyMoved(s, op, s') && At(s', op, pc) && s'.log == s.log && s'.ops.Keys == s.ops.Keys
  {
  }

  /** A call as it comes in: the point it first waits at, and nothing else changed. */
  lemma SpawnIs(attempts: int, s: State, op: OpId, call: Call)
    requires op !in s.ops
    ensures var s' := Next(attempts, s, Spawn(op, call));
            && s'.Some? && SameFields(s, s'.value) && s'.value.log == s.log && s'.value.created == s.created
            && At(s'.value, op, match call
                                case Replace => WantReplaceLock
                                case Revert(_) => WantReplaceLock
                                case SaveSnapshot(_) => WantCurrent
                                case Stop => WantStopFlag)
            && s'.value.ops[op].call == call && s'.value.ops[op].source == SourceFor(s.snapshots, call)
            && s'.value.ops.Keys == s.ops.Keys + {op}
            && forall o :: o in s.ops ==> s'.value.ops[o] == s.ops[o]
  {
  }

  lemma AcquireIs(attempts: int, s: State, op: OpId, pc: Pc)
    requires At(s, op, pc) && WantsLock(pc) && s.lock == None
    ensures Next(attempts, s, Acquire(op)) == Some(Goto(s.(lock := Some(op)), op, Afterwards(pc).value))
  {
  }

  lemma AcquireReplaceIs(attempts: int, s: State, op: OpId, pc: Pc)
    requires At(s, op, pc) && WantsReplaceLock(pc) && s.replaceLock == None
    ensures Next(attempts, s, Acquire(op)) == Some(Goto(s.(replaceLock := Some(op)), op, Afterwards(pc).value))
  {
  }

  lemma StartCleanupIs(attempts: int, s: State, op: OpId, id: SandboxId, after: After)
    requires op in s.ops
    ensures var s' := StartCleanup(attempts, s, op, id, after);
            At(s', op, CleanupPc(attempts, id, after)) && SameFields(s, s') && s'.log == s.log + GivesUp(attempts, id)
  {
  }

  lemma CreateFailsIs(attempts: int, s: State, op: OpId, generation: nat)
    requires At(s, op, Creating(generation))
    ensures Next(attempts, s, CreateFails(op)) == Some(Leave(s, op, Raised))
  {
  }

  lemma TokenlessIs(attempts: int, s: State, op: OpId, generation: nat, id: SandboxId)
    requires At(s, op, Creating(generation)) && id !in s.created
    ensures var s' := Next(attempts, s, CreateReturns(op, id, false));
            && s'.Some? && At(s'.value, op, CleanupPc(attempts, id, RaiseError))
            && SameFields(s, s'.value) && s'.value.log == s.log + GivesUp(attempts, id)
  {
  }

  lemma CreateReturnsIs(attempts: int, s: State, op: OpId, generation: nat, id: SandboxId)
    requires At(s, op, Creating(generation)) && id !in s.created
    ensures var seed := SeedOf(s.ops[op].source);
            var s' := Next(attempts, s, CreateReturns(op, id, true));
            && s'.Some? && At(s'.value, op, WaitingReady(Guest(id, generation, seed)))
            && SameFields(s, s'.value) && s'.value.log == s.log + [Created(id, generation, seed)]
  {
  }

  lemma NeverReadyIs(attempts: int, s: State, op: OpId, g: Guest)
    requires At(s, op, WaitingReady(g))
    ensures Next(attempts, s, NeverReady(op)) == Some(StartCleanup(attempts, s, op, g.id, RaiseError))
  {
  }

  lemma BecomesReadyIs(attempts: int, s: State, op: OpId, g: Guest)
    requires At(s, op, WaitingReady(g))
    ensures var s' := Next(attempts, s, BecomesReady(op));
            && s'.Some? && At(s'.value, op, WantPublish(g))
            && SameFields(s, s'.value) && s'.value.log == s.log + [Ready(g.id, g.generation, g.seed)]
  {
  }

  lemma FlagIs(attempts: int, s: State, op: OpId)
    requires At(s, op, SettingStopFlag)
    ensures Next(attempts, s, RunSection(op))
            == Some(Goto(s.(lock := None, stopped := true), op, WantStopReplaceLock))
  {
  }

  lemma GenerationIs(attempts: int, s: State, op: OpId)
    requires At(s, op, ReadingGeneration)
    ensures Next(attempts, s, RunSection(op)) == Some(ReadGenerationSection(s.(lock := None), op))
  {
  }

  lemma PublishIs(attempts: int, s: State, op: OpId, candidate: Guest)
    requires At(s, op, Publishing(candidate))
    ensures Next(attempts, s, RunSection(op)) == Some(PublishSection(attempts, s.(lock := None), op, candidate))
  {
  }

  /** Where the machine goes after a publishing section. */
  lemma PublishSectionIs(attempts: int, s: State, op: OpId, candidate: Guest)
    requires op in s.ops
    ensures var s' := PublishSection(attempts, s, op, candidate);
            if s.stopped then
              At(s', op, CleanupPc(attempts, candidate.id, RaiseError)) && SameFields(s, s')
              && s'.log == s.log + GivesUp(attempts, candidate.id)
            else if s.guest.Some? then
              At(s', op, CleanupPc(attempts, s.guest.value.id, ReturnGuest(candidate)))
              && SameFields(s.(guest := Some(candidate)), s')
              && s'.log == s.log + GivesUp(attempts, s.guest.value.id)
            else At(s', op, Finished(Returned(candidate))) && s'.log == s.log
                 && SameFields(s.(guest := Some(candidate), replaceLock := None), s')
  {
  }

  lemma SweepIs(attempts: int, s: State, op: OpId)
    requires At(s, op, Sweeping)
    ensures Next(attempts, s, RunSection(op)) == Some(SweepSection(attempts, s.(lock := None), op))
  {
  }

  lemma SweepSectionIs(attempts: int, s: State, op: OpId)
    requires op in s.ops
    ensures SweepSection(attempts, s, op)
            == Resume(attempts, s.(guest := None, pending := [], ops := s.ops[op := s.ops[op].(quota := |Swept(s)|)]),
                      op, Drain(Swept(s)))
  {
  }

  lemma ReadGenerationSectionIs(s: State, op: OpId)
    requires op in s.ops
    ensures var s' := ReadGenerationSection(s, op);
            var generation := if s.guest.Some? then s.guest.value.generation + 1 else 1;
            if s.stopped then At(s', op, Finished(Raised)) && s'.log == s.log && SameFields(s.(replaceLock := None), s')
            else At(s', op, Creating(generation)) && SameFields(s, s')
                 && s'.log == s.log + [CreateStarted(generation, SeedOf(s.ops[op].source))]
    ensures OnlyMoved(s, op, ReadGenerationSection(s, op))
    ensures ReadGenerationSection(s, op).ops.Keys == s.ops.Keys
  {
  }

  lemma LeaveIs(s: State, op: OpId, outcome: Outcome)
    requires op in s.ops
    ensures var s' := Leave(s, op, outcome);
            At(s', op, Finished(outcome)) && s'.log == s.log && SameFields(s.(replaceLock := None), s')
  {
  }

  /** `_pending_cleanup` after `stop` tried to kill the sandboxes in `all`, one by one. */
  function Drained(attempts: int, pending: seq<SandboxId>, all: seq<SandboxId>,
                   kill: (SandboxId, int) -> bool): seq<SandboxId>
  {
    if all == [] then pending
    else
      var last := all[|all| - 1];
      Tracked(Drained(attempts, pending, all[..|all| - 1], kill), last, Dies(attempts, n => kill(last, n), 1))
  }

  lemma DrainedNext(attempts: int, all: seq<SandboxId>, i: nat, kill: (SandboxId, int) -> bool)
    requires i < |all|
    ensures Drained(attempts, [], all[..i + 1], kill)
            == Tracked(Drained(attempts, [], all[..i], kill), all[i], Dies(attempts, n => kill(all[i], n), 1))
  {
    assert all[..i + 1][..i] == all[..i];
  }

  /** From an empty dictionary, exactly the sandboxes that survived every attempt are left. */
  lemma {:induction false} DrainedKeepsSurvivors(attempts: int, all: seq<SandboxId>, kill: (SandboxId, int) -> bool)
    requires NoDuplicates(all)
    ensures Drained(attempts, [], all, kill) == Filter(all, id => !Dies(attempts, n => kill(id, n), 1))
  {
    if all != [] {
      var n := |all| - 1;
      DrainedKeepsSurvivors(attempts, all[..n], kill);
      assert all[n] !in all[..n];
      PopMissing(Drained(attempts, [], all[..n], kill), all[n]);
    }
  }

  lemma ReadCurrentIs(attempts: int, s: State, op: OpId)
    requires At(s, op, ReadingCurrent)
    ensures Next(attempts, s, RunSection(op))
            == Some(Goto(s.(lock := None), op,
                         if s.guest.Some? then Snapshotting(s.guest.value) else Finished(Raised)))
  {
  }

  lemma SnapshotIs(attempts: int, s: State, op: OpId, g: Guest, name: string, snapshotId: Option<string>)
    requires At(s, op, Snapshotting(g)) && s.ops[op].call == SaveSnapshot(name)
    ensures if snapshotId.Some? then
              Next(attempts, s, SnapshotReturns(op, snapshotId.value))
              == Some(Goto(s.(snapshots := s.snapshots[name := snapshotId.value],
                              log := s.log + [SnapshotSaved(g.id, name, snapshotId.value)]),
                           op, Finished(Saved(snapshotId.value))))
            else Next(attempts, s, SnapshotRaises(op)) == Some(Goto(s, op, Finished(Raised)))
  {
  }

  lemma SweptIsDistinct(attempts: int, s: State)
    requires Reachable(attempts, s)
    ensures NoDuplicates(Swept(s))
  {
    ReachableInv(attempts, s);
    forall x | x in Swept(s) ensures multiset(Swept(s))[x] == 1 {
      assert Elsewhere(s, x) + HeldNow(s, x) == One(x in s.created);
    }
    MultisetOfNoDuplicates(Swept(s));
  }

  /** What `stop` leaves pending: exactly the manager's sandboxes that survived every attempt, in order. */
  lemma StopLeavesSurvivors(attempts: int, s: State, kill: (SandboxId, int) -> bool)
    requires Reachable(attempts, s)
    ensures Drained(attempts, [], Swept(s), kill) == Filter(Swept(s), id => !Dies(attempts, n => kill(id, n), 1))
  {
    SweptIsDistinct(attempts, s);
    DrainedKeepsSurvivors(attempts, Swept(s), kill);
  }

  predicate Made(creation: Creation) {
    creation.Creates? && creation.hasToken && creation.ready
  }

  /** `_pending_cleanup` after a cleanup of `id`. */
  function Tracked(pending: seq<SandboxId>, id: SandboxId, dead: bool): seq<SandboxId> {
    if dead then Pop(pending, id) else Put(pending, id)
  }

  /** The other sandboxes stay, in their order; the one that was cleaned up is gone if it is dead, and otherwise
      there, at the end if it was not before. */
  lemma TrackedMeans(pending: seq<SandboxId>, id: SandboxId, dead: bool, others: SandboxId -> bool)
    requires NoDuplicates(pending) && forall x :: others(x) <==> x != id
    ensures Tracked(pending, id, dead)
            == if dead then Filter(pending, others) else if id in pending then pending else pending + [id]
  {
    PopIsFilter(pending, id, others);
  }

  /** `_pending_cleanup` after `replace`: a candidate that was created and not published is cleaned up,
      and so is the guest that a published one replaced. */
  function Leftover(attempts: int, pending: seq<SandboxId>, creation: Creation, outcome: Outcome,
                    oldGuest: Option<Guest>, killNew: int -> bool, killOld: int -> bool): seq<SandboxId>
  {
    if creation.CreationFails? then pending
    else if outcome.Raised? then Tracked(pending, creation.id, Dies(attempts, killNew, 1))
    else if oldGuest.Some? then Tracked(pending, oldGuest.value.id, Dies(attempts, killOld, 1))
    else pending
  }

  lemma DrainIs(attempts: int, s: State, op: OpId, rest: seq<SandboxId>)
    requires op in s.ops && rest != []
    ensures var s' := Resume(attempts, s, op, Drain(rest));
            && At(s', op, CleanupPc(attempts, rest[0], Drain(rest[1..]))) && SameFields(s, s')
            && s'.log == s.log + GivesUp(attempts, rest[0])
  {
  }

  lemma RecordIs(attempts: int, s: State, op: OpId, id: SandboxId, dead: bool, after: After)
    requires At(s, op, Recording(id, dead, after))
    ensures Next(attempts, s, RunSection(op))
            == Some(Resume(attempts, s.(lock := None, pending := if dead then Pop(s.pending, id) else Put(s.pending, id)),
                           op, after))
  {
  }

  class GuestManager {
    const attempts: int
    var guest: Option<Guest>
    var stopped: bool
    var pending: seq<SandboxId>
    var snapshots: map<string, string>
    var lock: Option<OpId>
    var replaceLock: Option<OpId>
    var log: seq<RelayEvent>
    ghost var now: State

    /** The fields are those of the machine state `s`, up to the event log. */
    ghost predicate FieldsOf(s: State)
      reads this
    {
      && guest == s.guest && stopped == s.stopped && pending == s.pending && snapshots == s.snapshots
      && lock == s.lock && replaceLock == s.replaceLock
    }

    ghost predicate Valid()
      reads this
    {
      FieldsOf(now) && log == now.log
    }

    constructor (attempts: int)
      ensures this.attempts == attempts && Valid() && now == INITIAL
    {
      this.attempts := attempts;
      guest, stopped, pending, snapshots := None, false, [], map[];
      lock, replaceLock, log := None, None, [];
      now := INITIAL;
    }

    /** The machine takes one step; `trace` remembers it. */
    ghost method Step(start: State, trace: seq<Step>, step: Step) returns (trace': seq<Step>)
      requires Run(attempts, start, trace) == Some(now) && Next(attempts, now, step).Some?
      modifies this`now
      ensures Next(attempts, old(now), step) == Some(now)
      ensures trace' == trace + [step] && Run(attempts, start, trace') == Some(now)
    {
      RunStep(attempts, start, trace, now, step);
      now := Next(attempts, now, step).value;
      trace' := trace + [step];
    }

    /** The call comes in: the coroutine exists and has not yet waited for anything. */
    ghost method BeginCall(op: OpId, call: Call) returns (first: seq<Step>)
      requires Valid() && op !in now.ops
      modifies this`now
      ensures first == [Spawn(op, call)] && Run(attempts, old(now), first) == Some(now)
      ensures Next(attempts, old(now), Spawn(op, call)) == Some(now) && Valid()
    {
      SpawnIs(attempts, now, op, call);
      first := Step(now, [], Spawn(op, call));
    }

    /** Entered where the machine has just started this cleanup. */
    ghost predicate AtCleanup(op: OpId, id: SandboxId, after: After)
      reads this
    {
      && At(now, op, CleanupPc(attempts, id, after))
      && FieldsOf(now) && now.log == log + GivesUp(attempts, id)
    }

    /** Where only the release of the replace lock is left to do. */
    ghost predicate Leaving(op: OpId, outcome: Outcome)
      reads this
    {
      && At(now, op, Finished(outcome)) && now.replaceLock == None && now.log == log
      && FieldsOf(now.(replaceLock := replaceLock))
    }

    method LeaveReplaceLock(ghost op: OpId, ghost outcome: Outcome)
      requires Leaving(op, outcome)
      modifies this`replaceLock
      ensures Valid() && replaceLock == None && At(now, op, Finished(outcome))
    {
      replaceLock := None;
    }

    method KillSandbox(op: OpId, id: SandboxId, ghost after: After, kill: int -> bool,
                       ghost start: State, ghost steps: seq<Step>)
      returns (dead: bool, ghost trace: seq<Step>)
      requires AtCleanup(op, id, after) && Run(attempts, start, steps) == Some(now)
      modifies this`log, this`now
      ensures dead == Dies(attempts, kill, 1)
      ensures dead <==> exists n :: 1 <= n <= attempts && kill(n)
      ensures log == old(log) + [if dead then Cleaned(id) else CleanupFailed(id)]
      ensures At(now, op, WantRecord(id, dead, after)) && Valid()
      ensures Run(attempts, start, trace) == Some(now)
    {
      DiesMeans(attempts, kill, 1);
      trace := steps;
      var attempt := 1;
      while attempt <= attempts
        invariant 1 <= attempt && log == old(log) && FieldsOf(now)
        invariant attempt <= attempts ==> At(now, op, Killing(id, attempt, after)) && now.log == log
        invariant attempt > attempts ==>
          At(now, op, WantRecord(id, false, after)) && now.log == log + [CleanupFailed(id)]
        invariant Run(attempts, start, trace) == Some(now)
        invariant Dies(attempts, kill, 1) == Dies(attempts, kill, attempt)
      {
        if kill(attempt) {
          KillReturnsIs(attempts, now, op, id, attempt, after);
          trace := Step(start, trace, KillReturns(op));
          log := log + [Cleaned(id)];
          return true, trace;
        }
        KillRaisesIs(attempts, now, op, id, attempt, after);
        trace := Step(start, trace, KillRaises(op));
        attempt := attempt + 1;
      }
      log := log + [CleanupFailed(id)];
      dead := false;
    }

    /** The critical section of `_cleanup_or_track`. */
    method RecordOutcome(op: OpId, id: SandboxId, dead: bool, ghost after: After, ghost start: State,
                         ghost steps: seq<Step>)
      returns (ghost trace: seq<Step>, ghost mid: State)
      requires Valid() && lock == None && At(now, op, WantRecord(id, dead, after))
      requires Run(attempts, start, steps) == Some(now)
      modifies this`pending, this`lock, this`now
      ensures pending == Tracked(old(pending), id, dead)
      ensures lock == None && FieldsOf(mid) && mid.log == log && op in mid.ops
      ensures now == Resume(attempts, mid, op, after) && Run(attempts, start, trace) == Some(now)
    {
      lock := Some(op);
      AcquireIs(attempts, now, op, WantRecord(id, dead, after));
      trace := Step(start, steps, Acquire(op));
      pending := if dead then Pop(pending, id) else Put(pending, id);
      lock := None;
      mid := now.(lock := None, pending := pending);
      RecordIs(attempts, now, op, id, dead, after);
      trace := Step(start, trace, RunSection(op));
    }

    /** Afterwards the machine has left the cleanup from `mid`, a state with the fields as they are. */
    method CleanupOrTrack(op: OpId, id: SandboxId, ghost after: After, kill: int -> bool,
                          ghost start: State, ghost steps: seq<Step>)
      returns (ghost trace: seq<Step>, ghost mid: State)
      requires AtCleanup(op, id, after) && Run(attempts, start, steps) == Some(now) && lock == None
      modifies this`log, this`pending, this`lock, this`now
      ensures pending == Tracked(old(pending), id, Dies(attempts, kill, 1))
      ensures log == old(log) + [if Dies(attempts, kill, 1) then Cleaned(id) else CleanupFailed(id)]
      ensures lock == None && FieldsOf(mid) && mid.log == log && op in mid.ops
      ensures now == Resume(attempts, mid, op, after) && Run(attempts, start, trace) == Some(now)
    {
      var dead;
      dead, trace := KillSandbox(op, id, after, kill, start, steps);
      trace, mid := RecordOutcome(op, id, dead, after, start, trace);
    }

    /** Entered where the machine has just recorded that this creation starts. */
    method Create(op: OpId, generation: nat, source: Option<string>, creation: Creation, kill: int -> bool,
                  ghost start: State, ghost steps: seq<Step>)
      returns (created: Option<Guest>, ghost trace: seq<Step>, ghost mid: State)
      requires At(now, op, Creating(generation)) && now.ops[op].source == source
      requires FieldsOf(now) && now.log == log + [CreateStarted(generation, SeedOf(source))]
      requires Run(attempts, start, steps) == Some(now) && lock == None
      requires creation.Creates? ==> creation.id !in now.created
      modifies this`log, this`pending, this`lock, this`now
      ensures created.Some? <==> Made(creation)
      ensures created.Some? ==>
        && created.value == Guest(creation.id, generation, SeedOf(source))
        && At(now, op, WantPublish(created.value)) && Valid() && pending == old(pending)
      ensures created.None? ==>
        FieldsOf(mid) && mid.log == log && op in mid.ops && now == Leave(mid, op, Raised)
      ensures created.None? ==>
        pending == (if creation.CreationFails? then old(pending)
                    else Tracked(old(pending), creation.id, Dies(attempts, kill, 1)))
      ensures lock == None && Run(attempts, start, trace) == Some(now)
    {
      log := log + [CreateStarted(generation, SeedOf(source))];
      mid := now;
      if creation.CreationFails? {
        CreateFailsIs(attempts, now, op, generation);
        trace := Step(start, steps, CreateFails(op));
        return None, trace, mid;
      }
      if !creation.hasToken {
        TokenlessIs(attempts, now, op, generation, creation.id);
        trace := Step(start, steps, CreateReturns(op, creation.id, false));
        trace, mid := CleanupOrTrack(op, creation.id, RaiseError, kill, start, trace);
        return None, trace, mid;
      }
      var candidate := Guest(creation.id, generation, SeedOf(source));
      CreateReturnsIs(attempts, now, op, generation, creation.id);
      trace := Step(start, steps, CreateReturns(op, creation.id, true));
      log := log + [Created(candidate.id, generation, candidate.seed)];
      if !creation.ready {
        NeverReadyIs(attempts, now, op, candidate);
        StartCleanupIs(attempts, now, op, candidate.id, RaiseError);
        trace := Step(start, trace, NeverReady(op));
        trace, mid := CleanupOrTrack(op, candidate.id, RaiseError, kill, start, trace);
        return None, trace, mid;
      }
      BecomesReadyIs(attempts, now, op, candidate);
      trace := Step(start, trace, BecomesReady(op));
      log := log + [Ready(candidate.id, generation, candidate.seed)];
      created := Some(candidate);
    }

    method EnterLock(op: OpId, ghost pc: Pc, ghost start: State, ghost steps: seq<Step>)
      returns (ghost trace: seq<Step>)
      requires FieldsOf(now) && lock == None && At(now, op, pc) && WantsLock(pc)
      requires Run(attempts, start, steps) == Some(now)
      modifies this`lock, this`now
      ensures lock == Some(op) && FieldsOf(now) && now.log == old(now).log && At(now, op, Afterwards(pc).value)
      ensures OnlyMoved(old(now), op, now) && now.ops.Keys == old(now).ops.Keys
      ensures Run(attempts, start, trace) == Some(now)
    {
      AcquireIs(attempts, now, op, pc);
      GotoOnlyMoves(now, op, Some(op), now.replaceLock, Afterwards(pc).value);
      lock := Some(op);
      trace := Step(start, steps, Acquire(op));
    }

    method EnterReplaceLock(op: OpId, ghost pc: Pc, ghost start: State, ghost steps: seq<Step>)
      returns (ghost trace: seq<Step>)
      requires FieldsOf(now) && replaceLock == None && At(now, op, pc) && WantsReplaceLock(pc)
      requires Run(attempts, start, steps) == Some(now)
      modifies this`replaceLock, this`now
      ensures replaceLock == Some(op) && FieldsOf(now) && now.log == old(now).log
      ensures At(now, op, Afterwards(pc).value)
      ensures OnlyMoved(old(now), op, now) && now.ops.Keys == old(now).ops.Keys
      ensures Run(attempts, start, trace) == Some(now)
    {
      AcquireReplaceIs(attempts, now, op, pc);
      GotoOnlyMoves(now, op, now.lock, Some(op), Afterwards(pc).value);
      replaceLock := Some(op);
      trace := Step(start, steps, Acquire(op));
    }

    /** The first section of `stop`, which waits for no replacement. */
    method RaiseStopFlag(op: OpId, ghost start: State, ghost steps: seq<Step>)
      returns (ghost trace: seq<Step>)
      requires FieldsOf(now) && lock == None && At(now, op, WantStopFlag)
      requires Run(attempts, start, steps) == Some(now)
      modifies this`lock, this`stopped, this`now
      ensures FieldsOf(now) && lock == None && stopped && At(now, op, WantStopReplaceLock)
      ensures now.log == old(now).log && OnlyMoved(old(now), op, now)
      ensures Run(attempts, start, trace) == Some(now)
    {
      trace := EnterLock(op, WantStopFlag, start, steps);
      FlagIs(attempts, now, op);
      stopped := true;
      lock := None;
      trace := Step(start, trace, RunSection(op));
    }

    /** Clean up one sandbox and leave `replace`. */
    method CleanupAndLeave(op: OpId, id: SandboxId, outcome: Outcome, ghost after: After, kill: int -> bool,
                           ghost start: State, ghost steps: seq<Step>)
      returns (ghost trace: seq<Step>)
      requires AtCleanup(op, id, after) && Run(attempts, start, steps) == Some(now) && lock == None
      requires (after == RaiseError && outcome == Raised)
               || (outcome.Returned? && after == ReturnGuest(outcome.guest))
      modifies this`log, this`pending, this`lock, this`replaceLock, this`now
      ensures Valid() && lock == None && replaceLock == None && At(now, op, Finished(outcome))
      ensures pending == Tracked(old(pending), id, Dies(attempts, kill, 1))
      ensures Run(attempts, start, trace) == Some(now)
    {
      ghost var mid;
      trace, mid := CleanupOrTrack(op, id, after, kill, start, steps);
      LeaveIs(mid, op, outcome);
      LeaveReplaceLock(op, outcome);
    }

    /** The body of the publishing section. */
    method PublishOrNot(op: OpId, candidate: Guest, ghost start: State, ghost steps: seq<Step>)
      returns (stoppedMeanwhile: bool, oldGuest: Option<Guest>, ghost trace: seq<Step>)
      requires Valid() && lock == Some(op) && At(now, op, Publishing(candidate))
      requires Run(attempts, start, steps) == Some(now)
      modifies this`guest, this`lock, this`now
      ensures stoppedMeanwhile == stopped && lock == None
      ensures oldGuest == if stopped then None else old(guest)
      ensures guest == if stopped then old(guest) else Some(candidate)
      ensures stopped ==> AtCleanup(op, candidate.id, RaiseError)
      ensures oldGuest.Some? ==> AtCleanup(op, oldGuest.value.id, ReturnGuest(candidate))
      ensures !stopped && oldGuest == None ==> Leaving(op, Returned(candidate))
      ensures Run(attempts, start, trace) == Some(now)
    {
      PublishIs(attempts, now, op, candidate);
      PublishSectionIs(attempts, now.(lock := None), op, candidate);
      stoppedMeanwhile := stopped;
      oldGuest := if stoppedMeanwhile then None else guest;
      if !stoppedMeanwhile {
        guest := Some(candidate);
      }
      lock := None;
      trace := Step(start, steps, RunSection(op));
    }

    /** The publishing section of `replace`. */
    method InstallUnlessStopped(op: OpId, candidate: Guest, ghost start: State, ghost steps: seq<Step>)
      returns (stoppedMeanwhile: bool, oldGuest: Option<Guest>, ghost trace: seq<Step>)
      requires Valid() && lock == None && At(now, op, WantPublish(candidate))
      requires Run(attempts, start, steps) == Some(now)
      modifies this`guest, this`lock, this`now
      ensures stoppedMeanwhile == stopped && lock == None
      ensures oldGuest == if stopped then None else old(guest)
      ensures guest == if stopped then old(guest) else Some(candidate)
      ensures stopped ==> AtCleanup(op, candidate.id, RaiseError)
      ensures oldGuest.Some? ==> AtCleanup(op, oldGuest.value.id, ReturnGuest(candidate))
      ensures !stopped && oldGuest == None ==> Leaving(op, Returned(candidate))
      ensures Run(attempts, start, trace) == Some(now)
    {
      trace := EnterLock(op, WantPublish(candidate), start, steps);
      stoppedMeanwhile, oldGuest, trace := PublishOrNot(op, candidate, start, trace);
    }

    /** From the end of `_create` to the end of `replace`: publish the candidate, or reap it when `stop`
        was called meanwhile; then clean up the guest it replaced. */
    method Publish(op: OpId, candidate: Guest, killNew: int -> bool, killOld: int -> bool,
                   ghost start: State, ghost steps: seq<Step>)
      returns (outcome: Outcome, ghost trace: seq<Step>)
      requires Valid() && lock == None && replaceLock == Some(op) && At(now, op, WantPublish(candidate))
      requires Run(attempts, start, steps) == Some(now)
      modifies this`guest, this`log, this`pending, this`lock, this`replaceLock, this`now
      ensures Valid() && lock == None && replaceLock == None && At(now, op, Finished(outcome))
      ensures outcome == if stopped then Raised else Returned(candidate)
      ensures guest == if stopped then old(guest) else Some(candidate)
      ensures pending == if stopped then Tracked(old(pending), candidate.id, Dies(attempts, killNew, 1))
                         else if old(guest).Some? then
                           Tracked(old(pending), old(guest).value.id, Dies(attempts, killOld, 1))
                         else old(pending)
      ensures Run(attempts, start, trace) == Some(now)
    {
      var stoppedMeanwhile, oldGuest;
      stoppedMeanwhile, oldGuest, trace := InstallUnlessStopped(op, candidate, start, steps);
      outcome := if stoppedMeanwhile then Raised else Returned(candidate);
      if stoppedMeanwhile {
        trace := CleanupAndLeave(op, candidate.id, outcome, RaiseError, killNew, start, trace);
      } else if oldGuest.Some? {
        trace := CleanupAndLeave(op, oldGuest.value.id, outcome, ReturnGuest(candidate), killOld, start, trace);
      } else {
        LeaveReplaceLock(op, outcome);
      }
    }

    /** The first section of `replace`. */
    method ReadGeneration(op: OpId, ghost start: State, ghost steps: seq<Step>)
      returns (generation: Option<nat>, ghost trace: seq<Step>)
      requires Valid() && lock == Some(op) && At(now, op, ReadingGeneration)
      requires Run(attempts, start, steps) == Some(now)
      modifies this`lock, this`now
      ensures lock == None && OnlyMoved(old(now), op, now) && now.ops.Keys == old(now).ops.Keys
      ensures generation == if stopped then None
                            else Some(if guest.Some? then guest.value.generation + 1 else 1)
      ensures stopped ==> Leaving(op, Raised)
      ensures !stopped ==>
        && FieldsOf(now) && At(now, op, Creating(generation.value))
        && now.log == log + [CreateStarted(generation.value, SeedOf(now.ops[op].source))]
      ensures Run(attempts, start, trace) == Some(now)
    {
      GenerationIs(attempts, now, op);
      ReadGenerationSectionIs(now.(lock := None), op);
      generation := if stopped then None else Some(if guest.Some? then guest.value.generation + 1 else 1);
      lock := None;
      trace := Step(start, steps, RunSection(op));
    }

    /** `replace` up to `_create`. */
    method BeginReplace(op: OpId, ghost start: State, ghost steps: seq<Step>)
      returns (generation: Option<nat>, ghost trace: seq<Step>)
      requires Valid() && lock == None && replaceLock == None && At(now, op, WantReplaceLock)
      requires Run(attempts, start, steps) == Some(now)
      modifies this`lock, this`replaceLock, this`now
      ensures lock == None && OnlyMoved(old(now), op, now) && now.ops.Keys == old(now).ops.Keys
      ensures generation == if stopped then None
                            else Some(if guest.Some? then guest.value.generation + 1 else 1)
      ensures stopped ==> Leaving(op, Raised)
      ensures !stopped ==>
        && FieldsOf(now) && replaceLock == Some(op) && At(now, op, Creating(generation.value))
        && now.log == log + [CreateStarted(generation.value, SeedOf(now.ops[op].source))]
      ensures Run(attempts, start, trace) == Some(now)
    {
      trace := EnterReplaceLock(op, WantReplaceLock, start, steps);
      trace := EnterLock(op, WantGeneration, start, trace);
      generation, trace := ReadGeneration(op, start, trace);
    }

    /** While the sandbox is being created, a `stop` may be called and set its flag. */
    method MaybeStop(racer: Option<OpId>, ghost op: OpId, ghost start: State, ghost steps: seq<Step>)
      returns (ghost trace: seq<Step>)
      requires FieldsOf(now) && lock == None && Run(attempts, start, steps) == Some(now)
      requires op in now.ops && now.ops[op].pc.Creating?
      requires racer.Some? ==> racer.value !in now.ops
      modifies this`lock, this`stopped, this`now
      ensures FieldsOf(now) && lock == None && stopped == (old(stopped) || racer.Some?)
      ensures now.log == old(now).log && now.created == old(now).created
      ensures op in now.ops && now.ops[op] == old(now).ops[op]
      ensures Run(attempts, start, trace) == Some(now)
    {
      trace := steps;
      if racer.Some? {
        SpawnIs(attempts, now, racer.value, Call.Stop);
        trace := Step(start, trace, Spawn(racer.value, Call.Stop));
        trace := RaiseStopFlag(racer.value, start, trace);
      }
    }

    /** `_create`, while a `stop` may set its flag, and what follows it in `replace`. */
    method RacedCreate(op: OpId, generation: nat, source: Option<string>, creation: Creation, racer: Option<OpId>,
                       killNew: int -> bool, killOld: int -> bool, ghost start: State, ghost steps: seq<Step>)
      returns (outcome: Outcome, ghost trace: seq<Step>)
      requires At(now, op, Creating(generation)) && now.ops[op].source == source
      requires FieldsOf(now) && now.log == log + [CreateStarted(generation, SeedOf(source))]
      requires lock == None && replaceLock == Some(op) && Run(attempts, start, steps) == Some(now)
      requires creation.Creates? ==> creation.id !in now.created
      requires racer.Some? ==> racer.value !in now.ops
      modifies this`guest, this`stopped, this`log, this`pending, this`lock, this`replaceLock, this`now
      ensures Valid() && lock == None && replaceLock == None && At(now, op, Finished(outcome))
      ensures stopped == (old(stopped) || racer.Some?)
      ensures outcome == if Made(creation) && !stopped
                         then Returned(Guest(creation.id, generation, SeedOf(source))) else Raised
      ensures guest == if outcome.Returned? then Some(outcome.guest) else old(guest)
      ensures pending == Leftover(attempts, old(pending), creation, outcome, old(guest), killNew, killOld)
      ensures Run(attempts, start, trace) == Some(now)
    {
      trace := MaybeStop(racer, op, start, steps);
      outcome, trace := CreateAndPublish(op, generation, source, creation, killNew, killOld, start, trace);
    }

    /** From `_create` to the end of `replace`. */
    method CreateAndPublish(op: OpId, generation: nat, source: Option<string>, creation: Creation,
                            killNew: int -> bool, killOld: int -> bool, ghost start: State, ghost steps: seq<Step>)
      returns (outcome: Outcome, ghost trace: seq<Step>)
      requires At(now, op, Creating(generation)) && now.ops[op].source == source
      requires FieldsOf(now) && now.log == log + [CreateStarted(generation, SeedOf(source))]
      requires lock == None && replaceLock == Some(op) && Run(attempts, start, steps) == Some(now)
      requires creation.Creates? ==> creation.id !in now.created
      modifies this`guest, this`log, this`pending, this`lock, this`replaceLock, this`now
      ensures Valid() && lock == None && replaceLock == None && At(now, op, Finished(outcome))
      ensures outcome == if Made(creation) && !stopped
                         then Returned(Guest(creation.id, generation, SeedOf(source))) else Raised
      ensures guest == if outcome.Returned? then Some(outcome.guest) else old(guest)
      ensures pending == Leftover(attempts, old(pending), creation, outcome, old(guest), killNew, killOld)
      ensures Run(attempts, start, trace) == Some(now)
    {
      var candidate;
      ghost var mid;
      candidate, trace, mid := Create(op, generation, source, creation, killNew, start, steps);
      if candidate.None? {
        LeaveIs(mid, op, Raised);
        LeaveReplaceLock(op, Raised);
        outcome := Raised;
      } else {
        outcome, trace := Publish(op, candidate.value, killNew, killOld, start, trace);
      }
    }

    /** `replace` with a source, from its first point on. */
    method ReplaceFrom(op: OpId, source: Option<string>, creation: Creation, racer: Option<OpId>,
                       killNew: int -> bool, killOld: int -> bool)
      returns (outcome: Outcome, ghost trace: seq<Step>)
      requires Valid() && lock == None && replaceLock == None && At(now, op, WantReplaceLock)
      requires now.ops[op].source == source && (creation.Creates? ==> creation.id !in now.created)
      requires racer.Some? ==> racer.value !in now.ops
      modifies this`guest, this`stopped, this`log, this`pending, this`lock, this`replaceLock, this`now
      ensures Valid() && lock == None && replaceLock == None && At(now, op, Finished(outcome))
      ensures stopped == (old(stopped) || racer.Some?)
      ensures outcome == if old(stopped) || !Made(creation) || racer.Some? then Raised
                         else Returned(Guest(creation.id,
                                             if old(guest).Some? then old(guest).value.generation + 1 else 1,
                                             SeedOf(source)))
      ensures guest == if outcome.Returned? then Some(outcome.guest) else old(guest)
      ensures pending == if old(stopped) then old(pending)
                         else Leftover(attempts, old(pending), creation, outcome, old(guest), killNew, killOld)
      ensures Run(attempts, old(now), trace) == Some(now)
    {
      ghost var start := now;
      var generation;
      generation, trace := BeginReplace(op, start, []);
      if stopped {
        LeaveReplaceLock(op, Raised);
        outcome := Raised;
      } else {
        outcome, trace := RacedCreate(op, generation.value, source, creation, racer, killNew, killOld, start, trace);
      }
    }

    /** `replace` without a source. With `racer`, a `stop` is called and sets its flag while the sandbox is being
        created. */
    method Replace(op: OpId, creation: Creation, racer: Option<OpId>, killNew: int -> bool, killOld: int -> bool)
      returns (outcome: Outcome, ghost trace: seq<Step>)
      requires Valid() && lock == None && replaceLock == None && op !in now.ops
      requires creation.Creates? ==> creation.id !in now.created
      requires racer.Some? ==> racer.value !in now.ops && racer.value != op
      modifies this`guest, this`stopped, this`log, this`pending, this`lock, this`replaceLock, this`now
      ensures Valid() && lock == None && replaceLock == None && At(now, op, Finished(outcome))
      ensures stopped == (old(stopped) || racer.Some?)
      ensures outcome == if old(stopped) || !Made(creation) || racer.Some? then Raised
                         else Returned(Guest(creation.id,
                                             if old(guest).Some? then old(guest).value.generation + 1 else 1,
                                             Template))
      ensures guest == if outcome.Returned? then Some(outcome.guest) else old(guest)
      ensures pending == if old(stopped) then old(pending)
                         else Leftover(attempts, old(pending), creation, outcome, old(guest), killNew, killOld)
      ensures Run(attempts, old(now), trace) == Some(now) && trace != [] && trace[0] == Spawn(op, Call.Replace)
    {
      ghost var start := now;
      SpawnIs(attempts, now, op, Call.Replace);
      ghost var first := BeginCall(op, Call.Replace);
      ghost var mid := now;
      outcome, trace := ReplaceFrom(op, None, creation, racer, killNew, killOld);
      RunConcat(attempts, start, first, mid, trace);
      trace := first + trace;
    }

    /** `revert`: the lookup, then `replace`. */
    method Revert(op: OpId, name: string, creation: Creation, killNew: int -> bool, killOld: int -> bool)
      returns (outcome: Outcome, ghost trace: seq<Step>)
      requires Valid() && lock == None && replaceLock == None && op !in now.ops
      requires creation.Creates? ==> creation.id !in now.created
      modifies this`guest, this`stopped, this`log, this`pending, this`lock, this`replaceLock, this`now
      ensures Valid() && lock == None && replaceLock == None && At(now, op, Finished(outcome))
      ensures stopped == old(stopped)
      ensures outcome == if old(stopped) || !Made(creation) then Raised
                         else Returned(Guest(creation.id,
                                             if old(guest).Some? then old(guest).value.generation + 1 else 1,
                                             if name != "" && name in snapshots && snapshots[name] != ""
                                             then Snapshot(snapshots[name]) else Template))
      ensures guest == if outcome.Returned? then Some(outcome.guest) else old(guest)
      ensures pending == if old(stopped) then old(pending)
                         else Leftover(attempts, old(pending), creation, outcome, old(guest), killNew, killOld)
      ensures Run(attempts, old(now), trace) == Some(now) && trace != [] && trace[0] == Spawn(op, Call.Revert(name))
    {
      ghost var start := now;
      var source := if name != "" && name in snapshots then Some(snapshots[name]) else None;
      SpawnIs(attempts, now, op, Call.Revert(name));
      ghost var first := BeginCall(op, Call.Revert(name));
      ghost var mid := now;
      outcome, trace := ReplaceFrom(op, source, creation, None, killNew, killOld);
      RunConcat(attempts, start, first, mid, trace);
      trace := first + trace;
    }

    /** The critical section of `save_snapshot`. */
    method ReadCurrent(op: OpId, ghost start: State, ghost steps: seq<Step>)
      returns (current: Option<Guest>, ghost trace: seq<Step>)
      requires Valid() && lock == None && At(now, op, WantCurrent) && Run(attempts, start, steps) == Some(now)
      modifies this`lock, this`now
      ensures Valid() && lock == None && current == guest
      ensures At(now, op, if current.Some? then Snapshotting(current.value) else Finished(Raised))
      ensures now.ops[op].call == old(now).ops[op].call
      ensures Run(attempts, start, trace) == Some(now)
    {
      trace := EnterLock(op, WantCurrent, start, steps);
      current := guest;
      lock := None;
      ReadCurrentIs(attempts, now, op);
      trace := Step(start, trace, RunSection(op));
    }

    /** `save_snapshot` from its first point on. */
    method SaveFrom(op: OpId, name: string, snapshotId: Option<string>)
      returns (outcome: Outcome, ghost trace: seq<Step>)
      requires Valid() && lock == None && At(now, op, WantCurrent) && now.ops[op].call == SaveSnapshot(name)
      modifies this`snapshots, this`log, this`lock, this`now
      ensures Valid() && lock == None && At(now, op, Finished(outcome))
      ensures if guest.Some? && snapshotId.Some? then
                && outcome == Saved(snapshotId.value) && snapshots == old(snapshots)[name := snapshotId.value]
                && log == old(log) + [SnapshotSaved(guest.value.id, name, snapshotId.value)]
              else outcome == Raised && snapshots == old(snapshots) && log == old(log)
      ensures Run(attempts, old(now), trace) == Some(now)
    {
      ghost var start := now;
      var current;
      current, trace := ReadCurrent(op, start, []);
      if current.None? {
        return Raised, trace;
      }
      SnapshotIs(attempts, now, op, current.value, name, snapshotId);
      if snapshotId.None? {
        trace := Step(start, trace, SnapshotRaises(op));
        return Raised, trace;
      }
      snapshots := snapshots[name := snapshotId.value];
      log := log + [SnapshotSaved(current.value.id, name, snapshotId.value)];
      trace := Step(start, trace, SnapshotReturns(op, snapshotId.value));
      outcome := Saved(snapshotId.value);
    }

    /** `save_snapshot`; `snapshotId` is what the remote call returns, if it does. */
    method Save(op: OpId, name: string, snapshotId: Option<string>)
      returns (outcome: Outcome, ghost trace: seq<Step>)
      requires Valid() && lock == None && op !in now.ops
      modifies this`snapshots, this`log, this`lock, this`now
      ensures Valid() && lock == None && At(now, op, Finished(outcome))
      ensures if guest.Some? && snapshotId.Some? then
                && outcome == Saved(snapshotId.value) && snapshots == old(snapshots)[name := snapshotId.value]
                && log == old(log) + [SnapshotSaved(guest.value.id, name, snapshotId.value)]
              else outcome == Raised && snapshots == old(snapshots) && log == old(log)
      ensures Run(attempts, old(now), trace) == Some(now) && trace != [] && trace[0] == Spawn(op, SaveSnapshot(name))
    {
      ghost var start := now;
      SpawnIs(attempts, now, op, SaveSnapshot(name));
      ghost var first := BeginCall(op, SaveSnapshot(name));
      ghost var mid := now;
      outcome, trace := SaveFrom(op, name, snapshotId);
      RunConcat(attempts, start, first, mid, trace);
      trace := first + trace;
    }

    /** The replace-lock section of `stop`: take over every sandbox of the manager. */
    method Sweep(op: OpId, ghost start: State, ghost steps: seq<Step>)
      returns (all: seq<SandboxId>, ghost trace: seq<Step>, ghost mid: State)
      requires Valid() && lock == None && replaceLock == Some(op) && At(now, op, WantSweep)
      requires Run(attempts, start, steps) == Some(now)
      modifies this`guest, this`pending, this`lock, this`now
      ensures all == old(pending) + (if old(guest).Some? then [old(guest).value.id] else [])
      ensures guest == None && pending == [] && lock == None
      ensures FieldsOf(mid) && mid.log == log && op in mid.ops && now == Resume(attempts, mid, op, Drain(all))
      ensures Run(attempts, start, trace) == Some(now)
    {
      trace := EnterLock(op, WantSweep, start, steps);
      SweepIs(attempts, now, op);
      SweepSectionIs(attempts, now.(lock := None), op);
      all := pending + (if guest.Some? then [guest.value.id] else []);
      mid := now.(lock := None, guest := None, pending := [], ops := now.ops[op := now.ops[op].(quota := |all|)]);
      guest := None;
      pending := [];
      lock := None;
      trace := Step(start, trace, RunSection(op));
    }

    /** Between two cleanups of `stop`: the fields are those of `mid`, and the machine is on its way
        from there to the first sandbox of `rest`. */
    ghost predicate Draining(op: OpId, rest: seq<SandboxId>, mid: State)
      reads this
    {
      && lock == None && FieldsOf(mid) && mid.log == log && op in mid.ops
      && now == Resume(attempts, mid, op, Drain(rest))
    }

    method CleanupNext(op: OpId, id: SandboxId, kill: (SandboxId, int) -> bool, ghost rest: seq<SandboxId>,
                       ghost before: State, ghost start: State, ghost steps: seq<Step>)
      returns (ghost trace: seq<Step>, ghost mid: State)
      requires rest != [] && id == rest[0] && Draining(op, rest, before) && Run(attempts, start, steps) == Some(now)
      modifies this`log, this`pending, this`lock, this`now
      ensures pending == Tracked(old(pending), id, Dies(attempts, n => kill(id, n), 1))
      ensures Draining(op, rest[1..], mid) && Run(attempts, start, trace) == Some(now)
    {
      DrainIs(attempts, before, op, rest);
      trace, mid := CleanupOrTrack(op, id, Drain(rest[1..]), n => kill(id, n), start, steps);
    }

    /** Clean up everything, one sandbox after the other. */
    method CleanupAll(op: OpId, all: seq<SandboxId>, kill: (SandboxId, int) -> bool,
                      ghost before: State, ghost start: State, ghost steps: seq<Step>)
      returns (ghost trace: seq<Step>)
      requires Draining(op, all, before) && Run(attempts, start, steps) == Some(now) && pending == []
      modifies this`log, this`pending, this`lock, this`now
      ensures pending == Drained(attempts, [], all, kill)
      ensures Leaving(op, Stopped) && lock == None && Run(attempts, start, trace) == Some(now)
    {
      trace := steps;
      ghost var mid := before;
      var i := 0;
      assert all[0..] == all;
      while i < |all|
        invariant 0 <= i <= |all|
        invariant pending == Drained(attempts, [], all[..i], kill)
        invariant Draining(op, all[i..], mid)
        invariant Run(attempts, start, trace) == Some(now)
      {
        DrainedNext(attempts, all, i, kill);
        trace, mid := CleanupNext(op, all[i], kill, all[i..], mid, start, trace);
        assert all[i..][1..] == all[i + 1..];
        i := i + 1;
      }
      assert all[..i] == all && all[i..] == [];
      LeaveIs(mid, op, Stopped);
    }

    method DrainAll(op: OpId, kill: (SandboxId, int) -> bool, ghost start: State, ghost steps: seq<Step>)
      returns (ghost trace: seq<Step>)
      requires Valid() && lock == None && replaceLock == Some(op) && At(now, op, WantSweep)
      requires Run(attempts, start, steps) == Some(now)
      modifies this`guest, this`log, this`pending, this`lock, this`replaceLock, this`now
      ensures Valid() && lock == None && replaceLock == None && At(now, op, Finished(Stopped))
      ensures guest == None
      ensures pending == Drained(attempts, [], old(pending) + (if old(guest).Some? then [old(guest).value.id] else []),
                                 kill)
      ensures Run(attempts, start, trace) == Some(now)
    {
      var all;
      ghost var mid;
      all, trace, mid := Sweep(op, start, steps);
      trace := CleanupAll(op, all, kill, mid, start, trace);
      LeaveReplaceLock(op, Stopped);
    }

    /** `stop` waits for the replace lock. */
    method AwaitSweep(op: OpId, ghost start: State, ghost steps: seq<Step>)
      returns (ghost trace: seq<Step>)
      requires FieldsOf(now) && replaceLock == None && At(now, op, WantStopReplaceLock)
      requires Run(attempts, start, steps) == Some(now)
      modifies this`replaceLock, this`now
      ensures FieldsOf(now) && replaceLock == Some(op) && now.log == old(now).log && At(now, op, WantSweep)
      ensures Run(attempts, start, trace) == Some(now)
    {
      trace := EnterReplaceLock(op, WantStopReplaceLock, start, steps);
    }

    /** `stop` from its first point on. */
    method StopFrom(op: OpId, kill: (SandboxId, int) -> bool)
      returns (ghost trace: seq<Step>)
      requires Valid() && lock == None && replaceLock == None && At(now, op, WantStopFlag)
      modifies this`guest, this`stopped, this`log, this`pending, this`lock, this`replaceLock, this`now
      ensures Valid() && lock == None && replaceLock == None && At(now, op, Finished(Stopped))
      ensures stopped && guest == None
      ensures pending == Drained(attempts, [], old(pending) + (if old(guest).Some? then [old(guest).value.id] else []),
                                 kill)
      ensures Run(attempts, old(now), trace) == Some(now)
    {
      ghost var start := now;
      trace := RaiseStopFlag(op, start, []);
      trace := AwaitSweep(op, start, trace);
      trace := DrainAll(op, kill, start, trace);
    }

    /** `stop`. */
    method Stop(op: OpId, kill: (SandboxId, int) -> bool)
      returns (ghost trace: seq<Step>)
      requires Valid() && lock == None && replaceLock == None && op !in now.ops
      modifies this`guest, this`stopped, this`log, this`pending, this`lock, this`replaceLock, this`now
      ensures Valid() && lock == None && replaceLock == None && At(now, op, Finished(Stopped))
      ensures stopped && guest == None
      ensures pending == Drained(attempts, [], old(pending) + (if old(guest).Some? then [old(guest).value.id] else []),
                                 kill)
      ensures Run(attempts, old(now), trace) == Some(now) && trace != [] && trace[0] == Spawn(op, Call.Stop)
    {
      ghost var start := now;
      SpawnIs(attempts, now, op, Call.Stop);
      ghost var first := BeginCall(op, Call.Stop);
      ghost var mid := now;
      trace := StopFrom(op, kill);
      RunConcat(attempts, start, first, mid, trace);
      trace := first + trace;
    }
  }
}
