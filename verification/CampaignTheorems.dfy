/**
 What a whole pass guarantees: the interleaving does not matter, no append is refused and the pass ends,
 unless a task was planned and never started.
 */
module CampaignTheorems {
  import opened Prelude
  import opened Results
  import opened LedgerTheorems
  import opened Evidence
  import opened CampaignMachine
  import opened CampaignInvariants
  import opened CampaignSchedules

  // ----- one undisturbed pass -----

  /** `moves` begin a pass and let its coroutines go on. */
  ghost predicate Undisturbed(tasks: seq<TaskKey>, maxAttempts: int, outcome: Outcomes, c: Campaign,
                              moves: seq<Move>, c': Campaign) {
    && c.pass == None && moves != [] && moves[0].Begin?
    && (forall m :: m in moves[1..] ==> GoesOn(Candidates(tasks, c.log, maxAttempts), outcome, m))
    && Run(tasks, maxAttempts, c, moves) == Some(c')
  }

  /** The same, up to the end of the pass. */
  ghost predicate CompletePass(tasks: seq<TaskKey>, maxAttempts: int, outcome: Outcomes, c: Campaign,
                               moves: seq<Move>, c': Campaign) {
    exists last :: Undisturbed(tasks, maxAttempts, outcome, c, moves, last)
                   && Next(tasks, maxAttempts, last, Complete) == Some(c')
  }

  lemma UndisturbedInStep(tasks: seq<TaskKey>, maxAttempts: int, outcome: Outcomes, c: Campaign,
                          moves: seq<Move>, c': Campaign)
    requires NoDuplicates(tasks) && Inv(tasks, maxAttempts, c) && NoPlannedOnly(tasks, c.log)
    requires Uninterrupted(outcome) && Undisturbed(tasks, maxAttempts, outcome, c, moves, c')
    ensures InStep(tasks, maxAttempts, outcome, c.log, c')
  {
    var c1 := Next(tasks, maxAttempts, c, moves[0]).value;
    BeginInStep(tasks, maxAttempts, outcome, c, moves[0], c1);
    RunInStep(tasks, maxAttempts, outcome, c.log, c1, moves[1..], c');
  }

  /** What a completed pass leaves: the old log and all three events of every candidate, in some order. */
  ghost predicate PassWrites(tasks: seq<TaskKey>, maxAttempts: int, outcome: Outcomes,
                             log: seq<AttemptEvent>, log': seq<AttemptEvent>) {
    && Inv(tasks, maxAttempts, Campaign(log', None))
    && var candidates := Candidates(tasks, log, maxAttempts);
       multiset(log') == multiset(log) + Emitted(candidates, seq(|candidates|, _ => Ended), outcome)
  }

  lemma EndedPassWrites(tasks: seq<TaskKey>, maxAttempts: int, outcome: Outcomes, start: seq<AttemptEvent>, c: Campaign)
    requires InStep(tasks, maxAttempts, outcome, start, c) && AllEnded(c.pass.value.places)
    ensures PassWrites(tasks, maxAttempts, outcome, start, c.log)
  {
    var p := c.pass.value;
    assert p.places == seq(|p.candidates|, _ => Ended);
  }

  lemma CompleteMeans(tasks: seq<TaskKey>, maxAttempts: int, c: Campaign)
    ensures Next(tasks, maxAttempts, c, Complete)
            == if c.pass.Some? && AllEnded(c.pass.value.places) then Some(Campaign(c.log, None)) else None
  {
  }

  lemma CompletePassWrites(tasks: seq<TaskKey>, maxAttempts: int, outcome: Outcomes, c: Campaign,
                           moves: seq<Move>, c': Campaign)
    requires NoDuplicates(tasks) && Inv(tasks, maxAttempts, c) && NoPlannedOnly(tasks, c.log)
    requires Uninterrupted(outcome) && CompletePass(tasks, maxAttempts, outcome, c, moves, c')
    ensures c'.pass == None && PassWrites(tasks, maxAttempts, outcome, c.log, c'.log)
  {
    var last :| Undisturbed(tasks, maxAttempts, outcome, c, moves, last)
                && Next(tasks, maxAttempts, last, Complete) == Some(c');
    CompleteMeans(tasks, maxAttempts, last);
    UndisturbedInStep(tasks, maxAttempts, outcome, c, moves, last);
    EndedPassWrites(tasks, maxAttempts, outcome, c.log, last);
  }

  /** However the coroutines interleave, and under whatever semaphore, two complete passes over the same
      ledger end with the same events, hence the same results and the same aggregate. */
  lemma ScheduleIndependence(tasks: seq<TaskKey>, maxAttempts: int, outcome: Outcomes, c: Campaign,
                             moves1: seq<Move>, c1: Campaign, moves2: seq<Move>, c2: Campaign)
    requires NoDuplicates(tasks) && Reachable(tasks, maxAttempts, c) && NoPlannedOnly(tasks, c.log)
    requires Uninterrupted(outcome)
    requires CompletePass(tasks, maxAttempts, outcome, c, moves1, c1)
    requires CompletePass(tasks, maxAttempts, outcome, c, moves2, c2)
    ensures multiset(c1.log) == multiset(c2.log)
    ensures ValidResults(c1.log) == ValidResults(c2.log)
    ensures AggregateOf(tasks, c1.log) == AggregateOf(tasks, c2.log)
  {
    ReachableInv(tasks, maxAttempts, c);
    CompletePassWrites(tasks, maxAttempts, outcome, c, moves1, c1);
    CompletePassWrites(tasks, maxAttempts, outcome, c, moves2, c2);
    AggregateIsOrderFree(tasks, c1.log, c2.log);
  }

  // ----- every append accepted, and the pass ends -----

  lemma {:induction false} NoneBusy(places: seq<Place>)
    requires forall i :: 0 <= i < |places| ==> !IsBusy(places[i])
    ensures Busy(places) == 0
  {
    if places != [] {
      NoneBusy(places[..|places| - 1]);
      assert Busy(places) == Busy(places[..|places| - 1]);
    }
  }

  lemma PlanEnabled(tasks: seq<TaskKey>, maxAttempts: int, c: Campaign, i: int)
    requires c.pass.Some? && InPass(c.pass.value, i) && c.pass.value.places[i] == Waiting && c.pass.value.permits > 0
    ensures Next(tasks, maxAttempts, c, Plan(i)).Some?
  {
  }

  lemma StartEnabled(tasks: seq<TaskKey>, maxAttempts: int, c: Campaign, i: int)
    requires c.pass.Some? && InPass(c.pass.value, i) && c.pass.value.places[i] == Spawning
    ensures Next(tasks, maxAttempts, c, Start(i)).Some?
  {
  }

  lemma FinishEnabled(tasks: seq<TaskKey>, maxAttempts: int, c: Campaign, i: int, o: Observation)
    requires c.pass.Some? && InPass(c.pass.value, i) && c.pass.value.places[i] == Running
    ensures Next(tasks, maxAttempts, c, Finish(i, o)).Some?
  {
  }

  lemma SomeoneIsReady(log: seq<AttemptEvent>, p: Pass) returns (i: nat)
    requires Unbroken(log, p) && Counted(p) && !AllEnded(p.places)
    ensures InPass(p, i)
    ensures p.places[i] == Spawning || p.places[i] == Running || (p.places[i] == Waiting && p.permits > 0)
  {
    if j :| 0 <= j < |p.places| && IsBusy(p.places[j]) {
      i := j;
    } else {
      NoneBusy(p.places);
      i :| 0 <= i < |p.places| && p.places[i] != Ended;
    }
  }

  /** Unless all have ended, some coroutine can go on. */
  lemma SomeoneCanGoOn(tasks: seq<TaskKey>, maxAttempts: int, outcome: Outcomes, start: seq<AttemptEvent>, c: Campaign)
    returns (m: Move)
    requires InStep(tasks, maxAttempts, outcome, start, c) && !AllEnded(c.pass.value.places)
    ensures GoesOn(c.pass.value.candidates, outcome, m) && Next(tasks, maxAttempts, c, m).Some?
  {
    var p := c.pass.value;
    var i := SomeoneIsReady(c.log, p);
    var o := outcome(p.candidates[i].0, p.candidates[i].1);
    if p.places[i] == Spawning {
      StartEnabled(tasks, maxAttempts, c, i);
      m := Start(i);
    } else if p.places[i] == Running {
      FinishEnabled(tasks, maxAttempts, c, i, o);
      m := Finish(i, o);
    } else {
      PlanEnabled(tasks, maxAttempts, c, i);
      m := Plan(i);
    }
  }

  lemma MoveWritesOne(tasks: seq<TaskKey>, maxAttempts: int, outcome: Outcomes, start: seq<AttemptEvent>,
                      c: Campaign, m: Move, c': Campaign)
    requires InStep(tasks, maxAttempts, outcome, start, c) && Uninterrupted(outcome)
    requires GoesOn(c.pass.value.candidates, outcome, m) && Next(tasks, maxAttempts, c, m) == Some(c')
    ensures |c'.log| == |c.log| + 1
  {
    var p := c.pass.value;
    if m.Plan? {
      PlanIsAccepted(tasks, maxAttempts, outcome, start, c, p, m.i);
    } else if m.Start? {
      StartIsAccepted(tasks, maxAttempts, c, p, m.i);
    } else {
      FinishIsAccepted(tasks, maxAttempts, c, p, m.i, m.observation);
    }
  }

  lemma {:induction false} RunWritesEach(tasks: seq<TaskKey>, maxAttempts: int, outcome: Outcomes,
                                         start: seq<AttemptEvent>, c: Campaign, moves: seq<Move>, c': Campaign)
    requires InStep(tasks, maxAttempts, outcome, start, c) && Uninterrupted(outcome)
    requires forall m :: m in moves ==> GoesOn(c.pass.value.candidates, outcome, m)
    requires Run(tasks, maxAttempts, c, moves) == Some(c')
    ensures |c'.log| == |c.log| + |moves|
    decreases |moves|
  {
    if moves != [] {
      var c1 := Next(tasks, maxAttempts, c, moves[0]).value;
      MoveInStep(tasks, maxAttempts, outcome, start, c, moves[0], c1);
      MoveWritesOne(tasks, maxAttempts, outcome, start, c, moves[0], c1);
      RunWritesEach(tasks, maxAttempts, outcome, start, c1, moves[1..], c');
    }
  }

  lemma EventsSize(t: TaskKey, attempt: int, place: Place, outcome: Outcomes)
    ensures |EventsAt(t, attempt, place, outcome)| <= 3
    ensures place == Ended ==> |EventsAt(t, attempt, place, outcome)| == 3
  {
  }

  lemma EmittedSizeStep(candidates: seq<(TaskKey, int)>, places: seq<Place>, outcome: Outcomes)
    requires |places| == |candidates| && candidates != []
    ensures var n := |candidates| - 1;
            |Emitted(candidates, places, outcome)|
            == |Emitted(candidates[..n], places[..n], outcome)|
               + |EventsAt(candidates[n].0, candidates[n].1, places[n], outcome)|
  {
  }

  lemma {:induction false} EmittedSize(candidates: seq<(TaskKey, int)>, places: seq<Place>, outcome: Outcomes)
    requires |places| == |candidates|
    ensures |Emitted(candidates, places, outcome)| <= 3 * |candidates|
    ensures AllEnded(places) ==> |Emitted(candidates, places, outcome)| == 3 * |candidates|
  {
    if candidates != [] {
      var n := |candidates| - 1;
      EmittedSize(candidates[..n], places[..n], outcome);
      EmittedSizeStep(candidates, places, outcome);
      EventsSize(candidates[n].0, candidates[n].1, places[n], outcome);
    }
  }

  /** From a ledger without planned-only tasks, under every interleaving: each move of a coroutine is one
      accepted append, none ever breaks, at most `numEnvs` children run, some coroutine can go on until
      all have ended, and that takes exactly three moves each. */
  lemma PassRunsThrough(tasks: seq<TaskKey>, maxAttempts: int, outcome: Outcomes, c: Campaign,
                        moves: seq<Move>, c': Campaign)
    requires NoDuplicates(tasks) && Reachable(tasks, maxAttempts, c) && NoPlannedOnly(tasks, c.log)
    requires Uninterrupted(outcome) && Undisturbed(tasks, maxAttempts, outcome, c, moves, c')
    ensures c'.pass.Some? && Broken !in c'.pass.value.places
    ensures c'.pass.value.active <= c'.pass.value.numEnvs
    ensures |c'.log| == |c.log| + |moves| - 1
    ensures |moves| - 1 <= 3 * |Candidates(tasks, c.log, maxAttempts)|
    ensures AllEnded(c'.pass.value.places) ==> |moves| - 1 == 3 * |Candidates(tasks, c.log, maxAttempts)|
    ensures AllEnded(c'.pass.value.places)
            || exists m :: GoesOn(c'.pass.value.candidates, outcome, m) && Next(tasks, maxAttempts, c', m).Some?
  {
    ReachableInv(tasks, maxAttempts, c);
    UndisturbedInStep(tasks, maxAttempts, outcome, c, moves, c');
    var c1 := Next(tasks, maxAttempts, c, moves[0]).value;
    BeginInStep(tasks, maxAttempts, outcome, c, moves[0], c1);
    RunWritesEach(tasks, maxAttempts, outcome, c.log, c1, moves[1..], c');
    EmittedBound(tasks, maxAttempts, outcome, c.log, c');
    ChildrenAreBusy(c'.pass.value.places);
    if !AllEnded(c'.pass.value.places) {
      var m := SomeoneCanGoOn(tasks, maxAttempts, outcome, c.log, c');
    }
  }

  lemma EmittedBound(tasks: seq<TaskKey>, maxAttempts: int, outcome: Outcomes, start: seq<AttemptEvent>, c: Campaign)
    requires InStep(tasks, maxAttempts, outcome, start, c)
    ensures |c.log| <= |start| + 3 * |c.pass.value.candidates|
    ensures AllEnded(c.pass.value.places) ==> |c.log| == |start| + 3 * |c.pass.value.candidates|
  {
    var p := c.pass.value;
    EmittedSize(p.candidates, p.places, outcome);
    assert |multiset(c.log)| == |multiset(start)| + |Emitted(p.candidates, p.places, outcome)|;
  }

  // ----- a planned-only candidate -----

  /** The coroutine of candidate `i` is waiting, or has broken on an attempt that is still only planned. */
  ghost predicate Stuck(log: seq<AttemptEvent>, p: Pass, i: int) {
    && 0 <= i < |p.candidates| == |p.places|
    && (p.places[i] == Waiting || p.places[i] == Broken)
    && EndsWith(History(log, p.candidates[i].0, p.candidates[i].1), Planned)
  }

  lemma StuckStays(tasks: seq<TaskKey>, maxAttempts: int, outcome: Outcomes, c: Campaign, m: Move, c': Campaign, i: int)
    requires Inv(tasks, maxAttempts, c) && c.pass.Some? && Stuck(c.log, c.pass.value, i)
    requires GoesOn(c.pass.value.candidates, outcome, m) && Next(tasks, maxAttempts, c, m) == Some(c')
    ensures c'.pass.Some? && c'.pass.value.candidates == c.pass.value.candidates && Stuck(c'.log, c'.pass.value, i)
  {
    var p := c.pass.value;
    if m.i == i {
      OwnMoveStaysStuck(tasks, maxAttempts, c, m, c');
    } else {
      var grown := OthersMove(tasks, maxAttempts, c, m, c');
      OthersLeaveStuck(tasks, maxAttempts, c.log, p, grown, c'.pass.value, m.i, i);
    }
  }

  lemma OthersLeaveStuck(tasks: seq<TaskKey>, maxAttempts: int, log: seq<AttemptEvent>, p: Pass,
                         grown: seq<AttemptEvent>, p': Pass, j: int, i: int)
    requires PassFits(tasks, maxAttempts, log, p) && Stuck(log, p, i) && InPass(p, j) && j != i
    requires p'.candidates == p.candidates && |p'.places| == |p.places| && p'.places[i] == p.places[i]
    requires |grown| <= 1 && (grown != [] ==> grown[0].task == p.candidates[j].0)
    ensures Stuck(log + grown, p', i)
  {
    if grown == [] {
      assert log + grown == log;
    } else {
      assert grown == [grown[0]];
      var names := CandidateTasks(p.candidates);
      assert names[i] != names[j];
      HistoryAppend(log, grown[0], p.candidates[i].0, p.candidates[i].1);
    }
  }

  lemma OwnMoveStaysStuck(tasks: seq<TaskKey>, maxAttempts: int, c: Campaign, m: Move, c': Campaign)
    requires c.pass.Some? && (m.Plan? || m.Start? || m.Finish?) && Stuck(c.log, c.pass.value, m.i)
    requires Next(tasks, maxAttempts, c, m) == Some(c')
    ensures c'.pass.Some? && c'.pass.value.candidates == c.pass.value.candidates && Stuck(c'.log, c'.pass.value, m.i)
  {
    var p := c.pass.value;
    assert !Accepted(tasks, c.log, PlannedEvent(p.candidates[m.i].0, p.candidates[m.i].1));
  }

  /** A move of one coroutine moves no other, and writes at most one event, about its own task. */
  lemma OthersMove(tasks: seq<TaskKey>, maxAttempts: int, c: Campaign, m: Move, c': Campaign)
    returns (grown: seq<AttemptEvent>)
    requires c.pass.Some? && (m.Plan? || m.Start? || m.Finish?) && Next(tasks, maxAttempts, c, m) == Some(c')
    ensures c'.pass.Some? && c'.pass.value.candidates == c.pass.value.candidates
    ensures |c'.pass.value.places| == |c.pass.value.places| == |c.pass.value.candidates| && InPass(c.pass.value, m.i)
    ensures forall j :: 0 <= j < |c.pass.value.places| && j != m.i ==> c'.pass.value.places[j] == c.pass.value.places[j]
    ensures c'.log == c.log + grown && |grown| <= 1 && (grown != [] ==> grown[0].task == c.pass.value.candidates[m.i].0)
  {
    grown := if |c'.log| > |c.log| then [c'.log[|c.log|]] else [];
  }

  lemma {:induction false} StuckForever(tasks: seq<TaskKey>, maxAttempts: int, outcome: Outcomes, c: Campaign,
                                        moves: seq<Move>, c': Campaign, i: int)
    requires NoDuplicates(tasks)
    requires Inv(tasks, maxAttempts, c) && c.pass.Some? && Stuck(c.log, c.pass.value, i)
    requires forall m :: m in moves ==> GoesOn(c.pass.value.candidates, outcome, m)
    requires Run(tasks, maxAttempts, c, moves) == Some(c')
    ensures c'.pass.Some? && Stuck(c'.log, c'.pass.value, i)
    decreases |moves|
  {
    if moves != [] {
      var c1 := Next(tasks, maxAttempts, c, moves[0]).value;
      KeepsInv(tasks, maxAttempts, c, moves[0], c1);
      StuckStays(tasks, maxAttempts, outcome, c, moves[0], c1, i);
      StuckForever(tasks, maxAttempts, outcome, c1, moves[1..], c', i);
    }
  }

  lemma PlannedOnlyIsCandidate(tasks: seq<TaskKey>, log: seq<AttemptEvent>, maxAttempts: int) returns (i: nat)
    requires Built(tasks, log) && !NoPlannedOnly(tasks, log)
    ensures i < |Candidates(tasks, log, maxAttempts)|
    ensures var (t, attempt) := Candidates(tasks, log, maxAttempts)[i]; EndsWith(History(log, t, attempt), Planned)
  {
    var t :| t in tasks && t !in TerminalTasks(log) && EndsWith(History(log, t, LatestAttempt(log, t)), Planned);
    var h := History(log, t, LatestAttempt(log, t));
    assert h[0] in h;
    assert HasEvent(log, t);
    CandidateIs(tasks, log, maxAttempts, t, LatestAttempt(log, t));
    i :| 0 <= i < |Candidates(tasks, log, maxAttempts)|
         && Candidates(tasks, log, maxAttempts)[i] == (t, LatestAttempt(log, t));
  }

  lemma BeginMeans(tasks: seq<TaskKey>, maxAttempts: int, c: Campaign, m: Move, c': Campaign)
    requires c.pass == None && Next(tasks, maxAttempts, c, m) == Some(c')
    ensures m.Begin? && c'.log == c.log
    ensures c'.pass == Some(FreshPass(Candidates(tasks, c.log, maxAttempts), m.numEnvs, m.previousMax))
  {
  }

  /** A pass over a ledger with a planned-only task never completes, whatever the schedule and the outcomes. */
  lemma PlannedOnlyBlocksThePass(tasks: seq<TaskKey>, maxAttempts: int, outcome: Outcomes, c: Campaign,
                                 moves: seq<Move>, c': Campaign)
    requires NoDuplicates(tasks) && Inv(tasks, maxAttempts, c) && !NoPlannedOnly(tasks, c.log)
    ensures !CompletePass(tasks, maxAttempts, outcome, c, moves, c')
  {
    forall last | Undisturbed(tasks, maxAttempts, outcome, c, moves, last)
      ensures Next(tasks, maxAttempts, last, Complete) == None
    {
      var i := PlannedOnlyIsCandidate(tasks, c.log, maxAttempts);
      var c1 := Next(tasks, maxAttempts, c, moves[0]).value;
      KeepsInv(tasks, maxAttempts, c, moves[0], c1);
      BeginMeans(tasks, maxAttempts, c, moves[0], c1);
      StuckForever(tasks, maxAttempts, outcome, c1, moves[1..], last, i);
      CompleteMeans(tasks, maxAttempts, last);
    }
  }

  /** Such a ledger comes about: a coordinator plans the attempt of a task and crashes before it starts. */
  lemma PlannedOnlyIsReachable(t: TaskKey, maxAttempts: int) returns (c: Campaign)
    requires maxAttempts >= 1
    ensures Reachable([t], maxAttempts, c) && c.pass == None && !NoPlannedOnly([t], c.log)
  {
    var p := FreshPass([(t, 1)], 1, 0);
    var c0, c1 := Campaign([], None), Campaign([], Some(p));
    var c2 := Campaign([] + [PlannedEvent(t, 1)], Some(p.(places := p.places[0 := Spawning], permits := 0)));
    c := Campaign(c2.log, None);
    FirstBegin(t, maxAttempts);
    FirstPlan(t, maxAttempts, p, c2);
    ThreeMoves([t], maxAttempts, c0, Begin(1, 0), c1, Plan(0), c2, Crash, c);
    OnlyPlanned(t);
  }

  lemma OnlyPlanned(t: TaskKey)
    ensures !NoPlannedOnly([t], [] + [PlannedEvent(t, 1)])
  {
    var log := [] + [PlannedEvent(t, 1)];
    HistoryAppend([], PlannedEvent(t, 1), t, 1);
    assert LatestAttempt(log, t) == 1;
    assert t in [t] && t !in TerminalTasks(log) && EndsWith(History(log, t, LatestAttempt(log, t)), Planned);
  }

  lemma FirstBegin(t: TaskKey, maxAttempts: int)
    requires maxAttempts >= 1
    ensures Next([t], maxAttempts, Campaign([], None), Begin(1, 0))
            == Some(Campaign([], Some(FreshPass([(t, 1)], 1, 0))))
  {
    FirstCandidate(t, maxAttempts);
  }

  lemma FirstCandidate(t: TaskKey, maxAttempts: int)
    ensures Candidates([t], [], maxAttempts) == [(t, 1)]
  {
    assert [t][..0] == [];
  }

  lemma FirstPlan(t: TaskKey, maxAttempts: int, p: Pass, c: Campaign)
    requires p == FreshPass([(t, 1)], 1, 0)
    requires c == Campaign([] + [PlannedEvent(t, 1)], Some(p.(places := p.places[0 := Spawning], permits := 0)))
    ensures Next([t], maxAttempts, Campaign([], Some(p)), Plan(0)) == Some(c)
  {
    assert History([], t, 1) == [];
  }

  lemma ThreeMoves(tasks: seq<TaskKey>, maxAttempts: int, c0: Campaign, m1: Move, c1: Campaign, m2: Move,
                   c2: Campaign, m3: Move, c3: Campaign)
    requires Next(tasks, maxAttempts, c0, m1) == Some(c1) && Next(tasks, maxAttempts, c1, m2) == Some(c2)
    requires Next(tasks, maxAttempts, c2, m3) == Some(c3)
    ensures Run(tasks, maxAttempts, c0, [m1, m2, m3]) == Some(c3)
  {
    assert [m1, m2, m3][1..] == [m2, m3] && [m2, m3][1..] == [m3] && [m3][1..] == [];
    assert Run(tasks, maxAttempts, c3, []) == Some(c3);
    assert Run(tasks, maxAttempts, c2, [m3]) == Some(c3);
    assert Run(tasks, maxAttempts, c1, [m2, m3]) == Some(c3);
  }

  /** Attempt `attempt` of `t` was planned and not started, it is the latest, and no coroutine got past it. */
  ghost predicate StuckTask(c: Campaign, t: TaskKey, attempt: int) {
    && t !in TerminalTasks(c.log) && LatestAttempt(c.log, t) == attempt
    && EndsWith(History(c.log, t, attempt), Planned)
    && (c.pass.Some? ==> StuckInPass(c.pass.value, t, attempt))
  }

  predicate StuckInPass(p: Pass, t: TaskKey, attempt: int) {
    && |p.places| == |p.candidates|
    && forall i :: 0 <= i < |p.candidates| && p.candidates[i].0 == t ==>
         p.candidates[i].1 == attempt && (p.places[i] == Waiting || p.places[i] == Broken)
  }

  lemma OtherTaskLeavesLatest(log: seq<AttemptEvent>, e: AttemptEvent, t: TaskKey)
    requires e.task != t
    ensures LatestAttempt(log + [e], t) == LatestAttempt(log, t)
  {
    assert (log + [e])[..|log|] == log;
  }

  lemma BeginStuck(tasks: seq<TaskKey>, maxAttempts: int, c: Campaign, m: Move, c': Campaign, t: TaskKey, attempt: int)
    requires StuckTask(c, t, attempt) && c.pass == None && Next(tasks, maxAttempts, c, m) == Some(c')
    ensures StuckTask(c', t, attempt)
  {
    BeginMeans(tasks, maxAttempts, c, m, c');
    var p := c'.pass.value;
    var h := History(c.log, t, attempt);
    assert h[0] in h;
    forall i | 0 <= i < |p.candidates| && p.candidates[i].0 == t ensures p.candidates[i].1 == attempt {
      assert p.candidates[i] in p.candidates;
      CandidateIs(tasks, c.log, maxAttempts, t, p.candidates[i].1);
    }
  }

  lemma OthersLeaveTask(log: seq<AttemptEvent>, p: Pass, j: int, grown: seq<AttemptEvent>, p': Pass,
                        t: TaskKey, attempt: int)
    requires StuckTask(Campaign(log, Some(p)), t, attempt) && InPass(p, j) && p.candidates[j].0 != t
    requires p'.candidates == p.candidates && |p'.places| == |p.places|
    requires forall i :: 0 <= i < |p.places| && i != j ==> p'.places[i] == p.places[i]
    requires |grown| <= 1 && (grown != [] ==> grown[0].task == p.candidates[j].0)
    ensures StuckTask(Campaign(log + grown, Some(p')), t, attempt)
  {
    if grown == [] {
      assert log + grown == log;
    } else {
      assert grown == [grown[0]];
      HistoryAppend(log, grown[0], t, attempt);
      OtherTaskLeavesLatest(log, grown[0], t);
    }
  }

  lemma OwnMoveIsStuck(tasks: seq<TaskKey>, maxAttempts: int, c: Campaign, m: Move, c': Campaign, t: TaskKey, attempt: int)
    requires StuckTask(c, t, attempt) && c.pass.Some? && (m.Plan? || m.Start? || m.Finish?)
    requires InPass(c.pass.value, m.i) && c.pass.value.candidates[m.i].0 == t
    requires Next(tasks, maxAttempts, c, m) == Some(c')
    ensures StuckTask(c', t, attempt)
  {
    assert !Accepted(tasks, c.log, PlannedEvent(t, attempt));
  }

  lemma MoveStaysStuck(tasks: seq<TaskKey>, maxAttempts: int, c: Campaign, m: Move, c': Campaign, t: TaskKey, attempt: int)
    requires StuckTask(c, t, attempt) && c.pass.Some? && (m.Plan? || m.Start? || m.Finish?)
    requires Next(tasks, maxAttempts, c, m) == Some(c')
    ensures StuckTask(c', t, attempt)
  {
    var grown := OthersMove(tasks, maxAttempts, c, m, c');
    if c.pass.value.candidates[m.i].0 == t {
      OwnMoveIsStuck(tasks, maxAttempts, c, m, c', t, attempt);
    } else {
      OthersLeaveTask(c.log, c.pass.value, m.i, grown, c'.pass.value, t, attempt);
    }
  }

  lemma {:induction false} StuckTaskStays(tasks: seq<TaskKey>, maxAttempts: int, c: Campaign, moves: seq<Move>,
                                          c': Campaign, t: TaskKey, attempt: int)
    requires StuckTask(c, t, attempt) && Run(tasks, maxAttempts, c, moves) == Some(c')
    ensures StuckTask(c', t, attempt)
    decreases |moves|
  {
    if moves != [] {
      var m := moves[0];
      var c1 := Next(tasks, maxAttempts, c, m).value;
      if c.pass == None {
        BeginStuck(tasks, maxAttempts, c, m, c1, t, attempt);
      } else if m.Plan? || m.Start? || m.Finish? {
        MoveStaysStuck(tasks, maxAttempts, c, m, c1, t, attempt);
      }
      StuckTaskStays(tasks, maxAttempts, c1, moves[1..], c', t, attempt);
    }
  }

  /** And it is for good: once a ledger at rest has a planned-only task, no history of passes, crashes and
      resumes leads to a ledger over which a pass can complete. */
  lemma PlannedOnlyIsPermanent(tasks: seq<TaskKey>, maxAttempts: int, c: Campaign, moves: seq<Move>, c': Campaign)
    requires c.pass == None && !NoPlannedOnly(tasks, c.log) && Run(tasks, maxAttempts, c, moves) == Some(c')
    ensures !NoPlannedOnly(tasks, c'.log)
  {
    var t :| t in tasks && t !in TerminalTasks(c.log)
             && EndsWith(History(c.log, t, LatestAttempt(c.log, t)), Planned);
    StuckTaskStays(tasks, maxAttempts, c, moves, c', t, LatestAttempt(c.log, t));
  }

  lemma {:induction false} RunOn(tasks: seq<TaskKey>, maxAttempts: int, outcome: Outcomes, start: seq<AttemptEvent>,
                                 c: Campaign) returns (moves: seq<Move>, c': Campaign)
    requires InStep(tasks, maxAttempts, outcome, start, c) && Uninterrupted(outcome)
    ensures forall m :: m in moves ==> GoesOn(c.pass.value.candidates, outcome, m)
    ensures Run(tasks, maxAttempts, c, moves) == Some(c')
    ensures c'.pass.Some? && AllEnded(c'.pass.value.places)
    decreases |start| + 3 * |c.pass.value.candidates| - |c.log|
  {
    EmittedBound(tasks, maxAttempts, outcome, start, c);
    if AllEnded(c.pass.value.places) {
      moves, c' := [], c;
    } else {
      var m := SomeoneCanGoOn(tasks, maxAttempts, outcome, start, c);
      var c1 := Next(tasks, maxAttempts, c, m).value;
      MoveInStep(tasks, maxAttempts, outcome, start, c, m, c1);
      MoveWritesOne(tasks, maxAttempts, outcome, start, c, m, c1);
      EmittedBound(tasks, maxAttempts, outcome, start, c1);
      var rest;
      rest, c' := RunOn(tasks, maxAttempts, outcome, start, c1);
      moves := [m] + rest;
    }
  }

  lemma PassExists(tasks: seq<TaskKey>, maxAttempts: int, outcome: Outcomes, c: Campaign)
    returns (moves: seq<Move>, last: Campaign)
    requires NoDuplicates(tasks) && Inv(tasks, maxAttempts, c) && c.pass == None && maxAttempts >= 1
    requires Uninterrupted(outcome) && NoPlannedOnly(tasks, c.log)
    ensures Undisturbed(tasks, maxAttempts, outcome, c, moves, last)
    ensures last.pass.Some? && AllEnded(last.pass.value.places)
  {
    var m := Begin(1, 0);
    var c1 := Next(tasks, maxAttempts, c, m).value;
    BeginInStep(tasks, maxAttempts, outcome, c, m, c1);
    var rest;
    rest, last := RunOn(tasks, maxAttempts, outcome, c.log, c1);
    moves := [m] + rest;
    assert moves[1..] == rest;
  }

  /** A pass over a reachable ledger can complete exactly when no task of it is planned-only. */
  lemma PassCanComplete(tasks: seq<TaskKey>, maxAttempts: int, outcome: Outcomes, c: Campaign)
    requires NoDuplicates(tasks) && Reachable(tasks, maxAttempts, c) && c.pass == None && maxAttempts >= 1
    requires Uninterrupted(outcome)
    ensures (exists moves, c' :: CompletePass(tasks, maxAttempts, outcome, c, moves, c'))
            <==> NoPlannedOnly(tasks, c.log)
  {
    ReachableInv(tasks, maxAttempts, c);
    if NoPlannedOnly(tasks, c.log) {
      var moves, last := PassExists(tasks, maxAttempts, outcome, c);
      CompleteMeans(tasks, maxAttempts, last);
      assert CompletePass(tasks, maxAttempts, outcome, c, moves, Campaign(last.log, None));
    } else {
      forall moves, c' ensures !CompletePass(tasks, maxAttempts, outcome, c, moves, c') {
        PlannedOnlyBlocksThePass(tasks, maxAttempts, outcome, c, moves, c');
      }
    }
  }
}
