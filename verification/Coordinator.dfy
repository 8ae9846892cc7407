/**
 The coordinator: `execute_campaign` as an object whose coroutines take turns in any order, and the
 retry loop around it. Every method is a run of the machine in CampaignMachine.
 */
module Coordinators {
  import opened Prelude
  import opened Results
  import opened LedgerTheorems
  import opened RunLedgers
  import opened Evidence
  import opened CampaignMachine
  import opened CampaignInvariants
  import opened CampaignPeak
  import opened CampaignEndings
  import opened CampaignSchedules
  import opened CampaignTheorems
  import opened RetryTheorems

  datatype CampaignError = NumEnvsNotPositive | AttemptsNotPositive | CoroutineFailed

  lemma {:induction false} RunAppend(tasks: seq<TaskKey>, maxAttempts: int, c: Campaign, moves: seq<Move>,
                                     c': Campaign, m: Move, c'': Campaign)
    requires Run(tasks, maxAttempts, c, moves) == Some(c') && Next(tasks, maxAttempts, c', m) == Some(c'')
    ensures Run(tasks, maxAttempts, c, moves + [m]) == Some(c'')
    decreases |moves|
  {
    if moves == [] {
      assert ([] + [m])[1..] == [];
      assert Run(tasks, maxAttempts, c'', []) == Some(c'');
    } else {
      var c1 := Next(tasks, maxAttempts, c, moves[0]).value;
      RunAppend(tasks, maxAttempts, c1, moves[1..], c', m, c'');
      assert (moves + [m])[1..] == moves[1..] + [m];
    }
  }

  // ----- the moves, written out -----

  lemma PlanMoves(tasks: seq<TaskKey>, maxAttempts: int, log: seq<AttemptEvent>, p: Pass, i: nat)
    requires InPass(p, i) && p.places[i] == Waiting && p.permits > 0
    ensures var e := PlannedEvent(p.candidates[i].0, p.candidates[i].1);
            Next(tasks, maxAttempts, Campaign(log, Some(p)), Plan(i))
            == if Refusal(tasks, log, e) == None
               then Some(Campaign(log + [e], Some(p.(places := p.places[i := Spawning], permits := p.permits - 1))))
               else Some(Campaign(log, Some(p.(places := p.places[i := Broken]))))
  {
  }

  lemma StartMoves(tasks: seq<TaskKey>, maxAttempts: int, log: seq<AttemptEvent>, p: Pass, i: nat)
    requires InPass(p, i) && p.places[i] == Spawning
    ensures var e := StartedEvent(p.candidates[i].0, p.candidates[i].1);
            Next(tasks, maxAttempts, Campaign(log, Some(p)), Start(i))
            == if Refusal(tasks, log, e) == None
               then Some(Campaign(log + [e], Some(p.(places := p.places[i := Running], active := p.active + 1,
                                                     maxObserved := Max(p.maxObserved, p.active + 1)))))
               else Some(Campaign(log, Some(p.(places := p.places[i := Broken], permits := p.permits + 1))))
  {
  }

  lemma FinishMoves(tasks: seq<TaskKey>, maxAttempts: int, log: seq<AttemptEvent>, p: Pass, i: nat, o: Observation,
                    e: AttemptEvent)
    requires InPass(p, i) && p.places[i] == Running && e == Classify(p.candidates[i].0, p.candidates[i].1, o)
    ensures var refused := Refusal(tasks, log, e);
            var place := if o.interrupted || refused.Some? then Broken else Ended;
            Next(tasks, maxAttempts, Campaign(log, Some(p)), Finish(i, o))
            == Some(Campaign(if refused == None then log + [e] else log,
                             Some(p.(places := p.places[i := place], active := p.active - 1, permits := p.permits + 1))))
  {
  }

  lemma SpawnFailsMoves(tasks: seq<TaskKey>, maxAttempts: int, log: seq<AttemptEvent>, p: Pass, i: nat)
    requires InPass(p, i) && p.places[i] == Spawning
    ensures Next(tasks, maxAttempts, Campaign(log, Some(p)), SpawnFails(i))
            == Some(Campaign(log, Some(p.(places := p.places[i := Broken], permits := p.permits + 1))))
  {
  }

  /** The turns a coroutine may still take. */
  function Turns(place: Place): nat {
    match place
    case Waiting => 3
    case Spawning => 2
    case Running => 1
    case _ => 0
  }

  function AllTurns(places: seq<Place>): nat {
    if places == [] then 0 else AllTurns(places[..|places| - 1]) + Turns(places[|places| - 1])
  }

  lemma {:induction false} TurnTaken(places: seq<Place>, i: nat, place: Place)
    requires i < |places|
    ensures AllTurns(places[i := place]) == AllTurns(places) - Turns(places[i]) + Turns(place)
  {
    var n := |places| - 1;
    if i < n {
      TurnTaken(places[..n], i, place);
      assert places[i := place][..n] == places[..n][i := place];
    } else {
      assert places[i := place][..n] == places[..n];
    }
  }

  /** Coroutine `i` enters the semaphore and records PLANNED. */
  method PlanTurn(ledger: RunLedger, ghost maxAttempts: int, p: Pass, i: nat) returns (p': Pass)
    requires ledger.Valid() && InPass(p, i) && p.candidates[i].1 >= 1 && p.places[i] == Waiting && p.permits > 0
    modifies ledger
    ensures ledger.Valid()
    ensures Next(ledger.tasks, maxAttempts, Campaign(old(ledger.log), Some(p)), Plan(i))
            == Some(Campaign(ledger.log, Some(p')))
  {
    PlanMoves(ledger.tasks, maxAttempts, ledger.log, p, i);
    var (task, attempt) := p.candidates[i];
    var refused := ledger.Append(PlannedEvent(task, attempt));
    if refused == None {
      p' := p.(places := p.places[i := Spawning], permits := p.permits - 1);
    } else {
      p' := p.(places := p.places[i := Broken]);
    }
  }

  /** Its child exists: STARTED is recorded and the child counted. */
  method StartTurn(ledger: RunLedger, ghost maxAttempts: int, p: Pass, i: nat) returns (p': Pass)
    requires ledger.Valid() && InPass(p, i) && p.candidates[i].1 >= 1 && p.places[i] == Spawning
    modifies ledger
    ensures ledger.Valid()
    ensures Next(ledger.tasks, maxAttempts, Campaign(old(ledger.log), Some(p)), Start(i))
            == Some(Campaign(ledger.log, Some(p')))
  {
    StartMoves(ledger.tasks, maxAttempts, ledger.log, p, i);
    var (task, attempt) := p.candidates[i];
    var refused := ledger.Append(StartedEvent(task, attempt));
    if refused == None {
      p' := p.(places := p.places[i := Running], active := p.active + 1, maxObserved := Max(p.maxObserved, p.active + 1));
    } else {
      p' := p.(places := p.places[i := Broken], permits := p.permits + 1);
    }
  }

  /** Its child is gone: the attempt is judged by what it left, and its terminal event recorded. */
  method FinishTurn(ledger: RunLedger, ghost maxAttempts: int, p: Pass, i: nat, o: Observation) returns (p': Pass)
    requires ledger.Valid() && InPass(p, i) && p.candidates[i].1 >= 1 && p.places[i] == Running
    modifies ledger
    ensures ledger.Valid()
    ensures Next(ledger.tasks, maxAttempts, Campaign(old(ledger.log), Some(p)), Finish(i, o))
            == Some(Campaign(ledger.log, Some(p')))
  {
    var (task, attempt) := p.candidates[i];
    ClassificationIsLegal(task, attempt, o);
    var event := Classify(task, attempt, o);
    FinishMoves(ledger.tasks, maxAttempts, ledger.log, p, i, o, event);
    var refused := ledger.Append(event);
    var place := if o.interrupted || refused.Some? then Broken else Ended;
    p' := p.(places := p.places[i := place], active := p.active - 1, permits := p.permits + 1);
  }

  /** Creating the child of coroutine `i` was cancelled. */
  method CancelSpawn(ghost tasks: seq<TaskKey>, ghost maxAttempts: int, ghost log: seq<AttemptEvent>, p: Pass, i: nat)
    returns (p': Pass)
    requires InPass(p, i) && p.places[i] == Spawning
    ensures Next(tasks, maxAttempts, Campaign(log, Some(p)), SpawnFails(i)) == Some(Campaign(log, Some(p')))
    ensures p'.candidates == p.candidates && p'.places == p.places[i := Broken]
  {
    SpawnFailsMoves(tasks, maxAttempts, log, p, i);
    p' := p.(places := p.places[i := Broken], permits := p.permits + 1);
  }

  // ----- a pass -----

  predicate Ready(p: Pass, i: int) {
    && InPass(p, i)
    && (p.places[i] == Spawning || p.places[i] == Running || (p.places[i] == Waiting && p.permits > 0))
  }

  lemma TurnsDrop(tasks: seq<TaskKey>, maxAttempts: int, c: Campaign, m: Move, c': Campaign)
    requires c.pass.Some? && (m.Plan? || m.Start? || m.Finish?) && Next(tasks, maxAttempts, c, m) == Some(c')
    ensures c'.pass.Some? && AllTurns(c'.pass.value.places) < AllTurns(c.pass.value.places)
  {
    var places := c.pass.value.places;
    var place := c'.pass.value.places[m.i];
    assert c'.pass.value.places == places[m.i := place];
    TurnTaken(places, m.i, place);
  }

  lemma AttemptsArePositive(tasks: seq<TaskKey>, maxAttempts: int, log: seq<AttemptEvent>, p: Pass)
    requires Inv(tasks, maxAttempts, Campaign(log, Some(p)))
    ensures forall i :: 0 <= i < |p.candidates| ==> p.candidates[i].1 >= 1
  {
  }

  /** One turn of coroutine `i`, whose child leaves what `outcome` says. */
  method Turn(ledger: RunLedger, ghost maxAttempts: int, outcome: Outcomes, p: Pass, i: nat)
    returns (p': Pass, ghost m: Move)
    requires ledger.Valid() && Ready(p, i) && p.candidates[i].1 >= 1
    modifies ledger
    ensures ledger.Valid() && GoesOn(p.candidates, outcome, m)
    ensures Next(ledger.tasks, maxAttempts, Campaign(old(ledger.log), Some(p)), m)
            == Some(Campaign(ledger.log, Some(p')))
  {
    if p.places[i] == Waiting {
      m := Plan(i);
      p' := PlanTurn(ledger, maxAttempts, p, i);
    } else if p.places[i] == Spawning {
      m := Start(i);
      p' := StartTurn(ledger, maxAttempts, p, i);
    } else {
      var o := outcome(p.candidates[i].0, p.candidates[i].1);
      m := Finish(i, o);
      p' := FinishTurn(ledger, maxAttempts, p, i, o);
    }
  }

  /** The pass that started on `start` has come by `moves` to the log and the shared state given. */
  ghost predicate OnTrack(tasks: seq<TaskKey>, maxAttempts: int, outcome: Outcomes, start: seq<AttemptEvent>,
                          moves: seq<Move>, log: seq<AttemptEvent>, p: Pass) {
    && Undisturbed(tasks, maxAttempts, outcome, Campaign(start, None), moves, Campaign(log, Some(p)))
    && Inv(tasks, maxAttempts, Campaign(log, Some(p)))
    && p.candidates == Candidates(tasks, start, maxAttempts)
  }

  lemma StaysOnTrack(tasks: seq<TaskKey>, maxAttempts: int, outcome: Outcomes, start: seq<AttemptEvent>,
                     moves: seq<Move>, log: seq<AttemptEvent>, p: Pass, m: Move, log': seq<AttemptEvent>, p': Pass)
    requires NoDuplicates(tasks) && OnTrack(tasks, maxAttempts, outcome, start, moves, log, p)
    requires GoesOn(p.candidates, outcome, m)
    requires Next(tasks, maxAttempts, Campaign(log, Some(p)), m) == Some(Campaign(log', Some(p')))
    ensures OnTrack(tasks, maxAttempts, outcome, start, moves + [m], log', p')
  {
    var c, c1, c2 := Campaign(start, None), Campaign(log, Some(p)), Campaign(log', Some(p'));
    KeepsInv(tasks, maxAttempts, c1, m, c2);
    var grown := OthersMove(tasks, maxAttempts, c1, m, c2);
    OneMoreMove(tasks, maxAttempts, outcome, c, moves, c1, m, c2);
  }

  lemma OneMoreMove(tasks: seq<TaskKey>, maxAttempts: int, outcome: Outcomes, c: Campaign, moves: seq<Move>,
                    c1: Campaign, m: Move, c2: Campaign)
    requires Undisturbed(tasks, maxAttempts, outcome, c, moves, c1)
    requires GoesOn(Candidates(tasks, c.log, maxAttempts), outcome, m) && Next(tasks, maxAttempts, c1, m) == Some(c2)
    ensures Undisturbed(tasks, maxAttempts, outcome, c, moves + [m], c2)
  {
    RunAppend(tasks, maxAttempts, c, moves, c1, m, c2);
    assert (moves + [m])[1..] == moves[1..] + [m];
  }

  lemma SameLimits(tasks: seq<TaskKey>, maxAttempts: int, c: Campaign, m: Move, c': Campaign)
    requires c.pass.Some? && (m.Plan? || m.Start? || m.Finish?) && Next(tasks, maxAttempts, c, m) == Some(c')
    ensures c'.pass.Some? && c'.pass.value.numEnvs == c.pass.value.numEnvs
    ensures c'.pass.value.previousMax == c.pass.value.previousMax
  {
  }

  /** The coroutines take turns until all have ended or one has failed. */
  method RunPass(ledger: RunLedger, maxAttempts: int, numEnvs: int, previousMax: int, outcome: Outcomes)
    returns (p: Pass, ghost moves: seq<Move>)
    requires ledger.Valid() && Inv(ledger.tasks, maxAttempts, Campaign(ledger.log, None))
    requires numEnvs >= 1 && maxAttempts >= 1
    modifies ledger
    ensures ledger.Valid()
    ensures OnTrack(ledger.tasks, maxAttempts, outcome, old(ledger.log), moves, ledger.log, p)
    ensures AllEnded(p.places) || Broken in p.places
    ensures p.numEnvs == numEnvs && p.previousMax == previousMax && moves[0] == Begin(numEnvs, previousMax)
  {
    ghost var start := ledger.log;
    var candidates := ledger.ResumeCandidates(maxAttempts);
    p := FreshPass(candidates.value, numEnvs, previousMax);
    moves := [Begin(numEnvs, previousMax)];
    BeginsOnTrack(ledger.tasks, maxAttempts, outcome, start, numEnvs, previousMax);
    while Broken !in p.places && exists i :: 0 <= i < |p.places| && Ready(p, i)
      invariant ledger.Valid()
      invariant OnTrack(ledger.tasks, maxAttempts, outcome, start, moves, ledger.log, p)
      invariant p.numEnvs == numEnvs && p.previousMax == previousMax
      invariant moves != [] && moves[0] == Begin(numEnvs, previousMax)
      decreases AllTurns(p.places)
    {
      var i :| 0 <= i < |p.places| && Ready(p, i);
      ghost var log := ledger.log;
      AttemptsArePositive(ledger.tasks, maxAttempts, log, p);
      var p';
      ghost var m;
      p', m := Turn(ledger, maxAttempts, outcome, p, i);
      StaysOnTrack(ledger.tasks, maxAttempts, outcome, start, moves, log, p, m, ledger.log, p');
      TurnsDrop(ledger.tasks, maxAttempts, Campaign(log, Some(p)), m, Campaign(ledger.log, Some(p')));
      SameLimits(ledger.tasks, maxAttempts, Campaign(log, Some(p)), m, Campaign(ledger.log, Some(p')));
      p, moves := p', moves + [m];
    }
    StoppedMeans(ledger.tasks, maxAttempts, ledger.log, p);
  }

  lemma BeginsOnTrack(tasks: seq<TaskKey>, maxAttempts: int, outcome: Outcomes, start: seq<AttemptEvent>,
                      numEnvs: int, previousMax: int)
    requires NoDuplicates(tasks) && Inv(tasks, maxAttempts, Campaign(start, None))
    requires numEnvs >= 1 && maxAttempts >= 1
    ensures OnTrack(tasks, maxAttempts, outcome, start, [Begin(numEnvs, previousMax)], start,
                    FreshPass(Candidates(tasks, start, maxAttempts), numEnvs, previousMax))
  {
    var m := Begin(numEnvs, previousMax);
    var c := Campaign(start, None);
    var c' := Campaign(start, Some(FreshPass(Candidates(tasks, start, maxAttempts), numEnvs, previousMax)));
    assert Next(tasks, maxAttempts, c, m) == Some(c');
    BeginKeeps(tasks, maxAttempts, c, m, c');
    RunAppend(tasks, maxAttempts, c, [], c, m, c');
    assert [] + [m] == [m];
  }

  lemma StoppedMeans(tasks: seq<TaskKey>, maxAttempts: int, log: seq<AttemptEvent>, p: Pass)
    requires Inv(tasks, maxAttempts, Campaign(log, Some(p)))
    requires Broken in p.places || forall i :: 0 <= i < |p.places| ==> !Ready(p, i)
    ensures AllEnded(p.places) || Broken in p.places
  {
    if Broken !in p.places {
      forall i | 0 <= i < |p.places| ensures !IsBusy(p.places[i]) {
        assert !Ready(p, i);
      }
      NoneBusy(p.places);
      forall i | 0 <= i < |p.places| ensures p.places[i] == Ended {
        assert !Ready(p, i);
        assert p.places[i] in p.places;
      }
    }
  }

  // ----- the end of a pass -----

  function Cancelled(o: Observation): Observation {
    o.(interrupted := true)
  }

  lemma CancelDrops(tasks: seq<TaskKey>, maxAttempts: int, c: Campaign, m: Move, c': Campaign)
    requires (m.SpawnFails? || m.Finish?) && Next(tasks, maxAttempts, c, m) == Some(c') && c.pass.Some?
    ensures c'.pass.Some? && AllTurns(c'.pass.value.places) < AllTurns(c.pass.value.places)
    ensures c'.pass.value.candidates == c.pass.value.candidates
    ensures |c'.pass.value.places| == |c.pass.value.places|
    ensures m.SpawnFails? || m.observation.interrupted ==>
              Busy(c'.pass.value.places) == Busy(c.pass.value.places) - 1
  {
    MovePlace(c.pass.value.places, m.i, Broken);
    if m.Finish? {
      TurnsDrop(tasks, maxAttempts, c, m, c');
      var grown := OthersMove(tasks, maxAttempts, c, m, c');
    } else {
      TurnTaken(c.pass.value.places, m.i, Broken);
    }
  }

  /** The others are cancelled: a child that runs is terminated and its attempt recorded as interrupted,
      one that is being created leaves a planned-only attempt behind. */
  method CancelAll(ledger: RunLedger, ghost maxAttempts: int, outcome: Outcomes, stopped: Pass)
    returns (p: Pass, ghost moves: seq<Move>)
    requires ledger.Valid() && |stopped.places| == |stopped.candidates|
    requires forall i :: 0 <= i < |stopped.candidates| ==> stopped.candidates[i].1 >= 1
    modifies ledger
    ensures ledger.Valid()
    ensures Run(ledger.tasks, maxAttempts, Campaign(old(ledger.log), Some(stopped)), moves)
            == Some(Campaign(ledger.log, Some(p)))
    ensures forall i :: 0 <= i < |p.places| ==> !IsBusy(p.places[i])
    ensures |moves| == Busy(stopped.places)
    ensures forall m :: m in moves ==> m.SpawnFails? || (m.Finish? && m.observation.interrupted)
  {
    p, moves := stopped, [];
    ghost var c := Campaign(ledger.log, Some(p));
    while exists i :: 0 <= i < |p.places| && IsBusy(p.places[i])
      invariant ledger.Valid() && |p.places| == |p.candidates| && p.candidates == stopped.candidates
      invariant Run(ledger.tasks, maxAttempts, c, moves) == Some(Campaign(ledger.log, Some(p)))
      invariant |moves| + Busy(p.places) == Busy(stopped.places)
      invariant forall m :: m in moves ==> m.SpawnFails? || (m.Finish? && m.observation.interrupted)
      decreases AllTurns(p.places)
    {
      var i :| 0 <= i < |p.places| && IsBusy(p.places[i]);
      ghost var before := Campaign(ledger.log, Some(p));
      ghost var m;
      p, m := CancelOne(ledger, maxAttempts, outcome, p, i);
      CancelDrops(ledger.tasks, maxAttempts, before, m, Campaign(ledger.log, Some(p)));
      RunAppend(ledger.tasks, maxAttempts, c, moves, before, m, Campaign(ledger.log, Some(p)));
      moves := moves + [m];
    }
    NoneBusy(p.places);
  }

  method CancelOne(ledger: RunLedger, ghost maxAttempts: int, outcome: Outcomes, p: Pass, i: nat)
    returns (p': Pass, ghost m: Move)
    requires ledger.Valid() && InPass(p, i) && p.candidates[i].1 >= 1 && IsBusy(p.places[i])
    modifies ledger
    ensures ledger.Valid() && (m.SpawnFails? || (m.Finish? && m.observation.interrupted))
    ensures Next(ledger.tasks, maxAttempts, Campaign(old(ledger.log), Some(p)), m)
            == Some(Campaign(ledger.log, Some(p')))
  {
    if p.places[i] == Spawning {
      m := SpawnFails(i);
      p' := CancelSpawn(ledger.tasks, maxAttempts, ledger.log, p, i);
    } else {
      var o := Cancelled(outcome(p.candidates[i].0, p.candidates[i].1));
      m := Finish(i, o);
      p' := FinishTurn(ledger, maxAttempts, p, i, o);
    }
  }

  // ----- execute_campaign -----

  /** `moves` lead from one ledger to another, with no pass left over. */
  ghost predicate Leads(tasks: seq<TaskKey>, maxAttempts: int, log: seq<AttemptEvent>, moves: seq<Move>,
                        log': seq<AttemptEvent>) {
    Run(tasks, maxAttempts, Campaign(log, None), moves) == Some(Campaign(log', None))
  }

  lemma LeadsToCrash(tasks: seq<TaskKey>, maxAttempts: int, log: seq<AttemptEvent>, moves: seq<Move>,
                     middle: Campaign, more: seq<Move>, last: Campaign)
    requires Run(tasks, maxAttempts, Campaign(log, None), moves) == Some(middle)
    requires Run(tasks, maxAttempts, middle, more) == Some(last) && last.pass.Some?
    ensures Leads(tasks, maxAttempts, log, moves + more + [Crash], last.log)
  {
    RunConcat(tasks, maxAttempts, Campaign(log, None), moves, middle, more, last);
    RunAppend(tasks, maxAttempts, Campaign(log, None), moves + more, last, Crash, Campaign(last.log, None));
  }

  lemma LeadsToEnd(tasks: seq<TaskKey>, maxAttempts: int, outcome: Outcomes, start: seq<AttemptEvent>,
                   moves: seq<Move>, log: seq<AttemptEvent>, p: Pass)
    requires OnTrack(tasks, maxAttempts, outcome, start, moves, log, p) && AllEnded(p.places)
    ensures Leads(tasks, maxAttempts, start, moves + [Complete], log)
    ensures CompletePass(tasks, maxAttempts, outcome, Campaign(start, None), moves, Campaign(log, None))
  {
    var c, last := Campaign(start, None), Campaign(log, Some(p));
    CompleteMeans(tasks, maxAttempts, last);
    RunAppend(tasks, maxAttempts, c, moves, last, Complete, Campaign(log, None));
  }

  /** What is known of a pass whose coroutines have stopped. */
  lemma EndOfPass(tasks: seq<TaskKey>, maxAttempts: int, outcome: Outcomes, start: seq<AttemptEvent>,
                  moves: seq<Move>, log: seq<AttemptEvent>, p: Pass)
    requires NoDuplicates(tasks) && Inv(tasks, maxAttempts, Campaign(start, None)) && Uninterrupted(outcome)
    requires OnTrack(tasks, maxAttempts, outcome, start, moves, log, p)
    requires AllEnded(p.places) || Broken in p.places
    ensures AllEnded(p.places) <==> NoPlannedOnly(tasks, start)
    ensures AllEnded(p.places) ==> PassWrites(tasks, maxAttempts, outcome, start, log)
  {
    var c, last := Campaign(start, None), Campaign(log, Some(p));
    if NoPlannedOnly(tasks, start) {
      UndisturbedInStep(tasks, maxAttempts, outcome, c, moves, last);
      assert AllEnded(p.places);
      EndedPassWrites(tasks, maxAttempts, outcome, start, last);
    } else {
      PlannedOnlyBlocksThePass(tasks, maxAttempts, outcome, c, moves, Campaign(log, None));
      CompleteMeans(tasks, maxAttempts, last);
    }
  }

  /** What a pass that has ended reports: at least one when there was anything to run. */
  lemma ObservedMax(tasks: seq<TaskKey>, maxAttempts: int, outcome: Outcomes, start: seq<AttemptEvent>,
                    moves: seq<Move>, log: seq<AttemptEvent>, p: Pass, numEnvs: int)
    requires NoDuplicates(tasks) && Inv(tasks, maxAttempts, Campaign(start, None))
    requires OnTrack(tasks, maxAttempts, outcome, start, moves, log, p) && AllEnded(p.places)
    requires moves[0] == Begin(numEnvs, p.previousMax)
    ensures ReportsPeak(tasks, maxAttempts, start, moves + [Complete], p.previousMax, p.maxObserved)
    ensures Candidates(tasks, start, maxAttempts) != [] ==> p.maxObserved >= 1
    ensures p.previousMax <= p.maxObserved <= Max(p.previousMax, p.numEnvs)
  {
    var c, last := Campaign(start, None), Campaign(log, Some(p));
    assert moves == [Begin(numEnvs, p.previousMax)] + moves[1..];
    ReportedMaximumIsThePeak(tasks, maxAttempts, c, numEnvs, p.previousMax, moves[1..], last);
    CompleteMeans(tasks, maxAttempts, last);
    CompletionAddsNone(tasks, maxAttempts, start, moves, last);
    if Candidates(tasks, start, maxAttempts) != [] {
      ChildIsInPeak(tasks, maxAttempts, c, moves, last, 0);
    }
  }

  lemma CompletionAddsNone(tasks: seq<TaskKey>, maxAttempts: int, start: seq<AttemptEvent>, moves: seq<Move>,
                           last: Campaign)
    requires Run(tasks, maxAttempts, Campaign(start, None), moves) == Some(last) && last.pass.Some?
    requires Next(tasks, maxAttempts, last, Complete).Some?
    ensures Run(tasks, maxAttempts, Campaign(start, None), moves + [Complete]).Some?
    ensures Peak(tasks, maxAttempts, Campaign(start, None), moves + [Complete])
            == Peak(tasks, maxAttempts, Campaign(start, None), moves)
  {
    var c := Campaign(start, None);
    var done := Campaign(last.log, None);
    assert [Complete][1..] == [];
    assert Run(tasks, maxAttempts, done, []) == Some(done);
    PeakConcat(tasks, maxAttempts, c, moves, last, [Complete]);
    NeverAbovePeak(tasks, maxAttempts, c, moves, |moves|);
    assert moves[..|moves|] == moves;
  }

  lemma CancelledLosesNone(tasks: seq<TaskKey>, maxAttempts: int, outcome: Outcomes, start: seq<AttemptEvent>,
                           moves: seq<Move>, middle: Campaign, more: seq<Move>, last: Campaign)
    requires NoDuplicates(tasks) && Inv(tasks, maxAttempts, Campaign(start, None))
    requires Undisturbed(tasks, maxAttempts, outcome, Campaign(start, None), moves, middle)
    requires Run(tasks, maxAttempts, middle, more) == Some(last) && last.pass.Some?
    requires forall m :: m in more ==> m.SpawnFails? || m.Finish?
    requires forall i :: 0 <= i < |last.pass.value.places| ==> !IsBusy(last.pass.value.places[i])
    ensures |MissingKeys(last.log)| == |MissingKeys(start)|
  {
    RunConcat(tasks, maxAttempts, Campaign(start, None), moves, middle, more, last);
    TailOfConcat(moves, more);
    PassLosesNone(tasks, maxAttempts, start, moves + more, last);
  }

  lemma EndedLosesNone(tasks: seq<TaskKey>, maxAttempts: int, outcome: Outcomes, start: seq<AttemptEvent>,
                       moves: seq<Move>, log: seq<AttemptEvent>, p: Pass)
    requires NoDuplicates(tasks) && Inv(tasks, maxAttempts, Campaign(start, None))
    requires OnTrack(tasks, maxAttempts, outcome, start, moves, log, p) && AllEnded(p.places)
    ensures |MissingKeys(log)| == |MissingKeys(start)|
  {
    PassLosesNone(tasks, maxAttempts, start, moves, Campaign(log, Some(p)));
  }

  /** What is left to do when a coroutine has failed. */
  method CancelRest(ledger: RunLedger, ghost maxAttempts: int, outcome: Outcomes, p: Pass,
                    ghost start: seq<AttemptEvent>, ghost moves: seq<Move>)
    returns (ghost all: seq<Move>)
    requires ledger.Valid() && Inv(ledger.tasks, maxAttempts, Campaign(start, None))
    requires OnTrack(ledger.tasks, maxAttempts, outcome, start, moves, ledger.log, p)
    modifies ledger
    ensures ledger.Valid() && Leads(ledger.tasks, maxAttempts, start, all, ledger.log)
    ensures |MissingKeys(ledger.log)| == |MissingKeys(start)|
  {
    AttemptsArePositive(ledger.tasks, maxAttempts, ledger.log, p);
    ghost var middle := Campaign(ledger.log, Some(p));
    var rest;
    ghost var more;
    rest, more := CancelAll(ledger, maxAttempts, outcome, p);
    ghost var last := Campaign(ledger.log, Some(rest));
    LeadsToCrash(ledger.tasks, maxAttempts, start, moves, middle, more, last);
    CancelledLosesNone(ledger.tasks, maxAttempts, outcome, start, moves, middle, more, last);
    all := moves + more + [Crash];
  }

  /** `execute_campaign` over an existing ledger; the result is the highest number of children observed.
      It returns normally exactly when no task was planned-only before, provided no child is interrupted; and
      either way every attempt it started has ended. */
  method ExecuteCampaign(ledger: RunLedger, maxAttempts: int, numEnvs: int, previousMax: int, outcome: Outcomes)
    returns (r: Result<int, CampaignError>, ghost moves: seq<Move>)
    requires ledger.Valid() && Inv(ledger.tasks, maxAttempts, Campaign(ledger.log, None))
    modifies ledger
    ensures ledger.Valid() && Leads(ledger.tasks, maxAttempts, old(ledger.log), moves, ledger.log)
    ensures numEnvs < 1 || maxAttempts < 1 ==>
              ledger.log == old(ledger.log)
              && r == Err(if numEnvs < 1 then NumEnvsNotPositive else AttemptsNotPositive)
    ensures numEnvs >= 1 && maxAttempts >= 1 && Uninterrupted(outcome) ==>
              (r.Ok? <==> NoPlannedOnly(ledger.tasks, old(ledger.log)))
    ensures r.Ok? && Uninterrupted(outcome) ==>
              PassWrites(ledger.tasks, maxAttempts, outcome, old(ledger.log), ledger.log)
    ensures |MissingKeys(ledger.log)| == |MissingKeys(old(ledger.log))|
    ensures r.Ok? ==> ReportsPeak(ledger.tasks, maxAttempts, old(ledger.log), moves, previousMax, r.value)
    ensures r.Ok? ==> previousMax <= r.value <= Max(previousMax, numEnvs)
    ensures r.Ok? && Candidates(ledger.tasks, old(ledger.log), maxAttempts) != [] ==> r.value >= 1
  {
    moves := [];
    if numEnvs < 1 {
      return Err(NumEnvsNotPositive), moves;
    }
    if maxAttempts < 1 {
      return Err(AttemptsNotPositive), moves;
    }
    ghost var start := ledger.log;
    var p;
    p, moves := RunPass(ledger, maxAttempts, numEnvs, previousMax, outcome);
    if Uninterrupted(outcome) {
      EndOfPass(ledger.tasks, maxAttempts, outcome, start, moves, ledger.log, p);
    }
    if forall i :: 0 <= i < |p.places| ==> p.places[i] == Ended {
      LeadsToEnd(ledger.tasks, maxAttempts, outcome, start, moves, ledger.log, p);
      ObservedMax(ledger.tasks, maxAttempts, outcome, start, moves, ledger.log, p, numEnvs);
      EndedLosesNone(ledger.tasks, maxAttempts, outcome, start, moves, ledger.log, p);
      moves := moves + [Complete];
      r := Ok(p.maxObserved);
    } else {
      moves := CancelRest(ledger, maxAttempts, outcome, p, start, moves);
      r := Err(CoroutineFailed);
    }
  }

  // ----- the retry loop -----

  lemma LeadsKeepsInv(tasks: seq<TaskKey>, maxAttempts: int, log: seq<AttemptEvent>, moves: seq<Move>,
                      log': seq<AttemptEvent>)
    requires NoDuplicates(tasks) && Inv(tasks, maxAttempts, Campaign(log, None))
    requires Leads(tasks, maxAttempts, log, moves, log')
    ensures Inv(tasks, maxAttempts, Campaign(log', None))
  {
    RunKeepsInv(tasks, maxAttempts, Campaign(log, None), moves, Campaign(log', None));
  }

  lemma LeadsOn(tasks: seq<TaskKey>, maxAttempts: int, log: seq<AttemptEvent>, moves: seq<Move>,
                middle: seq<AttemptEvent>, more: seq<Move>, log': seq<AttemptEvent>)
    requires Leads(tasks, maxAttempts, log, moves, middle) && Leads(tasks, maxAttempts, middle, more, log')
    ensures Leads(tasks, maxAttempts, log, moves + more, log')
  {
    RunConcat(tasks, maxAttempts, Campaign(log, None), moves, Campaign(middle, None), more, Campaign(log', None));
  }

  /** What `k` passes over `start` have achieved. */
  ghost predicate Passed(tasks: seq<TaskKey>, maxAttempts: int, outcome: Outcomes, start: seq<AttemptEvent>, k: nat,
                         log: seq<AttemptEvent>) {
    && Built(tasks, log) && NoPlannedOnly(tasks, log) && Tried(tasks, log, maxAttempts, k)
    && (start == [] ==> AfterPasses(tasks, outcome, k, log))
  }

  lemma PassedOnce(tasks: seq<TaskKey>, maxAttempts: int, outcome: Outcomes, start: seq<AttemptEvent>, k: nat,
                   log: seq<AttemptEvent>, log': seq<AttemptEvent>)
    requires Passed(tasks, maxAttempts, outcome, start, k, log) && k < maxAttempts
    requires PassWrites(tasks, maxAttempts, outcome, log, log')
    ensures Passed(tasks, maxAttempts, outcome, start, k + 1, log')
  {
    PassLeavesNoPlannedOnly(tasks, maxAttempts, outcome, log, log');
    PassTries(tasks, maxAttempts, outcome, log, log', k);
    if start == [] {
      PassAddsAttempt(tasks, maxAttempts, outcome, k, log, log');
    }
  }

  lemma PassedInitially(tasks: seq<TaskKey>, maxAttempts: int, outcome: Outcomes, start: seq<AttemptEvent>)
    requires Built(tasks, start) && NoPlannedOnly(tasks, start)
    ensures Passed(tasks, maxAttempts, outcome, start, 0, start)
  {
    NoneTriedYet(tasks, start, maxAttempts);
    if start == [] {
      FreshCampaign(tasks, outcome);
    }
  }

  /** Nothing is left to retry, and a campaign from scratch has gone exactly through each task's
      attempts up to its first valid one. */
  ghost predicate Finished(tasks: seq<TaskKey>, maxAttempts: int, outcome: Outcomes, start: seq<AttemptEvent>,
                           log: seq<AttemptEvent>) {
    && Candidates(tasks, log, maxAttempts) == []
    && (start == [] ==> AfterPasses(tasks, outcome, maxAttempts, log))
  }

  lemma PassedFinishes(tasks: seq<TaskKey>, maxAttempts: int, outcome: Outcomes, start: seq<AttemptEvent>, k: nat,
                       log: seq<AttemptEvent>)
    requires Passed(tasks, maxAttempts, outcome, start, k, log) && 1 <= k <= maxAttempts
    requires k == maxAttempts || Candidates(tasks, log, maxAttempts) == []
    ensures Finished(tasks, maxAttempts, outcome, start, log)
  {
    if k == maxAttempts {
      AllTried(tasks, log, maxAttempts, k);
    }
    if start == [] {
      NoMoreToTry(tasks, maxAttempts, outcome, k, log);
    }
  }

  /** The retry loop: at most `maxAttempts` passes, and when they all return normally nothing is left. */
  method RetryUntilDone(ledger: RunLedger, maxAttempts: int, numEnvs: int, previousMax: int, outcome: Outcomes)
    returns (r: Result<int, CampaignError>, ghost moves: seq<Move>)
    requires ledger.Valid() && Inv(ledger.tasks, maxAttempts, Campaign(ledger.log, None))
    requires maxAttempts >= 1
    modifies ledger
    ensures ledger.Valid() && Leads(ledger.tasks, maxAttempts, old(ledger.log), moves, ledger.log)
    ensures numEnvs >= 1 && Uninterrupted(outcome) ==> (r.Ok? <==> NoPlannedOnly(ledger.tasks, old(ledger.log)))
    ensures r.Ok? && Uninterrupted(outcome) ==>
              Finished(ledger.tasks, maxAttempts, outcome, old(ledger.log), ledger.log)
    ensures r.Ok? ==> ReportsPeak(ledger.tasks, maxAttempts, old(ledger.log), moves, previousMax, r.value)
    ensures |MissingKeys(ledger.log)| == |MissingKeys(old(ledger.log))|
  {
    ghost var start := ledger.log;
    moves := [];
    r := Ok(previousMax);
    NothingReported(ledger.tasks, maxAttempts, start, previousMax);
    if NoPlannedOnly(ledger.tasks, start) {
      PassedInitially(ledger.tasks, maxAttempts, outcome, start);
    }
    for k := 0 to maxAttempts
      invariant ledger.Valid() && Inv(ledger.tasks, maxAttempts, Campaign(ledger.log, None))
      invariant Leads(ledger.tasks, maxAttempts, start, moves, ledger.log)
      invariant r.Ok? && ReportsPeak(ledger.tasks, maxAttempts, start, moves, previousMax, r.value)
      invariant k == 0 ==> ledger.log == start
      invariant |MissingKeys(ledger.log)| == |MissingKeys(start)|
      invariant k > 0 && Uninterrupted(outcome) ==> numEnvs >= 1 && NoPlannedOnly(ledger.tasks, start)
      invariant NoPlannedOnly(ledger.tasks, start) && Uninterrupted(outcome) ==>
                  Passed(ledger.tasks, maxAttempts, outcome, start, k, ledger.log)
    {
      ghost var before := ledger.log;
      ghost var reported := r.value;
      ghost var more;
      r, more := ExecuteCampaign(ledger, maxAttempts, numEnvs, r.value, outcome);
      LeadsKeepsInv(ledger.tasks, maxAttempts, before, more, ledger.log);
      LeadsOn(ledger.tasks, maxAttempts, start, moves, before, more, ledger.log);
      if r.Ok? {
        ReportsOn(ledger.tasks, maxAttempts, start, moves, before, more, previousMax, reported, r.value);
      }
      moves := moves + more;
      if r.Err? {
        return;
      }
      if Uninterrupted(outcome) {
        PassedOnce(ledger.tasks, maxAttempts, outcome, start, k, before, ledger.log);
      }
      var candidates := ledger.ResumeCandidates(maxAttempts);
      if candidates.value == [] {
        if Uninterrupted(outcome) {
          PassedFinishes(ledger.tasks, maxAttempts, outcome, start, k + 1, ledger.log);
        }
        return;
      }
    }
    if Uninterrupted(outcome) {
      PassedFinishes(ledger.tasks, maxAttempts, outcome, start, maxAttempts, ledger.log);
    }
  }
}
