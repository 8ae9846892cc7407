/**
 Passes that nothing disturbs: every child is created and none is interrupted, while the coroutines
 interleave as they like. What such a pass writes depends on its candidates alone.
 */
module CampaignSchedules {
  import opened Prelude
  import opened Results
  import opened LedgerTheorems
  import opened Evidence
  import opened CampaignMachine
  import opened CampaignInvariants

  /** No task that still needs a result is stuck between PLANNED and STARTED. */
  ghost predicate NoPlannedOnly(tasks: seq<TaskKey>, log: seq<AttemptEvent>) {
    forall t :: t in tasks && t !in TerminalTasks(log) ==> !EndsWith(History(log, t, LatestAttempt(log, t)), Planned)
  }

  /** What the child of each attempt would leave behind, were it run. */
  type Outcomes = (TaskKey, int) -> Observation

  ghost predicate Uninterrupted(outcome: Outcomes) {
    forall t, attempt :: !outcome(t, attempt).interrupted
  }

  /** A coroutine goes on, and its child leaves what `outcome` says. */
  predicate GoesOn(candidates: seq<(TaskKey, int)>, outcome: Outcomes, m: Move) {
    || m.Plan? || m.Start?
    || (m.Finish? && 0 <= m.i < |candidates| && m.observation == outcome(candidates[m.i].0, candidates[m.i].1))
  }

  function EventsAt(t: TaskKey, attempt: int, place: Place, outcome: Outcomes): multiset<AttemptEvent> {
    match place
    case Spawning => multiset{PlannedEvent(t, attempt)}
    case Running => multiset{PlannedEvent(t, attempt)} + multiset{StartedEvent(t, attempt)}
    case Ended =>
      multiset{PlannedEvent(t, attempt)} + multiset{StartedEvent(t, attempt)}
      + multiset{Classify(t, attempt, outcome(t, attempt))}
    case _ => multiset{}
  }

  /** Everything the coroutines have written so far. */
  function Emitted(candidates: seq<(TaskKey, int)>, places: seq<Place>, outcome: Outcomes): multiset<AttemptEvent>
    requires |places| == |candidates|
  {
    if candidates == [] then multiset{}
    else
      var n := |candidates| - 1;
      Emitted(candidates[..n], places[..n], outcome)
      + EventsAt(candidates[n].0, candidates[n].1, places[n], outcome)
  }

  lemma {:induction false} EmittedMove(candidates: seq<(TaskKey, int)>, places: seq<Place>, outcome: Outcomes,
                                       i: nat, place: Place, e: AttemptEvent)
    requires |places| == |candidates| && i < |places|
    requires EventsAt(candidates[i].0, candidates[i].1, place, outcome)
             == EventsAt(candidates[i].0, candidates[i].1, places[i], outcome) + multiset{e}
    ensures Emitted(candidates, places[i := place], outcome) == Emitted(candidates, places, outcome) + multiset{e}
  {
    var n := |candidates| - 1;
    if i < n {
      EmittedMove(candidates[..n], places[..n], outcome, i, place, e);
      assert places[i := place][..n] == places[..n][i := place];
    } else {
      assert places[i := place][..n] == places[..n];
    }
  }

  lemma {:induction false} NothingEmitted(candidates: seq<(TaskKey, int)>, places: seq<Place>, outcome: Outcomes)
    requires |places| == |candidates| && forall i :: 0 <= i < |places| ==> places[i] == Waiting
    ensures Emitted(candidates, places, outcome) == multiset{}
  {
    if candidates != [] {
      var n := |candidates| - 1;
      NothingEmitted(candidates[..n], places[..n], outcome);
    }
  }

  // ----- an undisturbed pass -----

  /** The pass has run from `start` undisturbed: no coroutine broke, the waiting ones will plan attempts
      no event mentions, and the log has grown by exactly what the others wrote. */
  ghost predicate InStep(tasks: seq<TaskKey>, maxAttempts: int, outcome: Outcomes, start: seq<AttemptEvent>,
                         c: Campaign) {
    && Inv(tasks, maxAttempts, c)
    && c.pass.Some?
    && var p := c.pass.value;
    && p.candidates == Candidates(tasks, start, maxAttempts)
    && Unbroken(c.log, p)
    && multiset(c.log) == multiset(start) + Emitted(p.candidates, p.places, outcome)
  }

  ghost predicate Unbroken(log: seq<AttemptEvent>, p: Pass) {
    && |p.places| == |p.candidates|
    && (forall i :: 0 <= i < |p.places| ==> p.places[i] != Broken)
    && (forall i :: 0 <= i < |p.places| && p.places[i] == Waiting ==>
          History(log, p.candidates[i].0, p.candidates[i].1) == [])
  }

  lemma UnbrokenStep(tasks: seq<TaskKey>, maxAttempts: int, log: seq<AttemptEvent>, p: Pass, p': Pass, i: nat,
                     place: Place, e: AttemptEvent)
    requires PassFits(tasks, maxAttempts, log, p) && Unbroken(log, p) && i < |p.candidates|
    requires e.task == p.candidates[i].0 && place != Broken && place != Waiting
    requires p'.candidates == p.candidates && p'.places == p.places[i := place]
    ensures Unbroken(log + [e], p')
  {
    forall j | 0 <= j < |p'.places| && p'.places[j] == Waiting
      ensures History(log + [e], p.candidates[j].0, p.candidates[j].1) == []
    {
      var names := CandidateTasks(p.candidates);
      assert names[i] != names[j];
      HistoryAppend(log, e, p.candidates[j].0, p.candidates[j].1);
    }
  }

  lemma LogStep(log: seq<AttemptEvent>, start: seq<AttemptEvent>, emitted: multiset<AttemptEvent>, e: AttemptEvent)
    requires multiset(log) == multiset(start) + emitted
    ensures multiset(log + [e]) == multiset(start) + (emitted + multiset{e})
  {
  }

  lemma PlanIsAccepted(tasks: seq<TaskKey>, maxAttempts: int, outcome: Outcomes, start: seq<AttemptEvent>,
                       c: Campaign, p: Pass, i: int)
    requires InStep(tasks, maxAttempts, outcome, start, c) && c.pass == Some(p) && InPass(p, i)
    requires p.places[i] == Waiting
    ensures Accepted(tasks, c.log, PlannedEvent(p.candidates[i].0, p.candidates[i].1))
  {
    assert CandidateFits(c.log, p.candidates[i].0, p.candidates[i].1, p.places[i]);
  }

  lemma PlanInStep(tasks: seq<TaskKey>, maxAttempts: int, outcome: Outcomes, start: seq<AttemptEvent>,
                   c: Campaign, p: Pass, i: int, c': Campaign)
    requires InStep(tasks, maxAttempts, outcome, start, c) && c.pass == Some(p) && InPass(p, i)
    requires PlanStep(tasks, c, p, i) == Some(c')
    ensures InStep(tasks, maxAttempts, outcome, start, c')
  {
    var e := PlannedEvent(p.candidates[i].0, p.candidates[i].1);
    PlanIsAccepted(tasks, maxAttempts, outcome, start, c, p, i);
    PlanAcceptedKeeps(tasks, maxAttempts, c, p, i, c');
    UnbrokenStep(tasks, maxAttempts, c.log, p, c'.pass.value, i, Spawning, e);
    EmittedMove(p.candidates, p.places, outcome, i, Spawning, e);
    LogStep(c.log, start, Emitted(p.candidates, p.places, outcome), e);
  }

  lemma StartIsAccepted(tasks: seq<TaskKey>, maxAttempts: int, c: Campaign, p: Pass, i: int)
    requires Inv(tasks, maxAttempts, c) && c.pass == Some(p) && InPass(p, i) && p.places[i] == Spawning
    ensures Accepted(tasks, c.log, StartedEvent(p.candidates[i].0, p.candidates[i].1))
  {
    assert CandidateFits(c.log, p.candidates[i].0, p.candidates[i].1, p.places[i]);
  }

  lemma StartInStep(tasks: seq<TaskKey>, maxAttempts: int, outcome: Outcomes, start: seq<AttemptEvent>,
                    c: Campaign, p: Pass, i: int, c': Campaign)
    requires InStep(tasks, maxAttempts, outcome, start, c) && c.pass == Some(p) && InPass(p, i)
    requires StartStep(tasks, c, p, i) == Some(c')
    ensures InStep(tasks, maxAttempts, outcome, start, c')
  {
    var e := StartedEvent(p.candidates[i].0, p.candidates[i].1);
    StartIsAccepted(tasks, maxAttempts, c, p, i);
    StartKeeps(tasks, maxAttempts, c, p, i, c');
    UnbrokenStep(tasks, maxAttempts, c.log, p, c'.pass.value, i, Running, e);
    EmittedMove(p.candidates, p.places, outcome, i, Running, e);
    LogStep(c.log, start, Emitted(p.candidates, p.places, outcome), e);
  }

  lemma FinishIsAccepted(tasks: seq<TaskKey>, maxAttempts: int, c: Campaign, p: Pass, i: int, o: Observation)
    requires Inv(tasks, maxAttempts, c) && c.pass == Some(p) && InPass(p, i) && p.places[i] == Running
    ensures Accepted(tasks, c.log, Classify(p.candidates[i].0, p.candidates[i].1, o))
    ensures Classify(p.candidates[i].0, p.candidates[i].1, o).task == p.candidates[i].0
  {
    ClassificationIsLegal(p.candidates[i].0, p.candidates[i].1, o);
    assert CandidateFits(c.log, p.candidates[i].0, p.candidates[i].1, p.places[i]);
  }

  lemma FinishEnds(tasks: seq<TaskKey>, c: Campaign, p: Pass, i: int, o: Observation, e: AttemptEvent, c': Campaign)
    requires InPass(p, i) && !o.interrupted && e == Classify(p.candidates[i].0, p.candidates[i].1, o)
    requires Accepted(tasks, c.log, e) && FinishStep(tasks, c, p, i, o) == Some(c')
    ensures p.places[i] == Running && c'.log == c.log + [e] && c'.pass.Some?
    ensures c'.pass.value.candidates == p.candidates && c'.pass.value.places == p.places[i := Ended]
  {
  }

  lemma EndedEvents(t: TaskKey, attempt: int, outcome: Outcomes)
    ensures EventsAt(t, attempt, Ended, outcome)
            == EventsAt(t, attempt, Running, outcome) + multiset{Classify(t, attempt, outcome(t, attempt))}
  {
  }

  lemma FinishInStep(tasks: seq<TaskKey>, maxAttempts: int, outcome: Outcomes, start: seq<AttemptEvent>,
                     c: Campaign, p: Pass, i: int, c': Campaign)
    requires InStep(tasks, maxAttempts, outcome, start, c) && c.pass == Some(p) && InPass(p, i)
    requires Uninterrupted(outcome)
    requires FinishStep(tasks, c, p, i, outcome(p.candidates[i].0, p.candidates[i].1)) == Some(c')
    ensures InStep(tasks, maxAttempts, outcome, start, c')
  {
    var o := outcome(p.candidates[i].0, p.candidates[i].1);
    var e := Classify(p.candidates[i].0, p.candidates[i].1, o);
    FinishIsAccepted(tasks, maxAttempts, c, p, i, o);
    FinishEnds(tasks, c, p, i, o, e, c');
    FinishKeeps(tasks, maxAttempts, c, p, i, o, c');
    EndedStep(tasks, maxAttempts, outcome, start, c, p, i, e, c');
  }

  lemma EndedStep(tasks: seq<TaskKey>, maxAttempts: int, outcome: Outcomes, start: seq<AttemptEvent>,
                  c: Campaign, p: Pass, i: int, e: AttemptEvent, c': Campaign)
    requires InStep(tasks, maxAttempts, outcome, start, c) && c.pass == Some(p) && InPass(p, i)
    requires p.places[i] == Running && Inv(tasks, maxAttempts, c')
    requires e == Classify(p.candidates[i].0, p.candidates[i].1, outcome(p.candidates[i].0, p.candidates[i].1))
    requires e.task == p.candidates[i].0
    requires c'.log == c.log + [e] && c'.pass.Some? && c'.pass.value.candidates == p.candidates
    requires c'.pass.value.places == p.places[i := Ended]
    ensures InStep(tasks, maxAttempts, outcome, start, c')
  {
    EndedEvents(p.candidates[i].0, p.candidates[i].1, outcome);
    UnbrokenStep(tasks, maxAttempts, c.log, p, c'.pass.value, i, Ended, e);
    EmittedMove(p.candidates, p.places, outcome, i, Ended, e);
    LogStep(c.log, start, Emitted(p.candidates, p.places, outcome), e);
  }

  lemma LatestIsPositive(tasks: seq<TaskKey>, log: seq<AttemptEvent>, t: TaskKey)
    requires Built(tasks, log) && HasEvent(log, t)
    ensures LatestAttempt(log, t) >= 1
  {
    LatestIsLatest(log, t);
    var h := History(log, t, LatestAttempt(log, t));
    assert h[0] in h;
    BuiltEvents(tasks, log, h[0]);
  }

  lemma NoEventNoHistory(log: seq<AttemptEvent>, t: TaskKey, attempt: int)
    requires !HasEvent(log, t)
    ensures History(log, t, attempt) == []
  {
    HasMeansHistory(log, (t, attempt), Planned);
  }

  lemma FreshCandidate(tasks: seq<TaskKey>, maxAttempts: int, log: seq<AttemptEvent>, t: TaskKey, attempt: int)
    requires Built(tasks, log) && NoPlannedOnly(tasks, log) && (t, attempt) in Candidates(tasks, log, maxAttempts)
    ensures History(log, t, attempt) == []
    ensures attempt == LatestAttempt(log, t) + 1 <= Max(1, maxAttempts)
  {
    CandidateIs(tasks, log, maxAttempts, t, attempt);
    if HasEvent(log, t) {
      LatestIsPositive(tasks, log, t);
      NothingAfterLatest(log, t, attempt);
    } else {
      NoEventNoHistory(log, t, attempt);
      NoEventNoAttempt(log, t);
    }
  }

  lemma BeginInStep(tasks: seq<TaskKey>, maxAttempts: int, outcome: Outcomes, c: Campaign, m: Move, c': Campaign)
    requires NoDuplicates(tasks) && Inv(tasks, maxAttempts, c) && c.pass == None && NoPlannedOnly(tasks, c.log)
    requires Next(tasks, maxAttempts, c, m) == Some(c')
    ensures InStep(tasks, maxAttempts, outcome, c.log, c')
  {
    BeginKeeps(tasks, maxAttempts, c, m, c');
    var p := c'.pass.value;
    NothingEmitted(p.candidates, p.places, outcome);
    forall i | 0 <= i < |p.candidates| ensures History(c.log, p.candidates[i].0, p.candidates[i].1) == [] {
      assert p.candidates[i] in p.candidates;
      FreshCandidate(tasks, maxAttempts, c.log, p.candidates[i].0, p.candidates[i].1);
    }
  }

  lemma MoveInStep(tasks: seq<TaskKey>, maxAttempts: int, outcome: Outcomes, start: seq<AttemptEvent>,
                   c: Campaign, m: Move, c': Campaign)
    requires InStep(tasks, maxAttempts, outcome, start, c) && Uninterrupted(outcome)
    requires GoesOn(c.pass.value.candidates, outcome, m) && Next(tasks, maxAttempts, c, m) == Some(c')
    ensures InStep(tasks, maxAttempts, outcome, start, c')
  {
    var p := c.pass.value;
    if m.Plan? {
      PlanInStep(tasks, maxAttempts, outcome, start, c, p, m.i, c');
    } else if m.Start? {
      StartInStep(tasks, maxAttempts, outcome, start, c, p, m.i, c');
    } else {
      FinishInStep(tasks, maxAttempts, outcome, start, c, p, m.i, c');
    }
  }

  lemma {:induction false} RunInStep(tasks: seq<TaskKey>, maxAttempts: int, outcome: Outcomes, start: seq<AttemptEvent>,
                                     c: Campaign, moves: seq<Move>, c': Campaign)
    requires InStep(tasks, maxAttempts, outcome, start, c) && Uninterrupted(outcome)
    requires forall m :: m in moves ==> GoesOn(c.pass.value.candidates, outcome, m)
    requires Run(tasks, maxAttempts, c, moves) == Some(c')
    ensures InStep(tasks, maxAttempts, outcome, start, c')
    decreases |moves|
  {
    if moves != [] {
      var c1 := Next(tasks, maxAttempts, c, moves[0]).value;
      MoveInStep(tasks, maxAttempts, outcome, start, c, moves[0], c1);
      RunInStep(tasks, maxAttempts, outcome, start, c1, moves[1..], c');
    }
  }
}
