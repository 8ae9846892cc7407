/** However a pass ends, short of the coordinator dying, it leaves no child behind. */
module CampaignEndings {
  import opened Prelude
  import opened Results
  import opened LedgerTheorems
  import opened Evidence
  import opened CampaignMachine
  import opened CampaignInvariants
  import opened CampaignTheorems
  import opened CampaignPeak

  /** The attempts that started and have not ended, beyond the children that are running. */
  function Lost(c: Campaign): int {
    |MissingKeys(c.log)| - ChildrenNow(c)
  }

  lemma PlanLosesNone(tasks: seq<TaskKey>, maxAttempts: int, c: Campaign, p: Pass, i: nat, c': Campaign)
    requires Inv(tasks, maxAttempts, c) && c.pass == Some(p) && InPass(p, i) && PlanStep(tasks, c, p, i) == Some(c')
    ensures Lost(c') == Lost(c)
  {
    var e := PlannedEvent(p.candidates[i].0, p.candidates[i].1);
    MovePlace(p.places, i, c'.pass.value.places[i]);
    if Accepted(tasks, c.log, e) {
      AppendAddsUp(tasks, c.log, e);
    }
  }

  lemma StartLosesNone(tasks: seq<TaskKey>, maxAttempts: int, c: Campaign, p: Pass, i: nat, c': Campaign)
    requires Inv(tasks, maxAttempts, c) && c.pass == Some(p) && InPass(p, i) && StartStep(tasks, c, p, i) == Some(c')
    ensures Lost(c') == Lost(c)
  {
    var e := StartedEvent(p.candidates[i].0, p.candidates[i].1);
    MovePlace(p.places, i, c'.pass.value.places[i]);
    if Accepted(tasks, c.log, e) {
      AppendAddsUp(tasks, c.log, e);
    }
  }

  lemma FinishLosesNone(tasks: seq<TaskKey>, maxAttempts: int, c: Campaign, p: Pass, i: nat, o: Observation,
                        c': Campaign)
    requires Inv(tasks, maxAttempts, c) && c.pass == Some(p) && InPass(p, i)
    requires FinishStep(tasks, c, p, i, o) == Some(c')
    ensures Lost(c') == Lost(c)
  {
    var (t, attempt) := p.candidates[i];
    var e := Classify(t, attempt, o);
    ClassificationIsLegal(t, attempt, o);
    MovePlace(p.places, i, c'.pass.value.places[i]);
    assert CandidateFits(c.log, t, attempt, p.places[i]);
    assert Accepted(tasks, c.log, e);
    AppendAddsUp(tasks, c.log, e);
  }

  lemma StepLosesNone(tasks: seq<TaskKey>, maxAttempts: int, c: Campaign, m: Move, c': Campaign)
    requires Inv(tasks, maxAttempts, c) && Next(tasks, maxAttempts, c, m) == Some(c') && c'.pass.Some?
    ensures Lost(c') == Lost(c)
  {
    match c.pass
    case None => AllWaiting(|c'.pass.value.candidates|);
    case Some(p) =>
      match m
      case Plan(i) => PlanLosesNone(tasks, maxAttempts, c, p, i, c');
      case Start(i) => StartLosesNone(tasks, maxAttempts, c, p, i, c');
      case SpawnFails(i) => MovePlace(p.places, i, Broken);
      case Finish(i, o) => FinishLosesNone(tasks, maxAttempts, c, p, i, o, c');
      case _ =>
  }

  lemma {:induction false} RunLosesNone(tasks: seq<TaskKey>, maxAttempts: int, c: Campaign, moves: seq<Move>,
                                        c': Campaign)
    requires NoDuplicates(tasks) && Inv(tasks, maxAttempts, c) && c.pass.Some? && c'.pass.Some?
    requires Run(tasks, maxAttempts, c, moves) == Some(c') && forall m :: m in moves ==> !m.Begin?
    ensures Lost(c') == Lost(c)
    decreases |moves|
  {
    if moves != [] {
      var c1 := Next(tasks, maxAttempts, c, moves[0]).value;
      PassWasOn(tasks, maxAttempts, c1, moves[1..], c');
      KeepsInv(tasks, maxAttempts, c, moves[0], c1);
      StepLosesNone(tasks, maxAttempts, c, moves[0], c1);
      RunLosesNone(tasks, maxAttempts, c1, moves[1..], c');
    }
  }

  /** A pass in which nobody is busy any more has ended every attempt that it started. */
  lemma PassLosesNone(tasks: seq<TaskKey>, maxAttempts: int, start: seq<AttemptEvent>, moves: seq<Move>, c: Campaign)
    requires NoDuplicates(tasks) && Inv(tasks, maxAttempts, Campaign(start, None))
    requires moves != [] && forall m :: m in moves[1..] ==> !m.Begin?
    requires Run(tasks, maxAttempts, Campaign(start, None), moves) == Some(c) && c.pass.Some?
    requires forall i :: 0 <= i < |c.pass.value.places| ==> !IsBusy(c.pass.value.places[i])
    ensures |MissingKeys(c.log)| == |MissingKeys(start)|
  {
    var c1 := Next(tasks, maxAttempts, Campaign(start, None), moves[0]).value;
    KeepsInv(tasks, maxAttempts, Campaign(start, None), moves[0], c1);
    PassWasOn(tasks, maxAttempts, c1, moves[1..], c);
    StepLosesNone(tasks, maxAttempts, Campaign(start, None), moves[0], c1);
    RunLosesNone(tasks, maxAttempts, c1, moves[1..], c);
    NoneBusy(c.pass.value.places);
    ChildrenAreBusy(c.pass.value.places);
  }
}
