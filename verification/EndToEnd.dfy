/**
 From the relay to the results of a campaign: over every history of passes, crashes and resumes, a result
 stands for an attempt whose relay killed every sandbox it created, apart from one it may just be killing.
 */
module EndToEnd {
  import opened Prelude
  import opened Results
  import opened LedgerTheorems
  import opened Evidence
  import opened CampaignMachine
  import opened CampaignInvariants
  import opened LogRedaction

  /** The child exited 0 in time, without being interrupted. */
  predicate EndedWell(o: Observation) {
    !o.interrupted && !o.timedOut && o.exitCode == Some(0)
  }

  /** Every child that ended well left the log of some relay, stopped anywhere, with its own sandbox names and
      its own sensitive values; nothing is asked of the logs of the others. */
  ghost predicate RelaysObserved(killAttempts: int, moves: seq<Move>) {
    forall m :: m in moves && m.Finish? && EndedWell(m.observation) ==>
                  exists s, name, redact :: FromRelay(killAttempts, m.observation, s, name, redact)
  }

  /** A coroutine that finished on observation `o` wrote `e`. */
  predicate Wrote(m: Move, e: AttemptEvent) {
    m.Finish? && e == Classify(e.task, e.attempt, m.observation)
  }

  lemma ValidIsWritten(tasks: seq<TaskKey>, maxAttempts: int, c: Campaign, m: Move, c': Campaign, e: AttemptEvent)
    requires Next(tasks, maxAttempts, c, m) == Some(c') && e in c'.log && IsValid(e)
    ensures e in c.log || Wrote(m, e)
  {
    if m.Finish? && c.pass.Some? && InPass(c.pass.value, m.i) {
      var (t, attempt) := c.pass.value.candidates[m.i];
      ClassifyNames(t, attempt, m.observation);
    }
  }

  lemma ClassifyNames(t: TaskKey, attempt: int, o: Observation)
    ensures Classify(t, attempt, o).task == t && Classify(t, attempt, o).attempt == attempt
  {
  }

  lemma {:induction false} ValidComesFromFinish(tasks: seq<TaskKey>, maxAttempts: int, c: Campaign, moves: seq<Move>,
                                                c': Campaign, e: AttemptEvent)
    requires Run(tasks, maxAttempts, c, moves) == Some(c') && e in c'.log && IsValid(e)
    ensures e in c.log || exists m :: m in moves && Wrote(m, e)
    decreases |moves|
  {
    if moves != [] {
      var c1 := Next(tasks, maxAttempts, c, moves[0]).value;
      ValidComesFromFinish(tasks, maxAttempts, c1, moves[1..], c', e);
      if e in c1.log {
        ValidIsWritten(tasks, maxAttempts, c, moves[0], c1, e);
        assert moves[0] in moves;
      } else {
        var m :| m in moves[1..] && Wrote(m, e);
        assert m in moves;
      }
    }
  }

  /** Every result of a campaign is the reward of one observed attempt, and the relay of that attempt left no
      guest, nothing pending, and no sandbox alive except, perhaps, one without a token that it was just
      killing. */
  lemma ResultsLeakNothing(killAttempts: int, tasks: seq<TaskKey>, maxAttempts: int, moves: seq<Move>, c: Campaign,
                           t: TaskKey)
    requires Run(tasks, maxAttempts, Campaign([], None), moves) == Some(c) && NoDuplicates(tasks)
    requires RelaysObserved(killAttempts, moves) && t in ValidResults(c.log)
    ensures exists m, s, name, redact ::
              && m in moves && m.Finish? && FromRelay(killAttempts, m.observation, s, name, redact)
              && LeftOnlyTokenless(s) && m.observation.results == [Number(ValidResults(c.log)[t])]
  {
    var e := ResultComesFrom(c.log, t);
    ValidComesFromFinish(tasks, maxAttempts, Campaign([], None), moves, c, e);
    var m :| m in moves && Wrote(m, e);
    EventIsPositive(tasks, maxAttempts, moves, c, e);
    WrittenEndedWell(e, m);
    var s, name, redact :| FromRelay(killAttempts, m.observation, s, name, redact);
    ValidAttemptLeaksNothing(killAttempts, s, name, redact, e.task, e.attempt, m.observation);
  }

  lemma EventIsPositive(tasks: seq<TaskKey>, maxAttempts: int, moves: seq<Move>, c: Campaign, e: AttemptEvent)
    requires Run(tasks, maxAttempts, Campaign([], None), moves) == Some(c) && NoDuplicates(tasks) && e in c.log
    ensures e.attempt >= 1
  {
    assert Reachable(tasks, maxAttempts, c);
    ReachableInv(tasks, maxAttempts, c);
  }

  lemma WrittenEndedWell(e: AttemptEvent, m: Move)
    requires Wrote(m, e) && IsValid(e) && e.attempt >= 1
    ensures EndedWell(m.observation) && m.observation.results == [Number(RewardOf(e))]
  {
    ClassificationIsLegal(e.task, e.attempt, m.observation);
    assert m.observation.results == [m.observation.results[0]];
  }
}
