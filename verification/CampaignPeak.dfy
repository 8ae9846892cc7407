/** The most children a pass ever had, and the maximum that it reports. */
module CampaignPeak {
  import opened Prelude
  import opened Results
  import opened CampaignMachine
  import opened CampaignInvariants

  function ChildrenNow(c: Campaign): nat {
    if c.pass.Some? then Children(c.pass.value.places) else 0
  }

  /** The largest number of children in any state of a run. */
  function Peak(tasks: seq<TaskKey>, maxAttempts: int, c: Campaign, moves: seq<Move>): nat
    requires Run(tasks, maxAttempts, c, moves).Some?
    decreases |moves|
  {
    if moves == [] then ChildrenNow(c)
    else Max(ChildrenNow(c), Peak(tasks, maxAttempts, Next(tasks, maxAttempts, c, moves[0]).value, moves[1..]))
  }

  /** It is the number of children after some of the moves, and no smaller than that after any others. */
  lemma {:induction false} PeakIsReached(tasks: seq<TaskKey>, maxAttempts: int, c: Campaign, moves: seq<Move>)
    returns (k: nat)
    requires Run(tasks, maxAttempts, c, moves).Some?
    ensures k <= |moves| && Run(tasks, maxAttempts, c, moves[..k]).Some?
    ensures ChildrenNow(Run(tasks, maxAttempts, c, moves[..k]).value) == Peak(tasks, maxAttempts, c, moves)
    decreases |moves|
  {
    k := 0;
    if moves != [] {
      var c1 := Next(tasks, maxAttempts, c, moves[0]).value;
      if ChildrenNow(c) < Peak(tasks, maxAttempts, c1, moves[1..]) {
        var later := PeakIsReached(tasks, maxAttempts, c1, moves[1..]);
        k := later + 1;
        assert moves[..k][1..] == moves[1..][..later];
      }
    }
  }

  lemma {:induction false} NeverAbovePeak(tasks: seq<TaskKey>, maxAttempts: int, c: Campaign, moves: seq<Move>, k: nat)
    requires Run(tasks, maxAttempts, c, moves).Some? && k <= |moves|
    ensures Run(tasks, maxAttempts, c, moves[..k]).Some?
    ensures ChildrenNow(Run(tasks, maxAttempts, c, moves[..k]).value) <= Peak(tasks, maxAttempts, c, moves)
    decreases |moves|
  {
    if k > 0 {
      var c1 := Next(tasks, maxAttempts, c, moves[0]).value;
      NeverAbovePeak(tasks, maxAttempts, c1, moves[1..], k - 1);
      assert moves[..k][1..] == moves[1..][..k - 1];
    }
  }

  /** What a maximum becomes when up to `peak` children were seen. */
  function Raised(max: int, peak: nat): int {
    if peak == 0 then max else Max(max, peak)
  }

  lemma MaximumFollows(tasks: seq<TaskKey>, maxAttempts: int, c: Campaign, m: Move, c': Campaign)
    requires c.pass.Some? && Counted(c.pass.value)
    requires Next(tasks, maxAttempts, c, m) == Some(c') && c'.pass.Some?
    ensures c'.pass.value.previousMax == c.pass.value.previousMax
    ensures c'.pass.value.maxObserved == c.pass.value.maxObserved
            || (ChildrenNow(c') > 0 && c'.pass.value.maxObserved == Max(c.pass.value.maxObserved, ChildrenNow(c')))
  {
    if m.Start? {
      MovePlace(c.pass.value.places, m.i, Running);
    }
  }

  /** A pass that is still on was on before. */
  lemma PassWasOn(tasks: seq<TaskKey>, maxAttempts: int, c: Campaign, moves: seq<Move>, c': Campaign)
    requires Run(tasks, maxAttempts, c, moves) == Some(c') && forall m :: m in moves ==> !m.Begin?
    ensures c'.pass.Some? ==> c.pass.Some?
  {
    assert moves != [] ==> moves[0] in moves;
  }

  /** A step that leaves the maximum as it is, or raises it to the children there are now. */
  lemma RaisedOnce(max: int, now: nat, max1: int, now1: nat, peak1: nat)
    requires now > 0 ==> now <= max
    requires max1 == max || (now1 > 0 && max1 == Max(max, now1))
    requires now1 <= peak1
    ensures Raised(max1, peak1) == Raised(max, Max(now, peak1))
  {
  }

  lemma NowIsInPeak(tasks: seq<TaskKey>, maxAttempts: int, c: Campaign, moves: seq<Move>)
    requires Run(tasks, maxAttempts, c, moves).Some?
    ensures ChildrenNow(c) <= Peak(tasks, maxAttempts, c, moves)
  {
  }

  lemma {:induction false} MaximumIsRaised(tasks: seq<TaskKey>, maxAttempts: int, c: Campaign, moves: seq<Move>,
                                           c': Campaign)
    requires NoDuplicates(tasks) && Inv(tasks, maxAttempts, c) && c.pass.Some? && c'.pass.Some?
    requires Run(tasks, maxAttempts, c, moves) == Some(c') && forall m :: m in moves ==> !m.Begin?
    ensures c'.pass.value.maxObserved == Raised(c.pass.value.maxObserved, Peak(tasks, maxAttempts, c, moves))
    ensures c'.pass.value.previousMax == c.pass.value.previousMax
    decreases |moves|
  {
    if moves != [] {
      var c1 := Next(tasks, maxAttempts, c, moves[0]).value;
      PassWasOn(tasks, maxAttempts, c1, moves[1..], c');
      KeepsInv(tasks, maxAttempts, c, moves[0], c1);
      MaximumFollows(tasks, maxAttempts, c, moves[0], c1);
      MaximumIsRaised(tasks, maxAttempts, c1, moves[1..], c');
      NowIsInPeak(tasks, maxAttempts, c1, moves[1..]);
      RaisedOnce(c.pass.value.maxObserved, ChildrenNow(c), c1.pass.value.maxObserved, ChildrenNow(c1),
                 Peak(tasks, maxAttempts, c1, moves[1..]));
    }
  }

  /** The maximum that a pass reports is the one reported before it or the most children it ever had, whichever
      is larger. */
  lemma ReportedMaximumIsThePeak(tasks: seq<TaskKey>, maxAttempts: int, c: Campaign, numEnvs: int, previousMax: int,
                                 moves: seq<Move>, c': Campaign)
    requires NoDuplicates(tasks) && Inv(tasks, maxAttempts, c)
    requires Run(tasks, maxAttempts, c, [Begin(numEnvs, previousMax)] + moves) == Some(c')
    requires c'.pass.Some? && forall m :: m in moves ==> !m.Begin?
    ensures var peak := Peak(tasks, maxAttempts, c, [Begin(numEnvs, previousMax)] + moves);
            c'.pass.value.maxObserved == if peak == 0 then previousMax else Max(previousMax, peak)
  {
    var all := [Begin(numEnvs, previousMax)] + moves;
    assert all[1..] == moves && all[0] == Begin(numEnvs, previousMax);
    var c1 := Next(tasks, maxAttempts, c, all[0]).value;
    KeepsInv(tasks, maxAttempts, c, all[0], c1);
    MaximumIsRaised(tasks, maxAttempts, c1, moves, c');
  }

  lemma PeakUnfolds(tasks: seq<TaskKey>, maxAttempts: int, c: Campaign, moves: seq<Move>, c1: Campaign)
    requires moves != [] && Next(tasks, maxAttempts, c, moves[0]) == Some(c1)
    requires Run(tasks, maxAttempts, c1, moves[1..]).Some?
    ensures Run(tasks, maxAttempts, c, moves).Some?
    ensures Peak(tasks, maxAttempts, c, moves) == Max(ChildrenNow(c), Peak(tasks, maxAttempts, c1, moves[1..]))
  {
  }

  /** The peak of one run after another is the larger of the two. */
  lemma {:induction false} PeakConcat(tasks: seq<TaskKey>, maxAttempts: int, c: Campaign, moves: seq<Move>,
                                      c': Campaign, more: seq<Move>)
    requires Run(tasks, maxAttempts, c, moves) == Some(c') && Run(tasks, maxAttempts, c', more).Some?
    ensures Run(tasks, maxAttempts, c, moves + more).Some?
    ensures Peak(tasks, maxAttempts, c, moves + more)
            == Max(Peak(tasks, maxAttempts, c, moves), Peak(tasks, maxAttempts, c', more))
    decreases |moves|
  {
    if moves == [] {
      assert moves + more == more;
      NowIsInPeak(tasks, maxAttempts, c', more);
    } else {
      var c1 := Next(tasks, maxAttempts, c, moves[0]).value;
      PeakConcat(tasks, maxAttempts, c1, moves[1..], c', more);
      TailOfConcat(moves, more);
      PeakUnfolds(tasks, maxAttempts, c, moves + more, c1);
    }
  }

  /** The coroutine has had its child. */
  predicate HadChild(c: Campaign, i: int) {
    && c.pass.Some? && 0 <= i < |c.pass.value.places|
    && (c.pass.value.places[i] == Running || c.pass.value.places[i] == Ended)
  }

  lemma ChildShows(c: Campaign, i: int)
    requires HadChild(c, i) && c.pass.value.places[i] == Running
    ensures ChildrenNow(c) >= 1
  {
    var places := c.pass.value.places;
    MovePlace(places, i, Ended);
  }

  lemma FirstChildShows(tasks: seq<TaskKey>, maxAttempts: int, c: Campaign, m: Move, c': Campaign, i: int)
    requires Next(tasks, maxAttempts, c, m) == Some(c') && HadChild(c', i) && !HadChild(c, i)
    ensures ChildrenNow(c') >= 1
  {
    ChildShows(c', i);
  }

  /** Where a coroutine has had its child, the peak was at least one. */
  lemma {:induction false} ChildIsInPeak(tasks: seq<TaskKey>, maxAttempts: int, c: Campaign, moves: seq<Move>,
                                         c': Campaign, i: int)
    requires Run(tasks, maxAttempts, c, moves) == Some(c') && HadChild(c', i) && !HadChild(c, i)
    ensures Peak(tasks, maxAttempts, c, moves) >= 1
    decreases |moves|
  {
    if moves != [] {
      var c1 := Next(tasks, maxAttempts, c, moves[0]).value;
      if HadChild(c1, i) {
        FirstChildShows(tasks, maxAttempts, c, moves[0], c1, i);
        NowIsInPeak(tasks, maxAttempts, c1, moves[1..]);
      } else {
        ChildIsInPeak(tasks, maxAttempts, c1, moves[1..], c', i);
      }
    }
  }

  lemma RaisedTwice(max: int, first: nat, second: nat)
    ensures Raised(Raised(max, first), second) == Raised(max, Max(first, second))
  {
  }

  /** `value` is the most children a run ever had, or what was reported before if that is more. */
  ghost predicate ReportsPeak(tasks: seq<TaskKey>, maxAttempts: int, log: seq<AttemptEvent>, moves: seq<Move>,
                              previousMax: int, value: int) {
    && Run(tasks, maxAttempts, Campaign(log, None), moves).Some?
    && var peak := Peak(tasks, maxAttempts, Campaign(log, None), moves);
       value == if peak == 0 then previousMax else Max(previousMax, peak)
  }

  lemma NothingReported(tasks: seq<TaskKey>, maxAttempts: int, log: seq<AttemptEvent>, previousMax: int)
    ensures ReportsPeak(tasks, maxAttempts, log, [], previousMax, previousMax)
  {
    assert Run(tasks, maxAttempts, Campaign(log, None), []) == Some(Campaign(log, None));
  }

  /** A report that starts from the report of the run before covers both. */
  lemma ReportsOn(tasks: seq<TaskKey>, maxAttempts: int, log: seq<AttemptEvent>, moves: seq<Move>,
                  middle: seq<AttemptEvent>, more: seq<Move>, previousMax: int, value: int, value': int)
    requires Run(tasks, maxAttempts, Campaign(log, None), moves) == Some(Campaign(middle, None))
    requires ReportsPeak(tasks, maxAttempts, log, moves, previousMax, value)
    requires ReportsPeak(tasks, maxAttempts, middle, more, value, value')
    ensures ReportsPeak(tasks, maxAttempts, log, moves + more, previousMax, value')
  {
    PeakConcat(tasks, maxAttempts, Campaign(log, None), moves, Campaign(middle, None), more);
    RaisedTwice(previousMax, Peak(tasks, maxAttempts, Campaign(log, None), moves),
                Peak(tasks, maxAttempts, Campaign(middle, None), more));
  }
}
