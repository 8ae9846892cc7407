/** What holds over whole campaign histories: any passes, resumes and crashes, in any interleaving. */
module CampaignInvariants {
  import opened Prelude
  import opened Results
  import opened LedgerTheorems
  import opened Evidence
  import opened CampaignMachine

  predicate IsBusy(place: Place) {
    place == Spawning || place == Running
  }

  function Busy(places: seq<Place>): nat {
    Count(places, p => IsBusy(p))
  }

  function Children(places: seq<Place>): nat {
    Count(places, p => p == Running)
  }

  /** What the log knows about the candidate of a coroutine at `place`. */
  ghost predicate CandidateFits(log: seq<AttemptEvent>, t: TaskKey, attempt: int, place: Place) {
    match place
    case Waiting =>
      && t !in TerminalTasks(log)
      && (History(log, t, attempt) == [] || EndsWith(History(log, t, attempt), Planned))
    case Spawning => t !in TerminalTasks(log) && EndsWith(History(log, t, attempt), Planned)
    case Running => t !in TerminalTasks(log) && EndsWith(History(log, t, attempt), Started)
    case _ => true
  }

  /** The counters of a pass agree with where its coroutines are. */
  ghost predicate Counted(p: Pass) {
    && |p.places| == |p.candidates|
    && p.numEnvs >= 1
    && p.permits == p.numEnvs - Busy(p.places) && 0 <= p.permits
    && p.active == Children(p.places)
    && p.previousMax <= p.maxObserved <= Max(p.previousMax, p.numEnvs)
    && (p.active > 0 ==> p.active <= p.maxObserved)
  }

  ghost predicate PassFits(tasks: seq<TaskKey>, maxAttempts: int, log: seq<AttemptEvent>, p: Pass) {
    && |p.places| == |p.candidates|
    && NoDuplicates(CandidateTasks(p.candidates))
    && (forall i :: 0 <= i < |p.candidates| ==>
          p.candidates[i].0 in tasks && 1 <= p.candidates[i].1 <= maxAttempts)
    && (forall i :: 0 <= i < |p.candidates| ==>
          CandidateFits(log, p.candidates[i].0, p.candidates[i].1, p.places[i]))
  }

  ghost predicate InRange(log: seq<AttemptEvent>, maxAttempts: int) {
    forall e :: e in log ==> 1 <= e.attempt <= maxAttempts
  }

  ghost predicate Inv(tasks: seq<TaskKey>, maxAttempts: int, c: Campaign) {
    && Built(tasks, c.log) && InRange(c.log, maxAttempts) && OneValidPerTask(c.log)
    && (c.pass.Some? ==> Counted(c.pass.value) && PassFits(tasks, maxAttempts, c.log, c.pass.value))
  }

  // ----- counting places -----

  lemma {:induction false} CountUpdate<T(!new)>(s: seq<T>, i: nat, x: T, p: T -> bool)
    requires i < |s|
    ensures Count(s[i := x], p) == Count(s, p) - (if p(s[i]) then 1 else 0) + (if p(x) then 1 else 0)
  {
    CountWithout(s, i, p);
    CountWithout(s[i := x], i, p);
    assert s[i := x][..i] + s[i := x][i + 1..] == s[..i] + s[i + 1..];
  }

  lemma MovePlace(places: seq<Place>, i: nat, place: Place)
    requires i < |places|
    ensures Busy(places[i := place])
            == Busy(places) - (if IsBusy(places[i]) then 1 else 0) + (if IsBusy(place) then 1 else 0)
    ensures Children(places[i := place])
            == Children(places) - (if places[i] == Running then 1 else 0) + (if place == Running then 1 else 0)
  {
    CountUpdate(places, i, place, p => IsBusy(p));
    CountUpdate(places, i, place, p => p == Running);
    BusyIs(places);
    BusyIs(places[i := place]);
  }

  /** `Busy` and `Children` as counts of these very functions. */
  lemma {:induction false} BusyIs(places: seq<Place>)
    ensures Busy(places) == Count(places, p => IsBusy(p))
    ensures Children(places) == Count(places, p => p == Running)
  {
    if places != [] {
      var n := |places| - 1;
      BusyIs(places[..n]);
      assert places == places[..n] + [places[n]];
    }
  }

  lemma {:induction false} ChildrenAreBusy(places: seq<Place>)
    ensures Children(places) <= Busy(places)
  {
    if places != [] {
      var n := |places| - 1;
      ChildrenAreBusy(places[..n]);
      assert places == places[..n] + [places[n]];
    }
  }

  // ----- one append at a time -----

  lemma TerminalAppend(log: seq<AttemptEvent>, e: AttemptEvent)
    ensures TerminalTasks(log + [e]) == TerminalTasks(log) + (if IsValid(e) then {e.task} else {})
  {
    assert forall x :: x in log + [e] <==> x in log || x == e;
  }

  lemma AppendKeepsLog(tasks: seq<TaskKey>, maxAttempts: int, log: seq<AttemptEvent>, e: AttemptEvent)
    requires Built(tasks, log) && InRange(log, maxAttempts) && OneValidPerTask(log)
    requires Legal(e) && Accepted(tasks, log, e) && e.attempt <= maxAttempts
    requires IsValid(e) ==> e.task !in TerminalTasks(log)
    ensures Built(tasks, log + [e]) && InRange(log + [e], maxAttempts) && OneValidPerTask(log + [e])
  {
    BuiltAppend(tasks, log, e);
  }

  /** An event of one candidate says nothing about another. */
  lemma OtherStillFits(log: seq<AttemptEvent>, e: AttemptEvent, t: TaskKey, attempt: int, place: Place)
    requires CandidateFits(log, t, attempt, place) && e.task != t
    ensures CandidateFits(log + [e], t, attempt, place)
  {
    HistoryAppend(log, e, t, attempt);
    TerminalAppend(log, e);
  }

  lemma PassStillFits(tasks: seq<TaskKey>, maxAttempts: int, log: seq<AttemptEvent>, p: Pass, p': Pass, i: nat,
                      e: AttemptEvent)
    requires PassFits(tasks, maxAttempts, log, p) && i < |p.candidates| && e.task == p.candidates[i].0
    requires p'.candidates == p.candidates && |p'.places| == |p.places|
    requires forall j :: 0 <= j < |p.places| && j != i ==> p'.places[j] == p.places[j]
    requires CandidateFits(log + [e], p.candidates[i].0, p.candidates[i].1, p'.places[i])
    ensures PassFits(tasks, maxAttempts, log + [e], p')
  {
    forall j | 0 <= j < |p.candidates|
      ensures CandidateFits(log + [e], p.candidates[j].0, p.candidates[j].1, p'.places[j])
    {
      if j != i {
        var names := CandidateTasks(p.candidates);
        assert names[i] != names[j];
        OtherStillFits(log, e, p.candidates[j].0, p.candidates[j].1, p.places[j]);
      }
    }
  }

  lemma BrokenFits(tasks: seq<TaskKey>, maxAttempts: int, log: seq<AttemptEvent>, p: Pass, p': Pass, i: nat)
    requires PassFits(tasks, maxAttempts, log, p) && i < |p.candidates|
    requires p'.candidates == p.candidates && p'.places == p.places[i := Broken]
    ensures PassFits(tasks, maxAttempts, log, p')
  {
  }

  lemma PlanCounts(p: Pass, i: int)
    requires Counted(p) && InPass(p, i) && p.places[i] == Waiting && p.permits > 0
    ensures Counted(p.(places := p.places[i := Spawning], permits := p.permits - 1))
  {
    MovePlace(p.places, i, Spawning);
  }

  lemma PlanAcceptedKeeps(tasks: seq<TaskKey>, maxAttempts: int, c: Campaign, p: Pass, i: int, c': Campaign)
    requires Inv(tasks, maxAttempts, c) && c.pass == Some(p) && InPass(p, i) && PlanStep(tasks, c, p, i) == Some(c')
    requires Accepted(tasks, c.log, PlannedEvent(p.candidates[i].0, p.candidates[i].1))
    ensures Inv(tasks, maxAttempts, c')
  {
    var (t, attempt) := p.candidates[i];
    var e := PlannedEvent(t, attempt);
    PlanCounts(p, i);
    assert CandidateFits(c.log, t, attempt, p.places[i]);
    AppendKeepsLog(tasks, maxAttempts, c.log, e);
    HistoryAppend(c.log, e, t, attempt);
    TerminalAppend(c.log, e);
    PassStillFits(tasks, maxAttempts, c.log, p, c'.pass.value, i, e);
  }

  lemma PlanRefusedKeeps(tasks: seq<TaskKey>, maxAttempts: int, c: Campaign, p: Pass, i: int, c': Campaign)
    requires Inv(tasks, maxAttempts, c) && c.pass == Some(p) && InPass(p, i) && PlanStep(tasks, c, p, i) == Some(c')
    requires !Accepted(tasks, c.log, PlannedEvent(p.candidates[i].0, p.candidates[i].1))
    ensures Inv(tasks, maxAttempts, c')
  {
    MovePlace(p.places, i, Broken);
    BrokenFits(tasks, maxAttempts, c.log, p, c'.pass.value, i);
  }

  lemma StartCounts(p: Pass, i: int)
    requires Counted(p) && InPass(p, i) && p.places[i] == Spawning
    ensures Counted(p.(places := p.places[i := Running], active := p.active + 1,
                       maxObserved := Max(p.maxObserved, p.active + 1)))
  {
    MovePlace(p.places, i, Running);
    ChildrenAreBusy(p.places[i := Running]);
  }

  /** What is planned and fits can be started, and fits again. */
  lemma StartFits(tasks: seq<TaskKey>, log: seq<AttemptEvent>, t: TaskKey, attempt: int)
    requires Built(tasks, log) && t in tasks && 1 <= attempt && CandidateFits(log, t, attempt, Spawning)
    ensures Accepted(tasks, log, StartedEvent(t, attempt))
    ensures CandidateFits(log + [StartedEvent(t, attempt)], t, attempt, Running)
  {
    HistoryAppend(log, StartedEvent(t, attempt), t, attempt);
    TerminalAppend(log, StartedEvent(t, attempt));
  }

  lemma StartKeeps(tasks: seq<TaskKey>, maxAttempts: int, c: Campaign, p: Pass, i: int, c': Campaign)
    requires Inv(tasks, maxAttempts, c) && c.pass == Some(p) && InPass(p, i) && StartStep(tasks, c, p, i) == Some(c')
    ensures Inv(tasks, maxAttempts, c')
  {
    var (t, attempt) := p.candidates[i];
    StartCounts(p, i);
    StartFits(tasks, c.log, t, attempt);
    AppendKeepsLog(tasks, maxAttempts, c.log, StartedEvent(t, attempt));
    PassStillFits(tasks, maxAttempts, c.log, p, c'.pass.value, i, StartedEvent(t, attempt));
  }

  lemma FinishKeeps(tasks: seq<TaskKey>, maxAttempts: int, c: Campaign, p: Pass, i: int, o: Observation, c': Campaign)
    requires Inv(tasks, maxAttempts, c) && c.pass == Some(p) && InPass(p, i)
    requires FinishStep(tasks, c, p, i, o) == Some(c')
    ensures Inv(tasks, maxAttempts, c')
  {
    var (t, attempt) := p.candidates[i];
    var e := Classify(t, attempt, o);
    ClassificationIsLegal(t, attempt, o);
    MovePlace(p.places, i, c'.pass.value.places[i]);
    assert CandidateFits(c.log, t, attempt, p.places[i]);
    AppendKeepsLog(tasks, maxAttempts, c.log, e);
    PassStillFits(tasks, maxAttempts, c.log, p, c'.pass.value, i, e);
  }

  lemma {:induction false} AllWaiting(n: nat)
    ensures Busy(seq(n, _ => Waiting)) == 0 && Children(seq(n, _ => Waiting)) == 0
  {
    if n > 0 {
      AllWaiting(n - 1);
      assert seq(n, _ => Waiting)[..n - 1] == seq(n - 1, _ => Waiting);
    }
  }

  lemma CandidateIsAllowed(tasks: seq<TaskKey>, log: seq<AttemptEvent>, maxAttempts: int, t: TaskKey, attempt: int)
    requires Built(tasks, log) && InRange(log, maxAttempts) && maxAttempts >= 1
    requires (t, attempt) in Candidates(tasks, log, maxAttempts)
    ensures attempt <= maxAttempts
  {
    CandidateIs(tasks, log, maxAttempts, t, attempt);
    if HasEvent(log, t) {
      LatestIsLatest(log, t);
      var h := History(log, t, LatestAttempt(log, t));
      assert h[0] in h;
    }
  }

  lemma CandidateStaysInRange(tasks: seq<TaskKey>, log: seq<AttemptEvent>, maxAttempts: int, t: TaskKey, attempt: int)
    requires Built(tasks, log) && InRange(log, maxAttempts) && maxAttempts >= 1
    requires (t, attempt) in Candidates(tasks, log, maxAttempts)
    ensures 1 <= attempt <= maxAttempts && CandidateFits(log, t, attempt, Waiting) && t in tasks
  {
    ResumeIsSound(tasks, log, maxAttempts, t, attempt);
    CandidateIsAllowed(tasks, log, maxAttempts, t, attempt);
  }

  lemma FreshPassFits(tasks: seq<TaskKey>, maxAttempts: int, log: seq<AttemptEvent>, numEnvs: int, previousMax: int)
    requires NoDuplicates(tasks) && Built(tasks, log) && InRange(log, maxAttempts) && maxAttempts >= 1
    ensures PassFits(tasks, maxAttempts, log, FreshPass(Candidates(tasks, log, maxAttempts), numEnvs, previousMax))
  {
    var candidates := Candidates(tasks, log, maxAttempts);
    CandidatesFollowInventory(tasks, log, maxAttempts);
    forall i | 0 <= i < |candidates|
      ensures candidates[i].0 in tasks && 1 <= candidates[i].1 <= maxAttempts
      ensures CandidateFits(log, candidates[i].0, candidates[i].1, Waiting)
    {
      assert candidates[i] in candidates;
      CandidateStaysInRange(tasks, log, maxAttempts, candidates[i].0, candidates[i].1);
    }
  }

  lemma BeginKeeps(tasks: seq<TaskKey>, maxAttempts: int, c: Campaign, m: Move, c': Campaign)
    requires NoDuplicates(tasks) && Inv(tasks, maxAttempts, c) && c.pass == None
    requires Next(tasks, maxAttempts, c, m) == Some(c')
    ensures Inv(tasks, maxAttempts, c')
  {
    AllWaiting(|Candidates(tasks, c.log, maxAttempts)|);
    FreshPassFits(tasks, maxAttempts, c.log, m.numEnvs, m.previousMax);
  }

  lemma SpawnFailsKeeps(tasks: seq<TaskKey>, maxAttempts: int, c: Campaign, p: Pass, i: nat)
    requires Inv(tasks, maxAttempts, c) && c.pass == Some(p) && InPass(p, i) && p.places[i] == Spawning
    ensures Inv(tasks, maxAttempts, c.(pass := Some(p.(places := p.places[i := Broken], permits := p.permits + 1))))
  {
    MovePlace(p.places, i, Broken);
    BrokenFits(tasks, maxAttempts, c.log, p, p.(places := p.places[i := Broken], permits := p.permits + 1), i);
  }

  lemma KeepsInv(tasks: seq<TaskKey>, maxAttempts: int, c: Campaign, m: Move, c': Campaign)
    requires NoDuplicates(tasks) && Inv(tasks, maxAttempts, c) && Next(tasks, maxAttempts, c, m) == Some(c')
    ensures Inv(tasks, maxAttempts, c')
  {
    if c.pass == None {
      BeginKeeps(tasks, maxAttempts, c, m, c');
    } else {
      var p := c.pass.value;
      match m
      case Plan(i) =>
        if Accepted(tasks, c.log, PlannedEvent(p.candidates[i].0, p.candidates[i].1)) {
          PlanAcceptedKeeps(tasks, maxAttempts, c, p, i, c');
        } else {
          PlanRefusedKeeps(tasks, maxAttempts, c, p, i, c');
        }
      case Start(i) => StartKeeps(tasks, maxAttempts, c, p, i, c');
      case SpawnFails(i) => SpawnFailsKeeps(tasks, maxAttempts, c, p, i);
      case Finish(i, o) => FinishKeeps(tasks, maxAttempts, c, p, i, o, c');
      case _ =>
    }
  }

  lemma {:induction false} RunKeepsInv(tasks: seq<TaskKey>, maxAttempts: int, c: Campaign, moves: seq<Move>,
                                       c': Campaign)
    requires NoDuplicates(tasks) && Inv(tasks, maxAttempts, c) && Run(tasks, maxAttempts, c, moves) == Some(c')
    ensures Inv(tasks, maxAttempts, c')
    decreases |moves|
  {
    if moves != [] {
      var c1 := Next(tasks, maxAttempts, c, moves[0]).value;
      KeepsInv(tasks, maxAttempts, c, moves[0], c1);
      RunKeepsInv(tasks, maxAttempts, c1, moves[1..], c');
    }
  }

  lemma {:induction false} RunConcat(tasks: seq<TaskKey>, maxAttempts: int, c: Campaign, moves: seq<Move>,
                                     c': Campaign, more: seq<Move>, c'': Campaign)
    requires Run(tasks, maxAttempts, c, moves) == Some(c') && Run(tasks, maxAttempts, c', more) == Some(c'')
    ensures Run(tasks, maxAttempts, c, moves + more) == Some(c'')
    decreases |moves|
  {
    if moves == [] {
      assert moves + more == more;
    } else {
      TailOfConcat(moves, more);
      RunConcat(tasks, maxAttempts, Next(tasks, maxAttempts, c, moves[0]).value, moves[1..], c', more, c'');
    }
  }

  // ----- whole histories -----

  /** `c` comes from an empty ledger by passes of coordinators that may crash at any step. */
  ghost predicate Reachable(tasks: seq<TaskKey>, maxAttempts: int, c: Campaign) {
    exists moves :: Run(tasks, maxAttempts, Campaign([], None), moves) == Some(c)
  }

  lemma ReachableInv(tasks: seq<TaskKey>, maxAttempts: int, c: Campaign)
    requires NoDuplicates(tasks) && Reachable(tasks, maxAttempts, c)
    ensures Inv(tasks, maxAttempts, c)
  {
    var moves :| Run(tasks, maxAttempts, Campaign([], None), moves) == Some(c);
    RunKeepsInv(tasks, maxAttempts, Campaign([], None), moves, c);
  }

  /** No task ever gets two valid terminal events, so every result is the only one of its task. */
  lemma AtMostOneValidPerTask(tasks: seq<TaskKey>, maxAttempts: int, c: Campaign)
    requires NoDuplicates(tasks) && Reachable(tasks, maxAttempts, c)
    ensures OneValidPerTask(c.log)
    ensures forall e :: e in c.log && IsValid(e) ==>
              e.task in ValidResults(c.log) && ValidResults(c.log)[e.task] == RewardOf(e)
  {
    ReachableInv(tasks, maxAttempts, c);
    forall e | e in c.log && IsValid(e)
      ensures e.task in ValidResults(c.log) && ValidResults(c.log)[e.task] == RewardOf(e)
    {
      ResultIsTheOne(c.log, e);
    }
  }

  /** The semaphore bounds the children of a pass, and no more are active than the reported maximum says. */
  lemma ChildrenStayBounded(tasks: seq<TaskKey>, maxAttempts: int, c: Campaign)
    requires NoDuplicates(tasks) && Reachable(tasks, maxAttempts, c) && c.pass.Some?
    ensures var p := c.pass.value;
            && p.active == Children(p.places) && 0 <= p.active <= p.numEnvs
            && p.maxObserved <= Max(p.previousMax, p.numEnvs) && (p.active > 0 ==> p.active <= p.maxObserved)
  {
    ReachableInv(tasks, maxAttempts, c);
    ChildrenAreBusy(c.pass.value.places);
  }

  // ----- how many attempts there can be -----

  function Attempts(t: TaskKey, maxAttempts: int): set<(TaskKey, int)> {
    set a | 1 <= a <= maxAttempts :: (t, a)
  }

  lemma {:induction false} AttemptsOfTask(t: TaskKey, maxAttempts: nat)
    ensures |Attempts(t, maxAttempts)| == maxAttempts
  {
    if maxAttempts == 0 {
      assert Attempts(t, maxAttempts) == {};
    } else {
      AttemptsOfTask(t, maxAttempts - 1);
      assert Attempts(t, maxAttempts) == Attempts(t, maxAttempts - 1) + {(t, maxAttempts)};
    }
  }

  lemma {:induction false} SubsetIsSmaller<T>(a: set<T>, b: set<T>)
    requires a <= b
    ensures |a| <= |b|
  {
    assert b == a + (b - a);
  }

  lemma KeysOfTaskAreFew(keys: set<(TaskKey, int)>, t: TaskKey, maxAttempts: nat)
    requires forall key :: key in keys ==> key.0 == t && 1 <= key.1 <= maxAttempts
    ensures |keys| <= maxAttempts
  {
    AttemptsOfTask(t, maxAttempts);
    forall key | key in keys ensures key in Attempts(t, maxAttempts) {
      assert key == (t, key.1);
    }
    SubsetIsSmaller(keys, Attempts(t, maxAttempts));
  }

  lemma SplitSize<T>(all: set<T>, part: set<T>)
    requires part <= all
    ensures |all| == |all - part| + |part|
  {
    assert all == (all - part) + part;
  }

  lemma {:induction false} KeysAreFew(tasks: seq<TaskKey>, maxAttempts: nat, keys: set<(TaskKey, int)>)
    requires forall key :: key in keys ==> key.0 in tasks && 1 <= key.1 <= maxAttempts
    ensures |keys| <= |tasks| * maxAttempts
  {
    if tasks == [] {
      assert keys == {};
    } else {
      var n := |tasks| - 1;
      var t := tasks[n];
      assert tasks == tasks[..n] + [t];
      var mine := set key | key in keys && key.0 == t;
      KeysAreFew(tasks[..n], maxAttempts, keys - mine);
      KeysOfTaskAreFew(mine, t, maxAttempts);
      SplitSize(keys, mine);
      OneMoreRow(n, maxAttempts);
    }
  }

  lemma OneMoreRow(n: nat, width: nat)
    ensures (n + 1) * width == n * width + width
  {
  }

  /** Every planned attempt has its own key. */
  lemma {:induction false} PlannedIsKeys(tasks: seq<TaskKey>, log: seq<AttemptEvent>)
    requires Built(tasks, log)
    ensures KindCount(log, Planned) == |Keys(log)|
  {
    if log != [] {
      var n := |log| - 1;
      var before, e := log[..n], log[n];
      assert log == before + [e];
      PlannedIsKeys(tasks, before);
      KindAppend(before, e, Planned);
      KeysAppend(before, e);
      NoOtherKind(e);
      if e.event == Planned {
        AcceptedPlanned(tasks, before, e);
      } else if e.event == Started {
        AcceptedStarted(tasks, before, e);
      } else {
        AcceptedTerminal(tasks, before, e);
      }
      assert e.event != Planned ==> Keys(before) + {(e.task, e.attempt)} == Keys(before);
    } else {
      assert Keys(log) == {};
    }
  }

  /** Over any history of passes, resumes and crashes, at most tasks * maxAttempts attempts are ever
      started, or even planned. */
  lemma AttemptsAreBounded(tasks: seq<TaskKey>, maxAttempts: nat, c: Campaign)
    requires NoDuplicates(tasks) && Reachable(tasks, maxAttempts, c)
    ensures KindCount(c.log, Started) <= KindCount(c.log, Planned) <= |tasks| * maxAttempts
  {
    ReachableInv(tasks, maxAttempts, c);
    forall key | key in Keys(c.log) ensures key.0 in tasks && 1 <= key.1 <= maxAttempts {
      var e :| e in c.log && (e.task, e.attempt) == key;
      BuiltEvents(tasks, c.log, e);
    }
    KeysAreFew(tasks, maxAttempts, Keys(c.log));
    PlannedIsKeys(tasks, c.log);
    AttemptsAddUp(tasks, c.log);
  }
}
