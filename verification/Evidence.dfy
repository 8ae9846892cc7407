/**
 How the coordinator judges a finished attempt: the cleanup status it reads from the relay's event
 log, the reward it reads from the result files, and the ledger event it builds from them. The
 relay's own guarantees meet the ledger's here.
 */
module Evidence {
  import opened Prelude
  import opened RelayMachine
  import opened RelayConservation
  import opened RelayInvariants
  import opened RelayTheorems
  import opened Results

  /** What the coordinator looks for in a line of the relay's event log: which event it is, and the text of
      its sandbox id, empty when there is none. */
  datatype EntryKind = CreatedEntry | CleanedEntry | FailedEntry | OtherEntry

  datatype Entry = Entry(kind: EntryKind, sandbox: string)

  /** The relay's event log as the coordinator reads it. */
  datatype LogFile = NoFile | Unreadable | Lines(entries: seq<Entry>)

  function Named(entries: seq<Entry>, kind: EntryKind): set<string> {
    set e | e in entries && e.kind == kind && e.sandbox != "" :: e.sandbox
  }

  /** `_cleanup_status`. */
  function StatusOf(file: LogFile): CleanupStatus {
    match file
    case NoFile => NotObserved
    case Unreadable => Malformed
    case Lines(entries) =>
      var created, cleaned := Named(entries, CreatedEntry), Named(entries, CleanedEntry);
      if exists e :: e in entries && e.kind == FailedEntry then Failed
      else if cleaned != {} && (created == {} || created <= cleaned) then Success
      else NotObserved
  }

  ghost predicate HasEntry(entries: seq<Entry>, kind: EntryKind, sandbox: string) {
    exists e :: e in entries && e.kind == kind && e.sandbox == sandbox
  }

  /** The status by the lines alone: failed if any cleanup failed; else success if some named sandbox was cleaned
      and every named one that was created was; else, and without a file, not observed. */
  lemma StatusTells(file: LogFile)
    ensures StatusOf(file) == Malformed <==> file == Unreadable
    ensures file == NoFile ==> StatusOf(file) == NotObserved
    ensures file.Lines? ==>
              var failed := exists e :: e in file.entries && e.kind == FailedEntry;
              && (StatusOf(file) == Failed <==> failed)
              && (StatusOf(file) == Success
                  <==> && !failed && (exists name :: name != "" && HasEntry(file.entries, CleanedEntry, name))
                       && (forall name :: name != "" && HasEntry(file.entries, CreatedEntry, name) ==>
                             HasEntry(file.entries, CleanedEntry, name)))
  {
    if file.Lines? {
      var created, cleaned := Named(file.entries, CreatedEntry), Named(file.entries, CleanedEntry);
      forall name ensures name in created <==> name != "" && HasEntry(file.entries, CreatedEntry, name) {
      }
      forall name ensures name in cleaned <==> name != "" && HasEntry(file.entries, CleanedEntry, name) {
      }
      if name :| name in cleaned {
      }
    }
  }

  /** The content of a `result.txt`, as far as it parses. */
  datatype ResultFile = UnreadableResult | NotANumber | Number(reward: Reward)

  /** `_parse_reward`: a reward or the reason why there is none. */
  function ParseReward(files: seq<ResultFile>): Result<Reward, Reason> {
    if files == [] then Err(MissingResult)
    else if |files| != 1 then Err(IdentityDrift)
    else
      match files[0]
      case UnreadableResult => Err(MalformedResult)
      case NotANumber => Err(MalformedResult)
      case Number(reward) => if reward.NonFinite? then Err(MalformedResult) else Ok(reward)
  }

  /** What is left of one child process; `exitCode` is None when there was no process. */
  datatype Observation = Observation(
    interrupted: bool,
    timedOut: bool,
    exitCode: Option<int>,
    results: seq<ResultFile>,
    relayLog: LogFile)

  /** The terminal event that `run_attempt` appends. */
  function Classify(task: TaskKey, attempt: int, o: Observation): AttemptEvent {
    var cleanup := StatusOf(o.relayLog);
    var parsed := ParseReward(o.results);
    if o.interrupted then InvalidEvent(task, attempt, Interrupted, cleanup)
    else if o.timedOut then InvalidEvent(task, attempt, TimedOut, cleanup)
    else if o.exitCode != Some(0) then InvalidEvent(task, attempt, RunnerExit, cleanup)
    else if parsed.Err? then InvalidEvent(task, attempt, parsed.error, cleanup)
    else if cleanup != Success then InvalidEvent(task, attempt, CleanupFailure, cleanup)
    else ValidEvent(task, attempt, parsed.value, cleanup)
  }

  /** Classification never builds an event the constructor refuses, and the event is valid exactly when
      the child exited 0 in time and uninterrupted, left one finite reward, and its relay log proves
      the cleanup. */
  lemma ClassificationIsLegal(task: TaskKey, attempt: int, o: Observation)
    requires 1 <= attempt
    ensures Legal(Classify(task, attempt, o))
    ensures Classify(task, attempt, o).event == Terminal && Of(Classify(task, attempt, o), task, attempt)
    ensures IsValid(Classify(task, attempt, o))
            <==> && !o.interrupted && !o.timedOut && o.exitCode == Some(0)
                 && |o.results| == 1 && o.results[0].Number? && o.results[0].reward.Finite?
                 && StatusOf(o.relayLog) == Success
    ensures IsValid(Classify(task, attempt, o)) ==>
              Classify(task, attempt, o).reward == Some(o.results[0].reward)
    ensures Classify(task, attempt, o).cleanup == Some(StatusOf(o.relayLog))
  {
  }

  /** The recorded reason is the first thing that went wrong: each reason occurs exactly when its own
      check failed and none before it did. */
  lemma ReasonTellsWhy(task: TaskKey, attempt: int, o: Observation, reason: Reason)
    ensures var inTime := !o.interrupted && !o.timedOut;
            var clean := inTime && o.exitCode == Some(0);
            Classify(task, attempt, o).reason == Some(reason)
            <==> match reason
                 case Interrupted => o.interrupted
                 case TimedOut => !o.interrupted && o.timedOut
                 case RunnerExit => inTime && o.exitCode != Some(0)
                 case MissingResult => clean && |o.results| == 0
                 case IdentityDrift => clean && |o.results| > 1
                 case MalformedResult =>
                   clean && |o.results| == 1 && !(o.results[0].Number? && o.results[0].reward.Finite?)
                 case CleanupFailure => clean && |o.results| == 1 && o.results[0].Number? && o.results[0].reward.Finite?
                                        && StatusOf(o.relayLog) != Success
                 case OtherReason(_) => false
  {
  }

  // ----- the relay's log as evidence -----

  /** The text of each sandbox id. */
  type Naming = SandboxId -> string

  /** Sandbox ids are different texts and none is empty. */
  ghost predicate Distinct(name: Naming) {
    (forall i :: name(i) != "") && (forall i, j :: name(i) == name(j) ==> i == j)
  }

  function KindOf(e: RelayEvent): EntryKind {
    match e
    case Created(_, _, _) => CreatedEntry
    case Cleaned(_) => CleanedEntry
    case CleanupFailed(_) => FailedEntry
    case _ => OtherEntry
  }

  function NameOf(e: RelayEvent, name: Naming): string {
    if e.CreateStarted? then "" else name(e.id)
  }

  /** The file as the relay wrote it; it is created with the first event. */
  function FileOf(log: seq<RelayEvent>, name: Naming): LogFile {
    if log == [] then NoFile
    else Lines(seq(|log|, i requires 0 <= i < |log| => Entry(KindOf(log[i]), NameOf(log[i], name))))
  }

  lemma EntryAt(log: seq<RelayEvent>, name: Naming, e: RelayEvent)
    requires e in log
    ensures FileOf(log, name).Lines? && Entry(KindOf(e), NameOf(e, name)) in FileOf(log, name).entries
  {
    var i :| 0 <= i < |log| && log[i] == e;
    assert FileOf(log, name).entries[i] == Entry(KindOf(e), NameOf(e, name));
  }

  lemma EntryFrom(log: seq<RelayEvent>, name: Naming, x: Entry) returns (e: RelayEvent)
    requires FileOf(log, name).Lines? && x in FileOf(log, name).entries
    ensures e in log && x == Entry(KindOf(e), NameOf(e, name))
  {
    var i :| 0 <= i < |log| && FileOf(log, name).entries[i] == x;
    e := log[i];
  }

  /** The names that the file gives for one kind of event are those of its sandboxes. */
  lemma NamedAre(log: seq<RelayEvent>, name: Naming, kind: EntryKind, ids: set<SandboxId>)
    requires FileOf(log, name).Lines? && kind != OtherEntry && forall i :: name(i) != ""
    requires forall id :: id in ids <==> exists e :: e in log && KindOf(e) == kind && e.id == id
    ensures Named(FileOf(log, name).entries, kind) == set id | id in ids :: name(id)
  {
    var entries := FileOf(log, name).entries;
    forall x | x in Named(entries, kind) ensures x in set id | id in ids :: name(id) {
      var entry :| entry in entries && entry.kind == kind && entry.sandbox == x;
      var e := EntryFrom(log, name, entry);
      assert e.id in ids;
    }
    forall id | id in ids ensures name(id) in Named(entries, kind) {
      var e :| e in log && KindOf(e) == kind && e.id == id;
      EntryAt(log, name, e);
    }
  }

  lemma NamesOfLog(log: seq<RelayEvent>, name: Naming)
    requires FileOf(log, name).Lines? && forall i :: name(i) != ""
    ensures Named(FileOf(log, name).entries, CreatedEntry) == set id | id in CreatedIds(log) :: name(id)
    ensures Named(FileOf(log, name).entries, CleanedEntry) == set id | id in CleanedIds(log) :: name(id)
    ensures (exists x :: x in FileOf(log, name).entries && x.kind == FailedEntry) <==> FailedIds(log) != {}
  {
    forall id ensures id in CreatedIds(log) <==> exists e :: e in log && KindOf(e) == CreatedEntry && e.id == id {
    }
    forall id ensures id in CleanedIds(log) <==> exists e :: e in log && KindOf(e) == CleanedEntry && e.id == id {
    }
    NamedAre(log, name, CreatedEntry, CreatedIds(log));
    NamedAre(log, name, CleanedEntry, CleanedIds(log));
    FailuresInLog(log, name);
  }

  lemma FailuresInLog(log: seq<RelayEvent>, name: Naming)
    requires FileOf(log, name).Lines?
    ensures (exists x :: x in FileOf(log, name).entries && x.kind == FailedEntry) <==> FailedIds(log) != {}
  {
    if x :| x in FileOf(log, name).entries && x.kind == FailedEntry {
      var e := EntryFrom(log, name, x);
      assert e.id in FailedIds(log);
    }
    if id :| id in FailedIds(log) {
      var e :| e in log && e.CleanupFailed? && e.id == id;
      EntryAt(log, name, e);
    }
  }

  lemma SubsetByName(a: set<SandboxId>, b: set<SandboxId>, name: Naming)
    requires Distinct(name)
    ensures (set id | id in a :: name(id)) <= (set id | id in b :: name(id)) <==> a <= b
  {
    var left, right := set id | id in a :: name(id), set id | id in b :: name(id);
    if left <= right {
      forall id | id in a ensures id in b {
        assert name(id) in left;
        assert name(id) in right;
      }
    }
  }

  lemma StatusByIds(log: seq<RelayEvent>, name: Naming)
    requires Distinct(name)
    ensures StatusOf(FileOf(log, name)) == Success
            <==> FailedIds(log) == {} && CleanedIds(log) != {} && CreatedIds(log) <= CleanedIds(log)
    ensures StatusOf(FileOf(log, name)) == Failed <==> FailedIds(log) != {}
  {
    if log != [] {
      NamesOfLog(log, name);
      SubsetByName(CreatedIds(log), CleanedIds(log), name);
      NoneCleanedByName(log, name);
    }
  }

  lemma NoneCleanedByName(log: seq<RelayEvent>, name: Naming)
    ensures (set id | id in CleanedIds(log) :: name(id)) == {} <==> CleanedIds(log) == {}
  {
    var names := set id | id in CleanedIds(log) :: name(id);
    if id :| id in CleanedIds(log) {
      assert name(id) in names;
    }
  }

  /** Whenever no operation holds the replace lock, the log reads "success" exactly when there is no
      guest, some sandbox was cleaned and no cleanup ever gave up; and then every sandbox ever created
      was killed. */
  lemma SuccessMeansAllKilled(attempts: int, s: State, name: Naming)
    requires Reachable(attempts, s) && s.replaceLock == None && Distinct(name)
    ensures StatusOf(FileOf(s.log, name)) == Success <==> s.guest == None && s.killed != {} && FailedIds(s.log) == {}
    ensures StatusOf(FileOf(s.log, name)) == Success ==> s.created.Keys == s.killed && s.pending == []
  {
    ReachableInv(attempts, s);
    StatusByIds(s.log, name);
    forall id ensures Elsewhere(s, id) == One(id in s.created) {
      assert Elsewhere(s, id) + HeldNow(s, id) == One(id in s.created);
    }
    PendingHasFailed(s);
    if FailedIds(s.log) == {} {
      if s.guest == None {
        forall id ensures id in s.created <==> id in s.killed {
          assert Elsewhere(s, id) == One(id in s.created);
        }
      } else {
        assert Elsewhere(s, s.guest.value.id) == One(s.guest.value.id in s.created);
      }
    }
  }

  lemma PendingHasFailed(s: State)
    requires LogBase(s)
    ensures s.pending != [] ==> FailedIds(s.log) != {}
  {
    if s.pending != [] {
      var id := s.pending[0];
      assert id in s.pending;
      assert id in FailedIds(s.log);
    }
  }

  /** No guest, nothing pending, and every sandbox was killed except, while a replacement runs, one that its
      creator is killing at this moment and that has no CREATED record, because it came without a traffic
      token. */
  ghost predicate LeftOnlyTokenless(s: State) {
    && s.guest == None && s.pending == [] && s.killed != {} && (forall id :: id in s.killed ==> id in s.created)
    && (s.replaceLock == None ==> s.created.Keys == s.killed)
    && (forall id :: id in s.created && id !in s.killed ==>
          && s.replaceLock.Some? && s.replaceLock.value in s.ops
          && (var pc := s.ops[s.replaceLock.value].pc; pc.Killing? && pc.id == id && pc.after == RaiseError)
          && forall e :: e in s.log && e.Created? ==> e.id != id)
  }

  /** Even while a replacement runs, "success" is wrong about that one kind of sandbox only. */
  lemma SuccessMissesOnlyTokenless(attempts: int, s: State, name: Naming)
    requires Reachable(attempts, s) && Distinct(name) && StatusOf(FileOf(s.log, name)) == Success
    ensures LeftOnlyTokenless(s)
  {
    ReachableInv(attempts, s);
    StatusByIds(s.log, name);
    PendingHasFailed(s);
    GuestIsAlive(s);
    if s.replaceLock == None {
      SuccessMeansAllKilled(attempts, s, name);
    }
    forall id | id in s.killed ensures id in s.created {
      KilledWereCreated(s, id);
    }
    forall id | id in s.created && id !in s.killed
      ensures s.replaceLock.Some? && s.replaceLock.value in s.ops
      ensures var pc := s.ops[s.replaceLock.value].pc; pc.Killing? && pc.id == id && pc.after == RaiseError
      ensures forall e :: e in s.log && e.Created? ==> e.id != id
    {
      assert Accounted(s, id);
      assert id !in CreatedIds(s.log);
    }
  }

  lemma KilledWereCreated(s: State, id: SandboxId)
    requires Conserved(s) && id in s.killed
    ensures id in s.created
  {
    assert Elsewhere(s, id) + HeldNow(s, id) == One(id in s.created);
  }

  lemma GuestIsAlive(s: State)
    requires Conserved(s)
    ensures s.guest.Some? ==> s.guest.value.id !in s.killed
  {
    if s.guest.Some? {
      var g := s.guest.value.id;
      assert Elsewhere(s, g) + HeldNow(s, g) == One(g in s.created);
    }
  }

  lemma {:induction false} LogOnlyGrows(attempts: int, s: State, steps: seq<Step>, s': State)
    requires Inv(attempts, s) && Run(attempts, s, steps) == Some(s')
    ensures s.log <= s'.log
    decreases |steps|
  {
    if steps != [] {
      var s1 := Next(attempts, s, steps[0]).value;
      StepGrows(attempts, s, steps[0], s1);
      KeepsInv(attempts, s, steps[0], s1);
      LogOnlyGrows(attempts, s1, steps[1..], s');
    }
  }

  /** A cleanup that gave up once is held against the attempt for good, even when `stop` kills the
      sandbox later. */
  lemma FailureIsSticky(attempts: int, s: State, steps: seq<Step>, s': State, name: Naming)
    requires Reachable(attempts, s) && Distinct(name)
    requires StatusOf(FileOf(s.log, name)) == Failed && Run(attempts, s, steps) == Some(s')
    ensures StatusOf(FileOf(s'.log, name)) == Failed
  {
    ReachableInv(attempts, s);
    LogOnlyGrows(attempts, s, steps, s');
    LogGrows(s.log, s'.log);
    StatusByIds(s.log, name);
    StatusByIds(s'.log, name);
  }
}
