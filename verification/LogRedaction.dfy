/**
 Between the relay's log and the coordinator: `run_attempt` redacts every text artifact of the attempt, the
 relay's log among them, before it judges the cleanup by that log.
 */
module LogRedaction {
  import opened Prelude
  import opened RelayMachine
  import opened RelayConservation
  import opened RelayInvariants
  import opened RelayTheorems
  import opened RelayRuns
  import opened Results
  import opened Evidence

  const CREATED_NAME := "SANDBOX_CREATED"
  const CLEANED_NAME := "SANDBOX_CLEANED"
  const FAILED_NAME := "SANDBOX_CLEANUP_FAILED"
  const EVENT_KEY := "event"
  const SANDBOX_KEY := "sandbox_id"

  /** The two texts of a line that the coordinator looks at. */
  datatype Row = Row(event: string, sandbox: string)

  /** The names the relay writes. */
  function EventName(e: RelayEvent): string {
    match e
    case CreateStarted(_, _) => "SANDBOX_CREATE_STARTED"
    case Created(_, _, _) => CREATED_NAME
    case Ready(_, _, _) => "SANDBOX_READY"
    case Cleaned(_) => CLEANED_NAME
    case CleanupFailed(_) => FAILED_NAME
    case SnapshotSaved(_, _, _) => "SNAPSHOT_SAVED"
  }

  /** The names the coordinator knows. */
  function KindNamed(event: string): EntryKind {
    if event == CREATED_NAME then CreatedEntry
    else if event == CLEANED_NAME then CleanedEntry
    else if event == FAILED_NAME then FailedEntry
    else OtherEntry
  }

  lemma NamesAreUnderstood(e: RelayEvent)
    ensures KindNamed(EventName(e)) == KindOf(e)
    ensures '<' !in EventName(e)
  {
    if e.Created? {
    } else if e.Cleaned? {
      assert CLEANED_NAME[9] != CREATED_NAME[9];
    } else if e.CleanupFailed? {
      assert |FAILED_NAME| == 22;
    } else {
      OtherNames(e);
    }
  }

  lemma OtherNames(e: RelayEvent)
    requires e.CreateStarted? || e.Ready? || e.SnapshotSaved?
    ensures KindNamed(EventName(e)) == OtherEntry && '<' !in EventName(e)
  {
    assert |CREATED_NAME| == 15 && |CLEANED_NAME| == 15 && |FAILED_NAME| == 22;
    if e.CreateStarted? {
      assert EventName(e)[9] == 'R' && FAILED_NAME[9] == 'L';
    }
  }

  /** How a text is redacted: any function whose every change leaves a '<' in the text. */
  type Redactor = string -> string

  ghost predicate Marks(redact: Redactor) {
    forall text :: redact(text) == text || '<' in redact(text)
  }

  predicate Hits(redact: Redactor, text: string) {
    redact(text) != text
  }

  function RowOf(e: RelayEvent, name: Naming): Row {
    Row(EventName(e), NameOf(e, name))
  }

  /** What the coordinator takes from a redacted row; it asks for the two texts by their keys. */
  function ReadRow(redact: Redactor, row: Row): Entry {
    var kind := if Hits(redact, EVENT_KEY) then OtherEntry else KindNamed(redact(row.event));
    var sandbox := if Hits(redact, SANDBOX_KEY) || row.sandbox == "" then "" else redact(row.sandbox);
    Entry(kind, sandbox)
  }

  /** The file as the coordinator reads it. */
  function ReadBack(log: seq<RelayEvent>, name: Naming, redact: Redactor): LogFile {
    if log == [] then NoFile
    else Lines(seq(|log|, i requires 0 <= i < |log| => ReadRow(redact, RowOf(log[i], name))))
  }

  // ----- what redaction does to a log -----

  /** Redaction leaves the log readable: it hides every cleanup, or neither a creation nor a failure, and keeps
      sandbox ids apart. */
  ghost predicate Readable(name: Naming, redact: Redactor) {
    || HidesCleanups(redact)
    || (&& !Hits(redact, CREATED_NAME) && !Hits(redact, FAILED_NAME)
        && forall i, j :: redact(name(i)) == redact(name(j)) ==> i == j)
  }

  predicate HidesCleanups(redact: Redactor) {
    Hits(redact, EVENT_KEY) || Hits(redact, SANDBOX_KEY) || Hits(redact, CLEANED_NAME)
  }

  lemma KindOfMarked(text: string)
    requires '<' in text
    ensures KindNamed(text) == OtherEntry
  {
    NamesAreUnderstood(Created(0, 0, Template));
    NamesAreUnderstood(Cleaned(0));
    NamesAreUnderstood(CleanupFailed(0));
  }

  /** A row whose event name is hit counts as some other event, any other row as what it is. */
  lemma KindAsRead(e: RelayEvent, name: Naming, redact: Redactor)
    requires Marks(redact) && !Hits(redact, EVENT_KEY)
    ensures ReadRow(redact, RowOf(e, name)).kind == if Hits(redact, EventName(e)) then OtherEntry else KindOf(e)
  {
    NamesAreUnderstood(e);
    if Hits(redact, EventName(e)) {
      KindOfMarked(redact(EventName(e)));
    }
  }

  function Renamed(name: Naming, redact: Redactor): Naming {
    i => redact(name(i))
  }

  /** If redaction spares the three names and the keys, the log is read as one with other sandbox ids. */
  lemma ReadAsRenamed(log: seq<RelayEvent>, name: Naming, redact: Redactor)
    requires Marks(redact) && !HidesCleanups(redact) && !Hits(redact, CREATED_NAME) && !Hits(redact, FAILED_NAME)
    requires forall i :: name(i) != ""
    ensures ReadBack(log, name, redact) == FileOf(log, Renamed(name, redact))
  {
    if log != [] {
      var read, other := ReadBack(log, name, redact), FileOf(log, Renamed(name, redact));
      forall i | 0 <= i < |log| ensures read.entries[i] == other.entries[i] {
        KindAsRead(log[i], name, redact);
        SandboxAsRead(log[i], name, redact);
      }
      assert read.entries == other.entries;
    }
  }

  lemma SandboxAsRead(e: RelayEvent, name: Naming, redact: Redactor)
    requires !Hits(redact, SANDBOX_KEY) && forall i :: name(i) != ""
    ensures ReadRow(redact, RowOf(e, name)).sandbox == NameOf(e, Renamed(name, redact))
  {
  }

  /** A log in which no sensitive text occurs is read as it was written. */
  lemma ReadAsWritten(log: seq<RelayEvent>, name: Naming, redact: Redactor)
    requires Marks(redact) && !HidesCleanups(redact) && !Hits(redact, CREATED_NAME) && !Hits(redact, FAILED_NAME)
    requires forall i :: name(i) != "" && !Hits(redact, name(i))
    ensures ReadBack(log, name, redact) == FileOf(log, name)
  {
    ReadAsRenamed(log, name, redact);
    if log != [] {
      assert FileOf(log, Renamed(name, redact)).entries == FileOf(log, name).entries;
    }
  }

  lemma HiddenCleanupsNeverSucceed(log: seq<RelayEvent>, name: Naming, redact: Redactor)
    requires Marks(redact) && HidesCleanups(redact)
    ensures StatusOf(ReadBack(log, name, redact)) != Success
  {
    if log != [] {
      var entries := ReadBack(log, name, redact).entries;
      forall x | x in entries && x.kind == CleanedEntry ensures x.sandbox == "" {
        var i :| 0 <= i < |log| && entries[i] == x;
        KindIsHidden(log[i], name, redact);
      }
      assert Named(entries, CleanedEntry) == {};
    }
  }

  lemma KindIsHidden(e: RelayEvent, name: Naming, redact: Redactor)
    requires Marks(redact) && HidesCleanups(redact)
    ensures ReadRow(redact, RowOf(e, name)).kind == CleanedEntry ==> ReadRow(redact, RowOf(e, name)).sandbox == ""
  {
    if !Hits(redact, EVENT_KEY) {
      KindAsRead(e, name, redact);
    }
  }

  lemma RenamedIsDistinct(name: Naming, redact: Redactor)
    requires Marks(redact) && Distinct(name)
    requires forall i, j :: redact(name(i)) == redact(name(j)) ==> i == j
    ensures Distinct(Renamed(name, redact))
  {
    forall i ensures Renamed(name, redact)(i) != "" {
      assert redact(name(i)) == name(i) || '<' in redact(name(i));
    }
  }

  /** Of a readable log the coordinator makes no success that was none. */
  lemma ReadingIsHonest(log: seq<RelayEvent>, name: Naming, redact: Redactor)
    requires Marks(redact) && Distinct(name) && Readable(name, redact)
    requires StatusOf(ReadBack(log, name, redact)) == Success
    ensures StatusOf(FileOf(log, name)) == Success
  {
    if HidesCleanups(redact) {
      HiddenCleanupsNeverSucceed(log, name, redact);
    } else {
      ReadAsRenamed(log, name, redact);
      RenamedIsDistinct(name, redact);
      StatusByIds(log, name);
      StatusByIds(log, Renamed(name, redact));
    }
  }

  // ----- runs that an unreadable log makes look clean -----

  lemma EntryOf(log: seq<RelayEvent>, name: Naming, redact: Redactor, e: RelayEvent)
    requires e in log
    ensures ReadBack(log, name, redact).Lines?
    ensures ReadRow(redact, RowOf(e, name)) in ReadBack(log, name, redact).entries
  {
    var i :| 0 <= i < |log| && log[i] == e;
    assert ReadBack(log, name, redact).entries[i] == ReadRow(redact, RowOf(e, name));
  }

  lemma EntryComesFrom(log: seq<RelayEvent>, name: Naming, redact: Redactor, x: Entry) returns (e: RelayEvent)
    requires ReadBack(log, name, redact).Lines? && x in ReadBack(log, name, redact).entries
    ensures e in log && x == ReadRow(redact, RowOf(e, name))
  {
    var i :| 0 <= i < |log| && ReadBack(log, name, redact).entries[i] == x;
    e := log[i];
  }

  /** Every creation that can still be read shares its text with a cleaned sandbox. */
  ghost predicate Covered(log: seq<RelayEvent>, name: Naming, redact: Redactor) {
    forall e :: e in log && e.Created? ==>
                  || Hits(redact, CREATED_NAME)
                  || exists c :: c in log && c.Cleaned? && redact(name(c.id)) == redact(name(e.id))
  }

  lemma CleanedIsNamed(log: seq<RelayEvent>, name: Naming, redact: Redactor, c: RelayEvent)
    requires Marks(redact) && Distinct(name) && !HidesCleanups(redact) && c in log && c.Cleaned?
    ensures ReadBack(log, name, redact).Lines?
    ensures redact(name(c.id)) in Named(ReadBack(log, name, redact).entries, CleanedEntry)
  {
    EntryOf(log, name, redact, c);
    KindAsRead(c, name, redact);
    assert redact(name(c.id)) == name(c.id) || '<' in redact(name(c.id));
  }

  lemma LooksClean(log: seq<RelayEvent>, name: Naming, redact: Redactor, c: RelayEvent)
    requires Marks(redact) && Distinct(name) && !HidesCleanups(redact) && c in log && c.Cleaned?
    requires Covered(log, name, redact)
    requires forall e :: e in log && e.CleanupFailed? ==> Hits(redact, FAILED_NAME)
    ensures StatusOf(ReadBack(log, name, redact)) == Success
  {
    CleanedIsNamed(log, name, redact, c);
    var entries := ReadBack(log, name, redact).entries;
    forall x | x in entries ensures x.kind != FailedEntry {
      var e := EntryComesFrom(log, name, redact, x);
      KindAsRead(e, name, redact);
    }
    forall text | text in Named(entries, CreatedEntry) ensures text in Named(entries, CleanedEntry) {
      var x :| x in entries && x.kind == CreatedEntry && x.sandbox == text;
      var e := EntryComesFrom(log, name, redact, x);
      KindAsRead(e, name, redact);
      assert e.Created? && !Hits(redact, CREATED_NAME);
      var d :| d in log && d.Cleaned? && redact(name(d.id)) == redact(name(e.id));
      CleanedIsNamed(log, name, redact, d);
    }
  }

  /** What one replacement that succeeds adds to the log. */
  lemma Added(before: seq<RelayEvent>, id: SandboxId, generation: nat, more: seq<RelayEvent>, log: seq<RelayEvent>)
    requires log == before + [CreateStarted(generation, Template)] + [Created(id, generation, Template)]
                    + [Ready(id, generation, Template)] + more
    ensures forall e :: e in log ==> e in before || e in more || (!e.CleanupFailed? && (e.Created? ==> e.id == id))
    ensures forall e :: e in more ==> e in log
  {
  }

  /** One sandbox replaced by another that is still the guest. */
  lemma Replaced(i: SandboxId, j: SandboxId) returns (s: State)
    requires i != j
    ensures Reachable(1, s) && s.replaceLock == None && s.created.Keys == {i, j} && s.killed == {i}
    ensures Cleaned(i) in s.log
    ensures forall e :: e in s.log ==> !e.CleanupFailed? && (e.Created? ==> e.id == i || e.id == j)
  {
    NewManager(1);
    var s1, first := Installs(1, INITIAL, 0, i);
    Added([], i, first, [], s1.log);
    var second;
    s, second := Installs(1, s1, 1, j);
    Added(s1.log, j, second, [Cleaned(i)], s.log);
    assert Cleaned(i) in [Cleaned(i)];
  }

  /** One sandbox without a token that could not be killed, then one that could. */
  lemma KeptOne() returns (s: State)
    ensures Reachable(1, s) && s.replaceLock == None && s.created.Keys == {0, 1} && s.killed == {1}
    ensures Cleaned(1) in s.log && forall e :: e in s.log && e.Created? ==> e.id == 1
  {
    NewManager(1);
    var s1, first := KeepsTokenless(INITIAL, 0, 0);
    var second;
    s, second := DropsUnready(1, s1, 1, 1);
    assert s.log[4] == Cleaned(1);
  }

  /** While no operation runs, the coordinator's "success" means that every sandbox was killed. */
  ghost predicate Trustworthy(name: Naming, redact: Redactor) {
    forall attempts, s ::
      (Reachable(attempts, s) && s.replaceLock == None && StatusOf(ReadBack(s.log, name, redact)) == Success) ==>
        s.created.Keys == s.killed
  }

  lemma Misleading(name: Naming, redact: Redactor) returns (s: State)
    requires Marks(redact) && Distinct(name) && !Readable(name, redact)
    ensures Reachable(1, s) && s.replaceLock == None && s.created.Keys != s.killed
    ensures StatusOf(ReadBack(s.log, name, redact)) == Success
  {
    if Hits(redact, CREATED_NAME) {
      s := Replaced(0, 1);
      assert 1 in s.created && 1 !in s.killed;
      LooksClean(s.log, name, redact, Cleaned(0));
    } else if i, j :| redact(name(i)) == redact(name(j)) && i != j {
      s := Replaced(i, j);
      assert j in s.created && j !in s.killed;
      LooksClean(s.log, name, redact, Cleaned(i));
    } else {
      s := KeptOne();
      assert 0 in s.created && 0 !in s.killed;
      LooksClean(s.log, name, redact, Cleaned(1));
    }
  }

  /** Redaction keeps the coordinator's "success" trustworthy if and only if it leaves the log readable. */
  lemma TrustworthyIffReadable(name: Naming, redact: Redactor)
    requires Marks(redact) && Distinct(name)
    ensures Trustworthy(name, redact) <==> Readable(name, redact)
  {
    if Readable(name, redact) {
      forall attempts, s | Reachable(attempts, s) && s.replaceLock == None
                           && StatusOf(ReadBack(s.log, name, redact)) == Success
        ensures s.created.Keys == s.killed
      {
        ReadingIsHonest(s.log, name, redact);
        SuccessMeansAllKilled(attempts, s, name);
      }
    } else {
      var s := Misleading(name, redact);
    }
  }

  /** While a replacement runs, even a log read as written can miss a sandbox. */
  lemma SuccessCanMissTokenless(attempts: int, name: Naming) returns (s: State, id: SandboxId)
    requires attempts >= 1 && Distinct(name)
    ensures Reachable(attempts, s) && StatusOf(FileOf(s.log, name)) == Success
    ensures id in s.created && id !in s.killed
  {
    NewManager(attempts);
    var s1, first := DropsUnready(attempts, INITIAL, 0, 0);
    var second;
    s, second := IsKillingTokenless(attempts, s1, 1, 1);
    id := 1;
    assert s.log[2] == Cleaned(0);
    assert forall e :: e in s.log ==> !e.CleanupFailed? && (e.Created? ==> e.id == 0);
    assert 0 in CleanedIds(s.log);
    StatusByIds(s.log, name);
  }

  // ----- the attempt -----

  /** The log that `run_attempt` finds once it has redacted it: unreadable if redaction or a killed relay broke
      a line. */
  predicate WasRead(file: LogFile, log: seq<RelayEvent>, name: Naming, redact: Redactor) {
    file == Unreadable || file == ReadBack(log, name, redact)
  }

  /** The child's log is that of a relay, stopped anywhere, redacted so that it stayed readable. */
  ghost predicate FromRelay(killAttempts: int, o: Observation, s: State, name: Naming, redact: Redactor) {
    && Reachable(killAttempts, s) && Distinct(name) && Marks(redact) && Readable(name, redact)
    && WasRead(o.relayLog, s.log, name, redact)
  }

  lemma JudgedByRelay(killAttempts: int, s: State, name: Naming, redact: Redactor, o: Observation)
    requires FromRelay(killAttempts, o, s, name, redact) && StatusOf(o.relayLog) == Success
    ensures LeftOnlyTokenless(s)
  {
    ReadingIsHonest(s.log, name, redact);
    SuccessMissesOnlyTokenless(killAttempts, s, name);
  }

  /** A valid terminal event is evidence against leaks: the relay whose log it was judged by has no guest and
      nothing pending, and killed every sandbox it ever created except, perhaps, one without a token that it was
      just killing. */
  lemma ValidAttemptLeaksNothing(killAttempts: int, s: State, name: Naming, redact: Redactor, task: TaskKey,
                                 attempt: int, o: Observation)
    requires FromRelay(killAttempts, o, s, name, redact) && 1 <= attempt
    requires IsValid(Classify(task, attempt, o))
    ensures LeftOnlyTokenless(s)
  {
    ClassificationIsLegal(task, attempt, o);
    JudgedByRelay(killAttempts, s, name, redact, o);
  }
}
