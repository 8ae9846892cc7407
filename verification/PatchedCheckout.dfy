/**
 The adapter patch of a pinned checkout: six tracked files are rewritten from HEAD all or nothing, and
 restoring takes back exactly what the adapter owns.
 */
module PatchedCheckout {
  import opened Prelude

  /** A path of the checkout: the six tracked files the adapter rewrites, the three files and the directory
      it adds, and everything else. */
  datatype Path =
    | DesktopEnv | ProvidersInit | QwenAgent | RunMultienv | RunMultienvM3 | RunMultienvQwen
    | E2bHarness | E2bPolicy | E2bRelay
    | InE2bDirectory(name: string)
    | Other(name: string)

  type Text = string

  type Tree = map<Path, Text>

  /** The standard exclude rules. */
  type Ignores = Path -> bool

  type Transforms = (Path, Text) -> Option<Text>

  /** The transforms in the order they are applied; their paths are the owned tracked paths. */
  const OWNED: seq<Path> := [ProvidersInit, DesktopEnv, QwenAgent, RunMultienv, RunMultienvM3, RunMultienvQwen]

  const ADDED_FILES: seq<Path> := [E2bHarness, E2bPolicy, E2bRelay]

  predicate IsOwned(p: Path) {
    p == ProvidersInit || p == DesktopEnv || p == QwenAgent || p == RunMultienv || p == RunMultienvM3
    || p == RunMultienvQwen
  }

  predicate IsAddedFile(p: Path) {
    p == E2bHarness || p == E2bPolicy || p == E2bRelay
  }

  /** `_is_owned_untracked`. */
  predicate IsAdded(p: Path) {
    IsAddedFile(p) || p.InE2bDirectory?
  }

  lemma OwnedAre(p: Path)
    ensures p in OWNED <==> IsOwned(p)
    ensures p in ADDED_FILES <==> IsAddedFile(p)
  {
    assert OWNED[0] == ProvidersInit && OWNED[1] == DesktopEnv && OWNED[2] == QwenAgent && OWNED[3] == RunMultienv
           && OWNED[4] == RunMultienvM3 && OWNED[5] == RunMultienvQwen;
    assert ADDED_FILES[0] == E2bHarness && ADDED_FILES[1] == E2bPolicy && ADDED_FILES[2] == E2bRelay;
  }

  datatype CheckoutError =
    | NotGit
    | CommitMismatch
    | UnexpectedChanges(paths: set<Path>)
    | NotInHead(path: Path)
    | ContractMoved(path: Path)
    | Unreadable(path: Path)
    | Diverged(path: Path)
    | Drift(path: Path)
    | TrackedAdapterPath

  // ----- what git reports -----

  /** Tracked files that differ from HEAD or are gone. */
  function Changed(head: Tree, work: Tree): set<Path> {
    set p | p in head && (p !in work || work[p] != head[p])
  }

  function Untracked(head: Tree, work: Tree, ignored: Ignores): set<Path> {
    set p | p in work && p !in head && !ignored(p)
  }

  function Unexpected(head: Tree, work: Tree, ignored: Ignores): set<Path> {
    (set p | p in Changed(head, work) && !IsOwned(p)) + (set p | p in Untracked(head, work, ignored) && !IsAdded(p))
  }

  /** The owned files are the six that are rewritten; what is added are three files and a directory. */
  lemma OwnedAreSix(p: Path)
    ensures IsOwned(p) <==>
              || p.DesktopEnv? || p.ProvidersInit? || p.QwenAgent? || p.RunMultienv? || p.RunMultienvM3?
              || p.RunMultienvQwen?
    ensures IsAdded(p) <==> p.E2bHarness? || p.E2bPolicy? || p.E2bRelay? || p.InE2bDirectory?
  {
  }

  /** Against HEAD, only owned files differ or are gone, and every unknown file that is not ignored is one the
      adapter adds. */
  ghost predicate OnlyOwnedChanges(head: Tree, work: Tree, ignored: Ignores) {
    && (forall p :: p in head && !IsOwned(p) ==> p in work && work[p] == head[p])
    && (forall p :: p in work && p !in head && !ignored(p) ==> IsAdded(p))
  }

  lemma UnexpectedMeans(head: Tree, work: Tree, ignored: Ignores)
    ensures Unexpected(head, work, ignored) == {} <==> OnlyOwnedChanges(head, work, ignored)
  {
    if Unexpected(head, work, ignored) == {} {
      forall p | p in head && !IsOwned(p) ensures p in work && work[p] == head[p] {
        assert p !in Unexpected(head, work, ignored);
      }
      forall p | p in work && p !in head && !ignored(p) ensures IsAdded(p) {
        assert p !in Unexpected(head, work, ignored);
      }
    }
  }

  // ----- the meaning of the operations -----

  predicate CanPatchPath(head: Tree, work: Tree, transform: Transforms, p: Path) {
    && p in head && p in work && transform(p, head[p]).Some?
    && (work[p] == head[p] || Some(work[p]) == transform(p, head[p]))
  }

  ghost predicate CanPatch(head: Tree, work: Tree, ignored: Ignores, transform: Transforms) {
    && OnlyOwnedChanges(head, work, ignored)
    && forall p :: IsOwned(p) ==> CanPatchPath(head, work, transform, p)
  }

  function Expected(head: Tree, transform: Transforms, p: Path): Text {
    if p in head && transform(p, head[p]).Some? then transform(p, head[p]).value else ""
  }

  /** `tree` is `work` with every owned file at its transform of HEAD. */
  ghost predicate IsPatched(head: Tree, work: Tree, transform: Transforms, tree: Tree) {
    && (forall p :: p in tree <==> p in work || IsOwned(p))
    && (forall p :: p in tree ==> tree[p] == if IsOwned(p) then Expected(head, transform, p) else work[p])
  }

  predicate VerifiesPath(head: Tree, work: Tree, transform: Transforms, p: Path) {
    p in head && p in work && Some(work[p]) == transform(p, head[p])
  }

  ghost predicate Verifies(head: Tree, work: Tree, ignored: Ignores, transform: Transforms) {
    && OnlyOwnedChanges(head, work, ignored)
    && forall p :: IsOwned(p) ==> VerifiesPath(head, work, transform, p)
  }

  /** `tree` is `work` with every owned file as in HEAD and nothing the adapter adds. */
  ghost predicate IsRestored(head: Tree, work: Tree, tree: Tree) {
    && (forall p :: p in tree <==> IsOwned(p) || (p in work && !IsAdded(p)))
    && (forall p :: p in tree ==> if IsOwned(p) then p in head && tree[p] == head[p] else tree[p] == work[p])
  }

  // ----- what follows -----

  /** Patching again is possible and changes nothing. */
  lemma PatchIsIdempotent(head: Tree, work: Tree, ignored: Ignores, transform: Transforms, once: Tree, twice: Tree)
    requires CanPatch(head, work, ignored, transform) && IsPatched(head, work, transform, once)
    requires IsPatched(head, once, transform, twice)
    ensures CanPatch(head, once, ignored, transform) && twice == once
  {
    PatchedIsExpected(head, work, ignored, transform, once);
    forall p | IsOwned(p) ensures CanPatchPath(head, once, transform, p) {
      assert CanPatchPath(head, work, transform, p);
    }
    assert twice.Keys == once.Keys;
  }

  lemma PatchedIsExpected(head: Tree, work: Tree, ignored: Ignores, transform: Transforms, tree: Tree)
    requires CanPatch(head, work, ignored, transform) && IsPatched(head, work, transform, tree)
    ensures OnlyOwnedChanges(head, tree, ignored)
    ensures Changed(head, tree) <= set p | p in head && IsOwned(p)
    ensures Untracked(head, tree, ignored) == Untracked(head, work, ignored)
  {
    forall p ensures p in Untracked(head, tree, ignored) <==> p in Untracked(head, work, ignored) {
      if IsOwned(p) {
        assert CanPatchPath(head, work, transform, p);
      }
    }
  }

  /** A checkout verifies exactly when it can be patched and patching it would change nothing. */
  lemma VerifiesIffFixed(head: Tree, work: Tree, ignored: Ignores, transform: Transforms)
    ensures Verifies(head, work, ignored, transform)
            <==> CanPatch(head, work, ignored, transform) && IsPatched(head, work, transform, work)
  {
    if Verifies(head, work, ignored, transform) {
      forall p | IsOwned(p) ensures CanPatchPath(head, work, transform, p) && work[p] == Expected(head, transform, p) {
        assert VerifiesPath(head, work, transform, p);
      }
    }
    if CanPatch(head, work, ignored, transform) && IsPatched(head, work, transform, work) {
      forall p | IsOwned(p) ensures VerifiesPath(head, work, transform, p) {
        assert CanPatchPath(head, work, transform, p);
      }
    }
  }

  /** A checkout verifies exactly when nothing but owned files differs and each of the six is its transform. */
  lemma VerifiesMeans(head: Tree, work: Tree, ignored: Ignores, transform: Transforms)
    ensures Verifies(head, work, ignored, transform)
            <==> && OnlyOwnedChanges(head, work, ignored)
                 && forall p: Path ::
                      (|| p.DesktopEnv? || p.ProvidersInit? || p.QwenAgent? || p.RunMultienv? || p.RunMultienvM3?
                       || p.RunMultienvQwen?) ==>
                        p in head && p in work && transform(p, head[p]) == Some(work[p])
  {
    forall p ensures IsOwned(p) && !VerifiesPath(head, work, transform, p) ==>
                       !(p in head && p in work && transform(p, head[p]) == Some(work[p])) {
    }
    if Verifies(head, work, ignored, transform) {
      forall p | IsOwned(p) ensures p in head && p in work && transform(p, head[p]) == Some(work[p]) {
        assert VerifiesPath(head, work, transform, p);
      }
    }
  }

  lemma PatchedVerifies(head: Tree, work: Tree, ignored: Ignores, transform: Transforms, tree: Tree)
    requires CanPatch(head, work, ignored, transform) && IsPatched(head, work, transform, tree)
    ensures Verifies(head, tree, ignored, transform)
  {
    PatchedIsExpected(head, work, ignored, transform, tree);
    forall p | IsOwned(p) ensures VerifiesPath(head, tree, transform, p) {
      assert CanPatchPath(head, work, transform, p);
    }
  }

  /** From any tree with adapter-owned changes only, restoring leaves no untracked file, and the tracked
      files are exactly HEAD's if and only if HEAD tracks none of the names the adapter adds. */
  lemma RestoreGivesHead(head: Tree, work: Tree, ignored: Ignores, tree: Tree)
    requires OnlyOwnedChanges(head, work, ignored) && IsRestored(head, work, tree)
    ensures Untracked(head, tree, ignored) == {}
    ensures Changed(head, tree) == {} <==> forall p :: p in head ==> !IsAdded(p)
  {
    assert forall p :: p in head && IsAdded(p) ==> p in Changed(head, tree);
  }

  /** Round trip: take a clean checkout, copy any adapter files in, patch, patch again, restore, and it is
      the same checkout. */
  lemma RoundTrip(head: Tree, clean: Tree, copied: Tree, ignored: Ignores, transform: Transforms,
                  patched: Tree, restored: Tree)
    requires Changed(head, clean) == {} && Untracked(head, clean, ignored) == {}
    requires forall p :: p in clean || p in head ==> !IsAdded(p)
    requires forall p :: p in copied ==> IsAdded(p)
    requires forall p :: IsOwned(p) ==> p in head && transform(p, head[p]).Some?
    requires IsPatched(head, clean + copied, transform, patched) && IsRestored(head, patched, restored)
    ensures CanPatch(head, clean + copied, ignored, transform)
    ensures Verifies(head, patched, ignored, transform)
    ensures OnlyOwnedChanges(head, patched, ignored)
    ensures restored == clean
  {
    var work := clean + copied;
    CleanCanPatch(head, clean, copied, ignored, transform);
    PatchedVerifies(head, work, ignored, transform, patched);
    forall p ensures p in restored <==> p in clean {
    }
    assert restored.Keys == clean.Keys;
    forall p | IsOwned(p) ensures clean[p] == head[p] {
      assert p !in Changed(head, clean);
    }
  }

  lemma CleanCanPatch(head: Tree, clean: Tree, copied: Tree, ignored: Ignores, transform: Transforms)
    requires Changed(head, clean) == {} && Untracked(head, clean, ignored) == {}
    requires forall p :: p in clean || p in head ==> !IsAdded(p)
    requires forall p :: p in copied ==> IsAdded(p)
    requires forall p :: IsOwned(p) ==> p in head && transform(p, head[p]).Some?
    ensures CanPatch(head, clean + copied, ignored, transform)
    ensures forall p :: IsOwned(p) ==> p in clean
  {
    var work := clean + copied;
    forall p | p in head ensures p in clean && clean[p] == head[p] {
      assert p !in Changed(head, clean);
    }
    forall p | p in Untracked(head, work, ignored) ensures IsAdded(p) {
      assert p !in Untracked(head, clean, ignored);
    }
  }

  // ----- the commands -----

  /** The error names an owned path and what is wrong with it. */
  predicate Explains(error: CheckoutError, head: Tree, work: Tree, transform: Transforms) {
    match error
    case NotInHead(p) => IsOwned(p) && p !in head
    case ContractMoved(p) => IsOwned(p) && p in head && transform(p, head[p]) == None
    case Unreadable(p) => IsOwned(p) && p !in work
    case Diverged(p) => IsOwned(p) && p in head && p in work && !CanPatchPath(head, work, transform, p)
    case Drift(p) => IsOwned(p) && p in work && !VerifiesPath(head, work, transform, p)
    case _ => false
  }

  class Checkout {
    const isGit: bool
    const commit: string
    const head: Tree
    const ignored: Ignores
    const transform: Transforms
    var work: Tree

    constructor (isGit: bool, commit: string, head: Tree, ignored: Ignores, transform: Transforms, work: Tree)
      ensures this.isGit == isGit && this.commit == commit && this.head == head && this.ignored == ignored
      ensures this.transform == transform && this.work == work
    {
      this.isGit, this.commit, this.head := isGit, commit, head;
      this.ignored, this.transform, this.work := ignored, transform, work;
    }

    /** Accepts exactly the trees with adapter-owned changes only; an error names all the paths at fault. */
    method RejectUnexpectedChanges() returns (error: Option<CheckoutError>)
      ensures error == None <==> OnlyOwnedChanges(head, work, ignored)
      ensures error.Some? ==> error.value.UnexpectedChanges? && error.value.paths != {}
      ensures error.Some? ==> forall p :: p in error.value.paths <==>
                || (p in head && !IsOwned(p) && (p in work ==> work[p] != head[p]))
                || (p in work && p !in head && !ignored(p) && !IsAdded(p))
    {
      UnexpectedMeans(head, work, ignored);
      var unexpected := Unexpected(head, work, ignored);
      error := if unexpected == {} then None else Some(UnexpectedChanges(unexpected));
    }

    /** The common prologue of patching and verifying: it passes the expected commit with adapter-owned
        changes only, and otherwise the error is about what it says. */
    method CheckIdentity(expected: string) returns (error: Option<CheckoutError>)
      ensures error == None <==> isGit && commit == expected && OnlyOwnedChanges(head, work, ignored)
      ensures error == Some(NotGit) <==> !isGit
      ensures error == Some(CommitMismatch) <==> isGit && commit != expected
      ensures error.Some? && error.value.UnexpectedChanges? ==> !OnlyOwnedChanges(head, work, ignored)
    {
      if !isGit {
        return Some(NotGit);
      }
      if commit != expected {
        return Some(CommitMismatch);
      }
      error := RejectUnexpectedChanges();
    }

    /** What one owned file is to become. */
    method Output(p: Path) returns (r: Result<Text, CheckoutError>)
      requires IsOwned(p)
      ensures r.Ok? <==> CanPatchPath(head, work, transform, p)
      ensures r.Ok? ==> r.value == Expected(head, transform, p)
      ensures r.Err? ==> Explains(r.error, head, work, transform)
    {
      if p !in head {
        return Err(NotInHead(p));
      }
      var pristine := head[p];
      var expected := transform(p, pristine);
      if expected == None {
        return Err(ContractMoved(p));
      }
      if p !in work {
        return Err(Unreadable(p));
      }
      if work[p] != pristine && work[p] != expected.value {
        return Err(Diverged(p));
      }
      r := Ok(expected.value);
    }

    /** What all owned files are to become, unless one of them cannot be patched. */
    method Outputs() returns (r: Result<map<Path, Text>, CheckoutError>)
      ensures r.Ok? <==> forall p :: IsOwned(p) ==> CanPatchPath(head, work, transform, p)
      ensures r.Ok? ==> forall p :: p in r.value <==> IsOwned(p)
      ensures r.Ok? ==> forall p :: p in r.value ==> r.value[p] == Expected(head, transform, p)
      ensures r.Err? ==> Explains(r.error, head, work, transform)
    {
      var outputs: map<Path, Text> := map[];
      for i := 0 to |OWNED|
        invariant forall p :: p in outputs <==> p in OWNED[..i]
        invariant forall p :: p in outputs ==> outputs[p] == Expected(head, transform, p)
        invariant forall p :: p in outputs ==> CanPatchPath(head, work, transform, p)
      {
        var p := OWNED[i];
        OwnedAre(p);
        var output := Output(p);
        if output.Err? {
          assert IsOwned(p) && !CanPatchPath(head, work, transform, p);
          return Err(output.error);
        }
        outputs := outputs[p := output.value];
        assert OWNED[..i + 1] == OWNED[..i] + [p];
      }
      forall p ensures p in outputs <==> IsOwned(p) {
        OwnedAre(p);
        assert OWNED[..|OWNED|] == OWNED;
      }
      r := Ok(outputs);
    }

    /** `patch_checkout`: all six files or none. */
    method Patch(expected: string) returns (error: Option<CheckoutError>)
      modifies this
      ensures error == None <==> isGit && commit == expected && CanPatch(head, old(work), ignored, transform)
      ensures error == None ==> IsPatched(head, old(work), transform, work)
      ensures error == None ==>
                forall p: Path ::
                  if p.DesktopEnv? || p.ProvidersInit? || p.QwenAgent? || p.RunMultienv? || p.RunMultienvM3?
                     || p.RunMultienvQwen?
                  then p in head && p in work && transform(p, head[p]) == Some(work[p])
                  else (p in work <==> p in old(work)) && (p in work ==> work[p] == old(work)[p])
      ensures error.Some? ==> work == old(work)
      ensures error.Some? && isGit && commit == expected && OnlyOwnedChanges(head, old(work), ignored) ==>
                Explains(error.value, head, old(work), transform)
      ensures error == Some(NotGit) <==> !isGit
      ensures error == Some(CommitMismatch) <==> isGit && commit != expected
    {
      error := CheckIdentity(expected);
      if error.Some? {
        return;
      }
      var outputs := Outputs();
      if outputs.Err? {
        return Some(outputs.error);
      }
      Write(outputs.value);
    }

    /** The write loop, in whatever order. */
    method Write(outputs: map<Path, Text>)
      modifies this
      ensures work == old(work) + outputs
    {
      var todo := outputs.Keys;
      while todo != {}
        invariant todo <= outputs.Keys
        invariant forall p :: p in work <==> p in old(work) || (p in outputs && p !in todo)
        invariant forall p :: p in work ==> work[p] == if p in outputs && p !in todo then outputs[p] else old(work)[p]
        decreases todo
      {
        var p :| p in todo;
        work := work[p := outputs[p]];
        todo := todo - {p};
      }
    }

    /** `verify_patched_checkout`. */
    method Verify(expected: string) returns (error: Option<CheckoutError>)
      ensures error == None <==> isGit && commit == expected && Verifies(head, work, ignored, transform)
      ensures error == None <==>
                && isGit && commit == expected && OnlyOwnedChanges(head, work, ignored)
                && forall p: Path ::
                     (|| p.DesktopEnv? || p.ProvidersInit? || p.QwenAgent? || p.RunMultienv? || p.RunMultienvM3?
                      || p.RunMultienvQwen?) ==>
                       p in head && p in work && transform(p, head[p]) == Some(work[p])
      ensures error.Some? && isGit && commit == expected && OnlyOwnedChanges(head, work, ignored) ==>
                Explains(error.value, head, work, transform)
      ensures error == Some(NotGit) <==> !isGit
      ensures error == Some(CommitMismatch) <==> isGit && commit != expected
    {
      VerifiesMeans(head, work, ignored, transform);
      error := CheckIdentity(expected);
      if error.Some? {
        return;
      }
      for i := 0 to |OWNED|
        invariant forall p :: p in OWNED[..i] ==> VerifiesPath(head, work, transform, p)
      {
        var p := OWNED[i];
        OwnedAre(p);
        if p !in head {
          return Some(NotInHead(p));
        }
        if transform(p, head[p]) == None {
          return Some(ContractMoved(p));
        }
        if p !in work {
          return Some(Unreadable(p));
        }
        if Some(work[p]) != transform(p, head[p]) {
          return Some(Drift(p));
        }
        assert OWNED[..i + 1] == OWNED[..i] + [p];
      }
      forall p | IsOwned(p) ensures VerifiesPath(head, work, transform, p) {
        OwnedAre(p);
        assert OWNED[..|OWNED|] == OWNED;
      }
    }

    /** Writes HEAD's content over the owned files, in the order of a set; stops at one HEAD does not have. */
    method RestoreTracked() returns (error: Option<CheckoutError>)
      modifies this
      ensures error == None <==> forall p :: IsOwned(p) ==> p in head
      ensures error.Some? ==> error.value.NotInHead? && IsOwned(error.value.path) && error.value.path !in head
      ensures forall p :: !IsOwned(p) ==> (p in work <==> p in old(work)) && (p in work ==> work[p] == old(work)[p])
      ensures error == None ==> forall p :: IsOwned(p) ==> p in work && work[p] == head[p]
    {
      forall p ensures p in OWNED <==> IsOwned(p) {
        OwnedAre(p);
      }
      var todo := set p | p in OWNED;
      while todo != {}
        invariant forall p :: p in todo ==> IsOwned(p)
        invariant forall p :: !IsOwned(p) ==> (p in work <==> p in old(work)) && (p in work ==> work[p] == old(work)[p])
        invariant forall p :: IsOwned(p) && p !in todo ==> p in head && p in work && work[p] == head[p]
        decreases todo
      {
        var p :| p in todo;
        if p !in head {
          return Some(NotInHead(p));
        }
        work := work[p := head[p]];
        todo := todo - {p};
      }
      error := None;
    }

    /** Deletes the files the adapter adds. */
    method RemoveAddedFiles()
      modifies this
      ensures forall p :: p in work <==> p in old(work) && !IsAddedFile(p)
      ensures forall p :: p in work ==> work[p] == old(work)[p]
    {
      for i := 0 to |ADDED_FILES|
        invariant forall p :: p in work <==> p in old(work) && p !in ADDED_FILES[..i]
        invariant forall p :: p in work ==> work[p] == old(work)[p]
      {
        if ADDED_FILES[i] in work {
          work := work - {ADDED_FILES[i]};
        }
        assert ADDED_FILES[..i + 1] == ADDED_FILES[..i] + [ADDED_FILES[i]];
      }
      forall p ensures p in ADDED_FILES[..|ADDED_FILES|] <==> IsAddedFile(p) {
        OwnedAre(p);
        assert ADDED_FILES[..|ADDED_FILES|] == ADDED_FILES;
      }
    }

    /** Deletes the adapter's directory, unless HEAD has files in it: then it is refused and nothing changes. */
    method RemoveDirectory() returns (error: Option<CheckoutError>)
      modifies this
      ensures error == None || error == Some(TrackedAdapterPath)
      ensures error == None ==> forall p :: p in work ==> !p.InE2bDirectory?
      ensures error.Some? <==> && (exists p :: p in old(work) && p.InE2bDirectory?)
                               && (exists p :: p in head && p.InE2bDirectory?)
      ensures error.Some? ==> work == old(work)
      ensures forall p: Path :: !p.InE2bDirectory? ==>
                (p in work <==> p in old(work)) && (p in work ==> work[p] == old(work)[p])
    {
      if exists p :: p in work && p.InE2bDirectory? {
        if exists p :: p in head && p.InE2bDirectory? {
          return Some(TrackedAdapterPath);
        }
        work := map p | p in work && !p.InE2bDirectory? :: work[p];
      }
      error := None;
    }

    /** Deletes everything the adapter adds, unless HEAD has files in the adapter's directory. */
    method RemoveAdded() returns (error: Option<CheckoutError>)
      requires forall p :: p in head && p.InE2bDirectory? ==> p in work
      modifies this
      ensures error == None <==> forall p :: p in head ==> !p.InE2bDirectory?
      ensures error == None ==> forall p :: p in work <==> p in old(work) && !IsAdded(p)
      ensures forall p :: !IsAdded(p) ==> (p in work <==> p in old(work)) && (p in work ==> work[p] == old(work)[p])
      ensures error == None || error == Some(TrackedAdapterPath)
    {
      RemoveAddedFiles();
      error := RemoveDirectory();
    }

    /** `restore_owned_patch`: refused, with nothing changed, when anything but adapter-owned paths differs;
        refused part way when HEAD lacks an owned file or has the adapter's directory. */
    method Restore() returns (error: Option<CheckoutError>)
      modifies this
      ensures error == None <==>
                && isGit && OnlyOwnedChanges(head, old(work), ignored)
                && (forall p :: IsOwned(p) ==> p in head)
                && (forall p :: p in head ==> !p.InE2bDirectory?)
      ensures error == None ==> IsRestored(head, old(work), work)
      ensures error == None ==>
                forall p: Path ::
                  if p.DesktopEnv? || p.ProvidersInit? || p.QwenAgent? || p.RunMultienv? || p.RunMultienvM3?
                     || p.RunMultienvQwen?
                  then p in head && p in work && work[p] == head[p]
                  else if p.E2bHarness? || p.E2bPolicy? || p.E2bRelay? || p.InE2bDirectory? then p !in work
                  else (p in work <==> p in old(work)) && (p in work ==> work[p] == old(work)[p])
      ensures !isGit || !OnlyOwnedChanges(head, old(work), ignored) ==> work == old(work)
      ensures forall p :: !IsOwned(p) && !IsAdded(p) ==>
                (p in work <==> p in old(work)) && (p in work ==> work[p] == old(work)[p])
      ensures error == Some(NotGit) <==> !isGit
      ensures error.Some? && isGit && OnlyOwnedChanges(head, old(work), ignored) ==>
                || (error.value.NotInHead? && IsOwned(error.value.path) && error.value.path !in head)
                || (error.value == TrackedAdapterPath && exists p :: p in head && p.InE2bDirectory?)
    {
      if !isGit {
        return Some(NotGit);
      }
      error := RejectUnexpectedChanges();
      if error.Some? {
        return;
      }
      ghost var before := work;
      DirectoryIsPresent(head, before, ignored);
      error := RestoreTracked();
      if error.Some? {
        return;
      }
      error := RemoveAdded();
    }
  }

  lemma DirectoryIsPresent(head: Tree, work: Tree, ignored: Ignores)
    requires OnlyOwnedChanges(head, work, ignored)
    ensures forall p :: p in head && p.InE2bDirectory? ==> p in work
  {
  }
}
