/** Runs of the relay, built one operation at a time, that reach the states its guarantees do not cover. */
module RelayRuns {
  import opened Prelude
  import opened RelayMachine
  import opened RelayConservation
  import opened RelayInvariants
  import opened RelayTheorems

  /** No operation holds a lock, and `stop` was not called. */
  predicate Idle(s: State) {
    s.lock == None && s.replaceLock == None && !s.stopped
  }

  predicate IsAt(s: State, op: OpId, pc: Pc) {
    op in s.ops && s.ops[op].pc == pc && s.ops[op].source == None
  }

  lemma ReachStep(attempts: int, s: State, step: Step, s': State)
    requires Reachable(attempts, s) && Next(attempts, s, step) == Some(s')
    ensures Reachable(attempts, s')
  {
    assert [step][1..] == [];
    assert Run(attempts, s', []) == Some(s');
    assert Run(attempts, s, [step]) == Some(s');
    ReachableFurther(attempts, s, [step], s');
  }

  lemma NewManager(attempts: int)
    ensures Reachable(attempts, INITIAL) && Idle(INITIAL)
  {
    assert Run(attempts, INITIAL, []) == Some(INITIAL);
  }

  // ----- the parts of an operation -----

  lemma Spawned(attempts: int, s: State, op: OpId) returns (s': State)
    requires Reachable(attempts, s) && op !in s.ops
    ensures Reachable(attempts, s') && IsAt(s', op, WantReplaceLock)
    ensures s' == s.(ops := s'.ops) && s'.ops.Keys == s.ops.Keys + {op}
  {
    var o := Op(Replace, None, WantReplaceLock, 0, 1);
    s' := s.(ops := s.ops[op := o]);
    assert Next(attempts, s, Spawn(op, Replace)) == Some(s');
    ReachStep(attempts, s, Spawn(op, Replace), s');
  }

  lemma TookReplaceLock(attempts: int, s: State, op: OpId) returns (s': State)
    requires Reachable(attempts, s) && IsAt(s, op, WantReplaceLock) && s.replaceLock == None
    ensures Reachable(attempts, s') && IsAt(s', op, WantGeneration)
    ensures s' == s.(ops := s'.ops, replaceLock := Some(op)) && s'.ops.Keys == s.ops.Keys
  {
    s' := Goto(s.(replaceLock := Some(op)), op, WantGeneration);
    assert Next(attempts, s, Acquire(op)) == Some(s');
    ReachStep(attempts, s, Acquire(op), s');
  }

  lemma TookLock(attempts: int, s: State, op: OpId, pc: Pc) returns (s': State)
    requires Reachable(attempts, s) && IsAt(s, op, pc) && WantsLock(pc) && s.lock == None
    ensures Reachable(attempts, s') && IsAt(s', op, Afterwards(pc).value)
    ensures s' == s.(ops := s'.ops, lock := Some(op)) && s'.ops.Keys == s.ops.Keys
  {
    s' := Goto(s.(lock := Some(op)), op, Afterwards(pc).value);
    assert Next(attempts, s, Acquire(op)) == Some(s');
    ReachStep(attempts, s, Acquire(op), s');
  }

  lemma ReadGeneration(attempts: int, s: State, op: OpId) returns (s': State, generation: nat)
    requires Reachable(attempts, s) && IsAt(s, op, ReadingGeneration) && !s.stopped
    ensures Reachable(attempts, s') && IsAt(s', op, Creating(generation))
    ensures s' == s.(ops := s'.ops, lock := None, log := s.log + [CreateStarted(generation, Template)])
    ensures s'.ops.Keys == s.ops.Keys
  {
    generation := if s.guest.Some? then s.guest.value.generation + 1 else 1;
    s' := Goto(s.(lock := None, log := s.log + [CreateStarted(generation, Template)]), op, Creating(generation));
    assert Next(attempts, s, RunSection(op)) == Some(s');
    ReachStep(attempts, s, RunSection(op), s');
  }

  /** A replacement up to the remote call that creates its sandbox. */
  lemma Began(attempts: int, s: State, op: OpId) returns (s': State, generation: nat)
    requires Reachable(attempts, s) && Idle(s) && op !in s.ops
    ensures Reachable(attempts, s') && IsAt(s', op, Creating(generation))
    ensures s' == s.(ops := s'.ops, replaceLock := Some(op), log := s.log + [CreateStarted(generation, Template)])
    ensures s'.ops.Keys == s.ops.Keys + {op}
  {
    var s1 := Spawned(attempts, s, op);
    var s2 := TookReplaceLock(attempts, s1, op);
    var s3 := TookLock(attempts, s2, op, WantGeneration);
    s', generation := ReadGeneration(attempts, s3, op);
  }

  lemma CreatedWithToken(attempts: int, s: State, op: OpId, generation: nat, id: SandboxId)
    returns (s': State, g: Guest)
    requires Reachable(attempts, s) && IsAt(s, op, Creating(generation)) && id !in s.created
    ensures Reachable(attempts, s') && IsAt(s', op, WaitingReady(g)) && g == Guest(id, generation, Template)
    ensures s' == s.(ops := s'.ops, created := s.created[id := Birth(op, Template)],
                     log := s.log + [Created(id, generation, Template)])
    ensures s'.ops.Keys == s.ops.Keys
  {
    g := Guest(id, generation, Template);
    s' := Goto(s.(created := s.created[id := Birth(op, Template)], log := s.log + [Created(id, generation, Template)]),
               op, WaitingReady(g));
    assert Next(attempts, s, CreateReturns(op, id, true)) == Some(s');
    ReachStep(attempts, s, CreateReturns(op, id, true), s');
  }

  lemma CreatedWithoutToken(attempts: int, s: State, op: OpId, generation: nat, id: SandboxId) returns (s': State)
    requires Reachable(attempts, s) && IsAt(s, op, Creating(generation)) && id !in s.created && attempts >= 1
    ensures Reachable(attempts, s') && IsAt(s', op, Killing(id, 1, RaiseError))
    ensures s' == s.(ops := s'.ops, created := s.created[id := Birth(op, Template)]) && s'.ops.Keys == s.ops.Keys
  {
    var s1 := s.(created := s.created[id := Birth(op, Template)]);
    s' := Goto(s1, op, Killing(id, 1, RaiseError));
    assert s.log + [] == s.log;
    assert StartCleanup(attempts, s1, op, id, RaiseError) == s';
    assert Next(attempts, s, CreateReturns(op, id, false)) == Some(s');
    ReachStep(attempts, s, CreateReturns(op, id, false), s');
  }

  lemma WasNeverReady(attempts: int, s: State, op: OpId, g: Guest) returns (s': State)
    requires Reachable(attempts, s) && IsAt(s, op, WaitingReady(g)) && attempts >= 1
    ensures Reachable(attempts, s') && IsAt(s', op, Killing(g.id, 1, RaiseError))
    ensures s' == s.(ops := s'.ops) && s'.ops.Keys == s.ops.Keys
  {
    s' := Goto(s, op, Killing(g.id, 1, RaiseError));
    assert s.log + [] == s.log;
    assert StartCleanup(attempts, s, op, g.id, RaiseError) == s';
    assert Next(attempts, s, NeverReady(op)) == Some(s');
    ReachStep(attempts, s, NeverReady(op), s');
  }

  lemma BecameReady(attempts: int, s: State, op: OpId, g: Guest) returns (s': State)
    requires Reachable(attempts, s) && IsAt(s, op, WaitingReady(g))
    ensures Reachable(attempts, s') && IsAt(s', op, WantPublish(g))
    ensures s' == s.(ops := s'.ops, log := s.log + [Ready(g.id, g.generation, g.seed)]) && s'.ops.Keys == s.ops.Keys
  {
    s' := Goto(s.(log := s.log + [Ready(g.id, g.generation, g.seed)]), op, WantPublish(g));
    assert Next(attempts, s, BecomesReady(op)) == Some(s');
    ReachStep(attempts, s, BecomesReady(op), s');
  }

  lemma PublishedFirst(attempts: int, s: State, op: OpId, g: Guest) returns (s': State)
    requires Reachable(attempts, s) && IsAt(s, op, Publishing(g)) && !s.stopped && s.guest == None
    ensures Reachable(attempts, s')
    ensures s' == s.(ops := s'.ops, lock := None, replaceLock := None, guest := Some(g), published := s'.published)
    ensures s'.ops.Keys == s.ops.Keys
  {
    var s1 := s.(lock := None, guest := Some(g), published := s.published + [Publication(op, g)]);
    s' := Leave(s1, op, Returned(g));
    assert Next(attempts, s, RunSection(op)) == Some(s');
    ReachStep(attempts, s, RunSection(op), s');
  }

  lemma PublishedNext(attempts: int, s: State, op: OpId, g: Guest) returns (s': State)
    requires Reachable(attempts, s) && IsAt(s, op, Publishing(g)) && !s.stopped && s.guest.Some? && attempts >= 1
    ensures Reachable(attempts, s') && IsAt(s', op, Killing(s.guest.value.id, 1, ReturnGuest(g)))
    ensures s' == s.(ops := s'.ops, lock := None, guest := Some(g), published := s'.published)
    ensures s'.ops.Keys == s.ops.Keys
  {
    var s1 := s.(lock := None, guest := Some(g), published := s.published + [Publication(op, g)]);
    s' := Goto(s1, op, Killing(s.guest.value.id, 1, ReturnGuest(g)));
    assert s.log + [] == s.log;
    assert StartCleanup(attempts, s1, op, s.guest.value.id, ReturnGuest(g)) == s';
    assert Next(attempts, s, RunSection(op)) == Some(s');
    ReachStep(attempts, s, RunSection(op), s');
  }

  lemma Killed(attempts: int, s: State, op: OpId, id: SandboxId, after: After) returns (s': State)
    requires Reachable(attempts, s) && IsAt(s, op, Killing(id, 1, after))
    ensures Reachable(attempts, s') && IsAt(s', op, WantRecord(id, true, after))
    ensures s' == s.(ops := s'.ops, log := s.log + [Cleaned(id)], killed := s.killed + {id})
    ensures s'.ops.Keys == s.ops.Keys
  {
    s' := Goto(CountKill(s, op).(log := s.log + [Cleaned(id)], killed := s.killed + {id}),
               op, WantRecord(id, true, after));
    assert Next(attempts, s, KillReturns(op)) == Some(s');
    ReachStep(attempts, s, KillReturns(op), s');
  }

  lemma GaveUp(s: State, op: OpId, id: SandboxId, after: After) returns (s': State)
    requires Reachable(1, s) && IsAt(s, op, Killing(id, 1, after))
    ensures Reachable(1, s') && IsAt(s', op, WantRecord(id, false, after))
    ensures s' == s.(ops := s'.ops, log := s.log + [CleanupFailed(id)]) && s'.ops.Keys == s.ops.Keys
  {
    s' := Goto(CountKill(s, op).(log := s.log + [CleanupFailed(id)]), op, WantRecord(id, false, after));
    assert Next(1, s, KillRaises(op)) == Some(s');
    ReachStep(1, s, KillRaises(op), s');
  }

  lemma Recorded(attempts: int, s: State, op: OpId, id: SandboxId, dead: bool, after: After) returns (s': State)
    requires Reachable(attempts, s) && IsAt(s, op, Recording(id, dead, after)) && !after.Drain?
    ensures Reachable(attempts, s')
    ensures s' == s.(ops := s'.ops, lock := None, replaceLock := None, pending := s'.pending)
    ensures s'.ops.Keys == s.ops.Keys
  {
    var s1 := s.(lock := None, pending := if dead then Pop(s.pending, id) else Put(s.pending, id));
    s' := Leave(s1, op, if after.RaiseError? then Raised else Returned(after.guest));
    assert Resume(attempts, s1, op, after) == s';
    assert Next(attempts, s, RunSection(op)) == Some(s');
    ReachStep(attempts, s, RunSection(op), s');
  }

  // ----- whole replacements -----

  /** What the runs below are asked about. */
  ghost predicate Leads(s: State, op: OpId, s': State) {
    Idle(s') && s'.ops.Keys == s.ops.Keys + {op}
  }

  /** A replacement up to the publication of its sandbox. */
  lemma Readied(attempts: int, s: State, op: OpId, id: SandboxId) returns (s': State, g: Guest)
    requires Reachable(attempts, s) && Idle(s) && op !in s.ops && id !in s.created
    ensures Reachable(attempts, s') && g.id == id && g.seed == Template && IsAt(s', op, Publishing(g))
    ensures s' == s.(ops := s'.ops, lock := Some(op), replaceLock := Some(op), created := s'.created, log := s'.log)
    ensures s'.ops.Keys == s.ops.Keys + {op} && s'.created.Keys == s.created.Keys + {id}
    ensures s'.log == s.log + [CreateStarted(g.generation, Template)] + [Created(id, g.generation, Template)]
                      + [Ready(id, g.generation, Template)]
  {
    var s1, s2, generation;
    s1, generation := Began(attempts, s, op);
    s2, g := CreatedWithToken(attempts, s1, op, generation, id);
    var s3 := BecameReady(attempts, s2, op, g);
    s' := TookLock(attempts, s3, op, WantPublish(g));
  }

  /** A replacement that succeeds, and kills the guest it replaces if there is one. */
  lemma Installs(attempts: int, s: State, op: OpId, id: SandboxId) returns (s': State, generation: nat)
    requires Reachable(attempts, s) && Idle(s) && op !in s.ops && id !in s.created && attempts >= 1
    ensures Reachable(attempts, s') && Leads(s, op, s')
    ensures s'.created.Keys == s.created.Keys + {id}
    ensures s'.guest.Some? && s'.guest.value.id == id
    ensures s'.killed == if s.guest.Some? then s.killed + {s.guest.value.id} else s.killed
    ensures s'.log == s.log + [CreateStarted(generation, Template)] + [Created(id, generation, Template)]
                      + [Ready(id, generation, Template)]
                      + (if s.guest.Some? then [Cleaned(s.guest.value.id)] else [])
  {
    var s1, g;
    s1, g := Readied(attempts, s, op, id);
    generation := g.generation;
    if s.guest == None {
      s' := PublishedFirst(attempts, s1, op, g);
    } else {
      var s2 := PublishedNext(attempts, s1, op, g);
      s' := CleansUp(attempts, s2, op, s.guest.value.id, ReturnGuest(g));
    }
  }

  lemma CleansUp(attempts: int, s: State, op: OpId, id: SandboxId, after: After) returns (s': State)
    requires Reachable(attempts, s) && IsAt(s, op, Killing(id, 1, after)) && !after.Drain? && s.lock == None
    ensures Reachable(attempts, s') && s'.ops.Keys == s.ops.Keys
    ensures s' == s.(ops := s'.ops, replaceLock := None, pending := s'.pending,
                     log := s.log + [Cleaned(id)], killed := s.killed + {id})
  {
    var s1 := Killed(attempts, s, op, id, after);
    var s2 := TookLock(attempts, s1, op, WantRecord(id, true, after));
    s' := Recorded(attempts, s2, op, id, true, after);
  }

  /** A replacement whose sandbox never becomes ready and is killed. */
  lemma DropsUnready(attempts: int, s: State, op: OpId, id: SandboxId) returns (s': State, generation: nat)
    requires Reachable(attempts, s) && Idle(s) && op !in s.ops && id !in s.created && attempts >= 1
    ensures Reachable(attempts, s') && Leads(s, op, s')
    ensures s'.created.Keys == s.created.Keys + {id} && s'.killed == s.killed + {id} && s'.guest == s.guest
    ensures s'.log == s.log + [CreateStarted(generation, Template)] + [Created(id, generation, Template)] + [Cleaned(id)]
  {
    var s1, s2, g;
    s1, generation := Began(attempts, s, op);
    s2, g := CreatedWithToken(attempts, s1, op, generation, id);
    var s3 := WasNeverReady(attempts, s2, op, g);
    s' := CleansUp(attempts, s3, op, id, RaiseError);
  }

  lemma CannotCleanUp(s: State, op: OpId, id: SandboxId) returns (s': State)
    requires Reachable(1, s) && IsAt(s, op, Killing(id, 1, RaiseError)) && s.lock == None
    ensures Reachable(1, s') && s'.ops.Keys == s.ops.Keys
    ensures s' == s.(ops := s'.ops, replaceLock := None, pending := s'.pending, log := s.log + [CleanupFailed(id)])
  {
    var s1 := GaveUp(s, op, id, RaiseError);
    var s2 := TookLock(1, s1, op, WantRecord(id, false, RaiseError));
    s' := Recorded(1, s2, op, id, false, RaiseError);
  }

  /** A replacement whose sandbox has no token and cannot be killed in the one attempt there is. */
  lemma KeepsTokenless(s: State, op: OpId, id: SandboxId) returns (s': State, generation: nat)
    requires Reachable(1, s) && Idle(s) && op !in s.ops && id !in s.created
    ensures Reachable(1, s') && Leads(s, op, s')
    ensures s'.created.Keys == s.created.Keys + {id} && s'.killed == s.killed && s'.guest == s.guest
    ensures s'.log == s.log + [CreateStarted(generation, Template)] + [CleanupFailed(id)]
  {
    var s1;
    s1, generation := Began(1, s, op);
    var s2 := CreatedWithoutToken(1, s1, op, generation, id);
    s' := CannotCleanUp(s2, op, id);
  }

  /** A replacement in the middle of killing a sandbox without a token. */
  lemma IsKillingTokenless(attempts: int, s: State, op: OpId, id: SandboxId) returns (s': State, generation: nat)
    requires Reachable(attempts, s) && Idle(s) && op !in s.ops && id !in s.created && attempts >= 1
    ensures Reachable(attempts, s') && s'.replaceLock == Some(op)
    ensures s'.created.Keys == s.created.Keys + {id} && s'.killed == s.killed
    ensures s'.log == s.log + [CreateStarted(generation, Template)]
  {
    var s1;
    s1, generation := Began(attempts, s, op);
    s' := CreatedWithoutToken(attempts, s1, op, generation, id);
  }
}
