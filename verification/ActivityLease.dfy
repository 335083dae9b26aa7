/** Runs, barriers and the runtime swap among processes that may crash: one gate, a lease file per run. */
module ActivityLease {
  import opened Wrappers

  // A step is one system call, or a few that only the process itself can see.

  /** Who holds the lock on a lease file: a run, or someone who is only looking. */
  datatype Holder = Run(p: nat) | Looker(p: nat)

  /** `own` is the lease of a process that swaps the runtime while it is itself a run. */
  datatype Pc =
    | Idle
    | Starting(id: nat)                    // `holding_activity`: wants the gate
    | Registering(id: nat)                 // holds the gate; lease file not yet opened
    | Opened(id: nat)                      // file exists, lock not yet taken
    | Leased(id: nat)                      // lock taken, gate still held
    | Running(id: nat)                     // the body
    | Ending(id: nat)                      // lock released
    | Unlinking(id: nat)                   // holds the gate once more, to remove the file
    | Sweeping(todo: set<nat>, active: bool, stale: Option<nat>) // barrier: holds the gate
    | Barrier                              // the body of the barrier
    | Counting(own: Option<nat>, todo: set<nat>, seen: set<nat>) // swap: holds the gate
    | Moving(own: Option<nat>)             // moving the runtime aside
    | Looking(id: nat)                     // `try_lock` from outside the gate

  datatype State = State(
    procs: map<nat, Pc>,
    gate: Option<nat>,
    files: set<nat>,
    locks: map<nat, Holder>,
    used: set<nat>)

  function At(s: State, p: nat): Pc
  {
    if p in s.procs then s.procs[p] else Idle
  }

  /** The lease whose lock a process at `pc` holds as a run. */
  function Lease(pc: Pc): Option<nat>
  {
    match pc
    case Leased(id) => Some(id)
    case Running(id) => Some(id)
    case Counting(own, _, _) => own
    case Moving(own) => own
    case _ => None
  }

  /** The lease id a process has drawn. */
  function Id(pc: Pc): Option<nat>
  {
    match pc
    case Starting(id) => Some(id)
    case Registering(id) => Some(id)
    case Opened(id) => Some(id)
    case Ending(id) => Some(id)
    case Unlinking(id) => Some(id)
    case _ => Lease(pc)
  }

  predicate HasGate(pc: Pc)
  {
    pc.Registering? || pc.Opened? || pc.Leased? || pc.Unlinking? || pc.Sweeping? || pc.Barrier? || pc.Counting? || pc.Moving?
  }

  datatype Step =
    | StartRun(p: nat, id: nat)
    | EnterGate(p: nat)
    | OpenLease(p: nat)
    | TakeLease(p: nat)
    | LeaveGate(p: nat)
    | EndRun(p: nat)
    | GiveUpUnlink(p: nat)
    | Unlink(p: nat)
    | StartBarrier(p: nat)
    | Sweep(p: nat, id: nat)
    | UnlinkStale(p: nat)
    | EndSweep(p: nat)
    | EndBarrier(p: nat)
    | StartSwap(p: nat)
    | Count(p: nat, id: nat)
    | EndCount(p: nat)
    | EndMove(p: nat)
    | Look(p: nat, id: nat)
    | LookAway(p: nat)
    | Crash(p: nat)

  function To(s: State, p: nat, pc: Pc): State
  {
    s.(procs := s.procs[p := pc])
  }

  predicate Enabled(s: State, step: Step)
  {
    var pc := At(s, step.p);
    match step
    case StartRun(_, id) => pc.Idle? && id !in s.used
    case EnterGate(_) => (pc.Starting? || pc.Ending?) && s.gate.None?
    case OpenLease(_) => pc.Registering?
    case TakeLease(_) => pc.Opened?
    case LeaveGate(_) => pc.Leased?
    case EndRun(_) => pc.Running?
    case GiveUpUnlink(_) => pc.Ending?
    case Unlink(_) => pc.Unlinking?
    case StartBarrier(_) => pc.Idle? && s.gate.None?
    case Sweep(_, id) => pc.Sweeping? && pc.stale.None? && id in pc.todo
    case UnlinkStale(_) => pc.Sweeping? && pc.stale.Some?
    case EndSweep(_) => pc.Sweeping? && pc.stale.None? && pc.todo == {}
    case EndBarrier(_) => pc.Barrier?
    case StartSwap(_) => (pc.Idle? || pc.Running?) && s.gate.None?
    case Count(_, id) => pc.Counting? && id in pc.todo
    case EndCount(_) => pc.Counting? && pc.todo == {}
    case EndMove(_) => pc.Moving?
    case Look(_, id) => pc.Idle? && id in s.used && id !in s.locks
    case LookAway(_) => pc.Looking?
    case Crash(_) => true
  }

  function Freed(locks: map<nat, Holder>, p: nat): map<nat, Holder>
  {
    map id | id in locks && locks[id] != Run(p) && locks[id] != Looker(p) :: locks[id]
  }

  function Back(own: Option<nat>): Pc
  {
    if own.Some? then Running(own.value) else Idle
  }

  function Apply(s: State, step: Step): State
    requires Enabled(s, step)
  {
    var p := step.p;
    var pc := At(s, p);
    match step
    case StartRun(_, id) => To(s.(used := s.used + {id}), p, Starting(id))
    case EnterGate(_) => To(s.(gate := Some(p)), p, if pc.Starting? then Registering(pc.id) else Unlinking(pc.id))
    case OpenLease(_) => To(s.(files := s.files + {pc.id}), p, Opened(pc.id))
    case TakeLease(_) =>
      if pc.id in s.locks then To(s.(gate := None), p, Idle)
      else To(s.(locks := s.locks[pc.id := Run(p)]), p, Leased(pc.id))
    case LeaveGate(_) => To(s.(gate := None), p, Running(pc.id))
    case EndRun(_) => To(s.(locks := s.locks - {pc.id}), p, Ending(pc.id))
    case GiveUpUnlink(_) => To(s, p, Idle)
    case Unlink(_) => To(s.(files := s.files - {pc.id}, gate := None), p, Idle)
    case StartBarrier(_) => To(s.(gate := Some(p)), p, Sweeping(s.files, false, None))
    case Sweep(_, id) =>
      if id in s.locks then To(s, p, Sweeping(pc.todo - {id}, true, None))
      else To(s, p, Sweeping(pc.todo - {id}, pc.active, Some(id)))
    case UnlinkStale(_) => To(s.(files := s.files - {pc.stale.value}), p, pc.(stale := None))
    case EndSweep(_) => if pc.active then To(s.(gate := None), p, Idle) else To(s, p, Barrier)
    case EndBarrier(_) => To(s.(gate := None), p, Idle)
    case StartSwap(_) =>
      To(s.(gate := Some(p)), p, Counting(if pc.Running? then Some(pc.id) else None, s.files, {}))
    case Count(_, id) =>
      To(s, p, pc.(todo := pc.todo - {id}, seen := if id in s.locks then pc.seen + {id} else pc.seen))
    case EndCount(_) =>
      if |pc.seen| - (if pc.own.Some? then 1 else 0) > 0 then To(s.(gate := None), p, Back(pc.own))
      else To(s, p, Moving(pc.own))
    case EndMove(_) => To(s.(gate := None), p, Back(pc.own))
    case Look(_, id) => To(s.(locks := s.locks[id := Looker(p)], files := s.files + {id}), p, Looking(id))
    case LookAway(_) => To(s.(locks := s.locks - {pc.id}), p, Idle)
    case Crash(_) =>
      To(s.(gate := if s.gate == Some(p) then None else s.gate, locks := Freed(s.locks, p)), p, Idle)
  }

  // ----- what every state satisfies -----

  /** The gate is held by who thinks so. */
  ghost predicate Gate(s: State)
  {
    forall p: nat :: HasGate(At(s, p)) <==> s.gate == Some(p)
  }

  /** So are the locks on the leases. */
  ghost predicate Locks(s: State)
  {
    && (forall p: nat :: Wanted(At(s, p), p).Some? ==> HeldBy(s, Wanted(At(s, p), p).value.0, Wanted(At(s, p), p).value.1))
    && (forall id :: id in s.locks ==> Wanted(At(s, s.locks[id].p), s.locks[id].p) == Some((id, s.locks[id])))
  }

  /** The lock a process holds, and how. */
  function Wanted(pc: Pc, p: nat): Option<(nat, Holder)>
  {
    if pc.Looking? then Some((pc.id, Looker(p)))
    else if Lease(pc).Some? then Some((Lease(pc).value, Run(p)))
    else None
  }

  predicate HeldBy(s: State, id: nat, h: Holder)
  {
    id in s.locks && s.locks[id] == h
  }

  /** Ids are drawn once, and a run's lease file is there. */
  ghost predicate Ids(s: State)
  {
    && (forall p: nat :: Id(At(s, p)).Some? ==> Id(At(s, p)).value in s.used)
    && (forall p: nat, q: nat :: p != q && Id(At(s, p)).Some? ==> Id(At(s, p)) != Id(At(s, q)))
    && (forall p: nat :: File(At(s, p)).Some? ==> File(At(s, p)).value in s.files)
  }

  /** The lease file a process relies on. */
  function File(pc: Pc): Option<nat>
  {
    if pc.Opened? then Some(pc.id) else Lease(pc)
  }

  /** What who holds the gate has found out is true of every run. */
  ghost predicate Found(s: State)
  {
    forall p: nat, q: nat :: FoundOf(At(s, p), p, At(s, q), q)
  }

  predicate FoundOf(pc: Pc, p: nat, other: Pc, q: nat)
  {
    Lease(other).Some? ==>
      var id := Lease(other).value;
      match pc
      case Sweeping(todo, active, stale) => (active || id in todo) && stale != Some(id)
      case Barrier => false
      case Counting(_, todo, seen) => id in todo || id in seen
      case Moving(_) => p == q
      case _ => true
  }

  ghost predicate Inv(s: State)
  {
    Gate(s) && Locks(s) && Ids(s) && Found(s)
  }

  const START := State(map[], None, {}, map[], {})

  lemma StartInv()
    ensures Inv(START)
  {
  }

  // ----- every step keeps it -----

  /** The step changes one process only. */
  lemma OnlyOne(s: State, step: Step)
    requires Enabled(s, step)
    ensures forall q: nat :: q != step.p ==> At(Apply(s, step), q) == At(s, q)
  {
  }

  lemma GateStep(s: State, step: Step)
    requires Gate(s) && Enabled(s, step)
    ensures Gate(Apply(s, step))
  {
    var s' := Apply(s, step);
    OnlyOne(s, step);
    forall q: nat ensures HasGate(At(s', q)) <==> s'.gate == Some(q) {
      assert HasGate(At(s, q)) <==> s.gate == Some(q);
      assert HasGate(At(s, step.p)) <==> s.gate == Some(step.p);
    }
  }

  /** Steps that take or release no lock on a lease. */
  predicate LeavesLocks(step: Step)
  {
    match step
    case TakeLease(_) | EndRun(_) | Look(_, _) | LookAway(_) | Crash(_) => false
    case _ => true
  }

  lemma SameLocks(s: State, step: Step)
    requires Locks(s) && Enabled(s, step) && LeavesLocks(step)
    ensures Locks(Apply(s, step))
  {
    var s', p := Apply(s, step), step.p;
    OnlyOne(s, step);
    assert s'.locks == s.locks;
    WantedStays(s, step);
    forall q: nat | Wanted(At(s', q), q).Some? ensures HeldBy(s', Wanted(At(s', q), q).value.0, Wanted(At(s', q), q).value.1) {
      assert Wanted(At(s', q), q) == Wanted(At(s, q), q);
    }
  }

  lemma WantedStays(s: State, step: Step)
    requires Enabled(s, step) && LeavesLocks(step)
    ensures Wanted(At(Apply(s, step), step.p), step.p) == Wanted(At(s, step.p), step.p)
    ensures Apply(s, step).locks == s.locks
  {
  }

  lemma TakenLocks(s: State, step: Step)
    requires Locks(s) && Enabled(s, step) && (step.TakeLease? || step.Look?)
    ensures Locks(Apply(s, step))
  {
    var s', p := Apply(s, step), step.p;
    OnlyOne(s, step);
    forall q: nat | Wanted(At(s', q), q).Some? ensures HeldBy(s', Wanted(At(s', q), q).value.0, Wanted(At(s', q), q).value.1) {
      if q != p { assert HeldBy(s, Wanted(At(s, q), q).value.0, Wanted(At(s, q), q).value.1); }
    }
  }

  lemma FreedLocks(s: State, step: Step)
    requires Locks(s) && Enabled(s, step) && (step.EndRun? || step.LookAway? || step.Crash?)
    ensures Locks(Apply(s, step))
  {
    var s', p := Apply(s, step), step.p;
    OnlyOne(s, step);
    assert Wanted(At(s, p), p).Some? ==> HeldBy(s, Wanted(At(s, p), p).value.0, Wanted(At(s, p), p).value.1);
    forall q: nat | Wanted(At(s', q), q).Some? ensures HeldBy(s', Wanted(At(s', q), q).value.0, Wanted(At(s', q), q).value.1) {
      if q != p { assert HeldBy(s, Wanted(At(s, q), q).value.0, Wanted(At(s, q), q).value.1); }
    }
  }

  lemma LocksStep(s: State, step: Step)
    requires Locks(s) && Enabled(s, step)
    ensures Locks(Apply(s, step))
  {
    if LeavesLocks(step) {
      SameLocks(s, step);
    } else if step.TakeLease? || step.Look? {
      TakenLocks(s, step);
    } else {
      FreedLocks(s, step);
    }
  }

  /** An id is drawn by `StartRun` and otherwise only kept or given up. */
  lemma IdStays(s: State, step: Step)
    requires Enabled(s, step)
    ensures var id' := Id(At(Apply(s, step), step.p));
      && (id'.Some? && id' != Id(At(s, step.p)) ==> id'.value !in s.used)
      && s.used <= Apply(s, step).used && (id'.Some? && id' != Id(At(s, step.p)) ==> id'.value in Apply(s, step).used)
  {
  }

  lemma UsedStep(s: State, step: Step)
    requires Ids(s) && Enabled(s, step)
    ensures var s' := Apply(s, step);
      && (forall p: nat :: Id(At(s', p)).Some? ==> Id(At(s', p)).value in s'.used)
      && (forall p: nat, q: nat :: p != q && Id(At(s', p)).Some? ==> Id(At(s', p)) != Id(At(s', q)))
  {
    var s' := Apply(s, step);
    OnlyOne(s, step);
    IdStays(s, step);
    forall p: nat | Id(At(s', p)).Some? ensures Id(At(s', p)).value in s'.used {
      if p != step.p { assert Id(At(s, p)).Some?; }
    }
    forall p: nat, q: nat | p != q && Id(At(s', p)).Some? ensures Id(At(s', p)) != Id(At(s', q)) {
      assert Id(At(s, p)).Some? ==> Id(At(s, p)).value in s.used;
      assert Id(At(s, q)).Some? ==> Id(At(s, q)).value in s.used;
      assert Id(At(s, p)).Some? ==> Id(At(s, p)) != Id(At(s, q));
      assert Id(At(s, q)).Some? ==> Id(At(s, q)) != Id(At(s, p));
    }
  }

  /** A lease file goes only when nobody holds its lease or is about to. */
  lemma FileSurvives(s: State, step: Step, q: nat)
    requires Inv(s) && Enabled(s, step) && File(At(s, q)).Some?
    ensures File(At(s, q)).value in Apply(s, step).files
  {
    var p, id := step.p, File(At(s, q)).value;
    assert id in s.files;
    assert HasGate(At(s, p)) <==> s.gate == Some(p);
    assert HasGate(At(s, q)) <==> s.gate == Some(q);
    match step
    case Unlink(_) =>
      assert Id(At(s, p)).Some? && p != q;
      assert Id(At(s, p)) != Id(At(s, q));
    case UnlinkStale(_) => assert FoundOf(At(s, p), p, At(s, q), q);
    case _ =>
  }

  lemma FileIsNotNew(s: State, step: Step)
    requires Enabled(s, step) && File(At(Apply(s, step), step.p)).Some?
    ensures var file := File(At(Apply(s, step), step.p)); file == File(At(s, step.p)) || file.value in Apply(s, step).files
  {
  }

  lemma FilesStep(s: State, step: Step)
    requires Inv(s) && Enabled(s, step)
    ensures forall p: nat :: File(At(Apply(s, step), p)).Some? ==> File(At(Apply(s, step), p)).value in Apply(s, step).files
  {
    var s' := Apply(s, step);
    OnlyOne(s, step);
    forall p: nat | File(At(s', p)).Some? ensures File(At(s', p)).value in s'.files {
      if File(At(s, p)).Some? { FileSurvives(s, step, p); }
      if p == step.p { FileIsNotNew(s, step); }
    }
  }

  /** Only a process that holds the gate comes to hold a lease. */
  lemma LeaseIsNotNew(s: State, step: Step)
    requires Enabled(s, step)
    ensures var lease' := Lease(At(Apply(s, step), step.p));
            lease'.None? || lease' == Lease(At(s, step.p)) || HasGate(At(s, step.p))
  {
  }

  /** What a process that holds the gate knew of another stays true, whatever the other does. */
  lemma FoundOther(s: State, step: Step, p: nat)
    requires Inv(s) && Enabled(s, step) && p != step.p
    ensures FoundOf(At(s, p), p, At(Apply(s, step), step.p), step.p)
  {
    var q := step.p;
    assert FoundOf(At(s, p), p, At(s, q), q);
    assert HasGate(At(s, p)) <==> s.gate == Some(p);
    assert HasGate(At(s, q)) <==> s.gate == Some(q);
    LeaseIsNotNew(s, step);
  }

  lemma CountedAll(own: Option<nat>, seen: set<nat>)
    requires |seen| - (if own.Some? then 1 else 0) <= 0 && (own.Some? ==> own.value in seen)
    ensures forall id :: id in seen ==> Some(id) == own
  {
    if own.Some? {
      assert |seen - {own.value}| == |seen| - 1;
      assert seen - {own.value} == {};
    } else {
      assert seen == {};
    }
  }

  /** What a process finds out itself is true. */
  lemma FoundOwn(s: State, step: Step, q: nat)
    requires Inv(s) && Enabled(s, step) && q != step.p && !step.EndCount?
    ensures FoundOf(At(Apply(s, step), step.p), step.p, At(s, q), q)
  {
    var p := step.p;
    assert FoundOf(At(s, p), p, At(s, q), q);
    if Lease(At(s, q)).Some? {
      assert HeldBy(s, Lease(At(s, q)).value, Run(q)) by { assert Wanted(At(s, q), q).Some?; }
      assert File(At(s, q)).Some?;
    }
  }

  /** Who has counted no lease but its own is alone. */
  lemma FoundAlone(s: State, step: Step, q: nat)
    requires Inv(s) && Enabled(s, step) && q != step.p && step.EndCount?
    ensures FoundOf(At(Apply(s, step), step.p), step.p, At(s, q), q)
  {
    var p, pc := step.p, At(s, step.p);
    assert FoundOf(pc, p, At(s, q), q) && FoundOf(pc, p, pc, p);
    assert Id(At(s, q)).Some? ==> Id(At(s, q)) != Id(pc);
    if |pc.seen| - (if pc.own.Some? then 1 else 0) <= 0 { CountedAll(pc.own, pc.seen); }
  }

  predicate IsSwap(step: Step)
  {
    match step case StartSwap(_) | Count(_, _) | EndCount(_) | EndMove(_) => true case _ => false
  }

  lemma FoundItself(s: State, step: Step)
    requires Inv(s) && Enabled(s, step) && IsSwap(step)
    ensures FoundOf(At(Apply(s, step), step.p), step.p, At(Apply(s, step), step.p), step.p)
  {
    var p := step.p;
    assert FoundOf(At(s, p), p, At(s, p), p);
    if Lease(At(s, p)).Some? {
      assert Wanted(At(s, p), p).Some? && HeldBy(s, Lease(At(s, p)).value, Run(p));
      assert File(At(s, p)).Some?;
    }
  }

  /** Other steps leave a process without a lease, or without anything it has found out. */
  lemma NothingToFind(s: State, step: Step)
    requires Enabled(s, step) && !IsSwap(step)
    ensures FoundOf(At(Apply(s, step), step.p), step.p, At(Apply(s, step), step.p), step.p)
  {
  }

  lemma FoundStep(s: State, step: Step)
    requires Inv(s) && Enabled(s, step)
    ensures Found(Apply(s, step))
  {
    var s' := Apply(s, step);
    OnlyOne(s, step);
    forall p: nat, q: nat ensures FoundOf(At(s', p), p, At(s', q), q) {
      assert FoundOf(At(s, p), p, At(s, q), q);
      if p == step.p && q == step.p {
        if IsSwap(step) { FoundItself(s, step); } else { NothingToFind(s, step); }
      } else if p == step.p {
        if step.EndCount? { FoundAlone(s, step, q); } else { FoundOwn(s, step, q); }
      } else if q == step.p {
        FoundOther(s, step, p);
      }
    }
  }

  lemma StepInv(s: State, step: Step)
    requires Inv(s) && Enabled(s, step)
    ensures Inv(Apply(s, step))
  {
    GateStep(s, step);
    LocksStep(s, step);
    UsedStep(s, step);
    FilesStep(s, step);
    FoundStep(s, step);
  }

  // ----- whole runs -----

  ghost predicate IsRun(states: seq<State>, steps: seq<Step>)
  {
    && |states| == |steps| + 1 && states[0] == START
    && forall k :: 0 <= k < |steps| ==> IsStep(states, steps, k)
  }

  ghost predicate IsStep(states: seq<State>, steps: seq<Step>, k: nat)
    requires k < |steps| && |states| == |steps| + 1
  {
    Enabled(states[k], steps[k]) && states[k + 1] == Apply(states[k], steps[k])
  }

  lemma {:induction false} RunInv(states: seq<State>, steps: seq<Step>, k: nat)
    requires IsRun(states, steps) && k < |states|
    ensures Inv(states[k])
    decreases k
  {
    if k == 0 {
      StartInv();
    } else {
      RunInv(states, steps, k - 1);
      assert IsStep(states, steps, k - 1);
      StepInv(states[k - 1], steps[k - 1]);
    }
  }

  /** While one process is in the body of a barrier, no process holds the lease of a run, in its body or not,
      and no other is in a barrier, sweeps, counts or moves. */
  lemma RunsAndBarriersExclude(states: seq<State>, steps: seq<Step>, k: nat, p: nat, q: nat)
    requires IsRun(states, steps) && k < |states|
    requires At(states[k], p).Barrier?
    ensures Lease(At(states[k], q)).None? && (q != p ==> !HasGate(At(states[k], q)))
  {
    RunInv(states, steps, k);
    assert FoundOf(At(states[k], p), p, At(states[k], q), q);
    assert HasGate(At(states[k], p)) <==> states[k].gate == Some(p);
    assert HasGate(At(states[k], q)) <==> states[k].gate == Some(q);
  }

  /** The runtime is moved aside only while no other process holds the lease of a run. */
  lemma MovedAsideAlone(states: seq<State>, steps: seq<Step>, k: nat, p: nat, q: nat)
    requires IsRun(states, steps) && k < |states| && At(states[k], p).Moving? && p != q
    ensures Lease(At(states[k], q)).None?
  {
    RunInv(states, steps, k);
    assert FoundOf(At(states[k], p), p, At(states[k], q), q);
  }

  /** No step, the sweep's or any other, deletes the lease file of a run that holds it. */
  lemma HeldFileIsNeverDeleted(states: seq<State>, steps: seq<Step>, k: nat, id: nat)
    requires IsRun(states, steps) && k < |steps|
    requires id in states[k].files && id in states[k].locks && states[k].locks[id].Run?
    ensures id in states[k + 1].files
  {
    RunInv(states, steps, k);
    assert IsStep(states, steps, k);
    var s := states[k];
    var q := s.locks[id].p;
    assert Wanted(At(s, q), q) == Some((id, s.locks[id]));
    FileSurvives(s, steps[k], q);
  }

  /** A process that looks at a lease from outside the gate can make a start or a barrier fail, never
      succeed: the lease of a run is counted as held however many look at it. */
  lemma RunningIsAlwaysSeen(states: seq<State>, steps: seq<Step>, k: nat, q: nat)
    requires IsRun(states, steps) && k < |states| && At(states[k], q).Running?
    ensures HeldBy(states[k], At(states[k], q).id, Run(q)) && At(states[k], q).id in states[k].files
  {
    RunInv(states, steps, k);
    assert Wanted(At(states[k], q), q).Some? && File(At(states[k], q)).Some?;
  }

  // ----- after a crash -----

  /** Nobody has or will ever again have `id` as the id of its run. */
  ghost predicate Over(s: State, id: nat)
  {
    id in s.used && forall q: nat :: Id(At(s, q)) != Some(id)
  }

  lemma OverStep(s: State, step: Step, id: nat)
    requires Enabled(s, step) && Over(s, id)
    ensures Over(Apply(s, step), id)
  {
    forall q: nat ensures Id(At(Apply(s, step), q)) != Some(id) {
      assert Id(At(s, q)) != Some(id) && Id(At(s, step.p)) != Some(id);
    }
  }

  /** When a process crashes in the middle of a run, at whatever point, its lease is over: from then on no
      process ever holds it as a run, so who finds it locked has met someone who is only looking. */
  lemma {:induction false} CrashedLeaseIsOver(states: seq<State>, steps: seq<Step>, k: nat, j: nat, id: nat)
    requires IsRun(states, steps) && k < |steps| && steps[k].Crash? && Id(At(states[k], steps[k].p)) == Some(id)
    requires k < j < |states|
    ensures Over(states[j], id) && (id in states[j].locks ==> states[j].locks[id].Looker?)
    decreases j
  {
    assert IsStep(states, steps, j - 1);
    if j == k + 1 {
      RunInv(states, steps, k);
      var p := steps[k].p;
      assert id in states[k].used;
      forall q: nat ensures Id(At(states[j], q)) != Some(id) {
        assert q != p ==> Id(At(states[k], p)) != Id(At(states[k], q));
      }
    } else {
      CrashedLeaseIsOver(states, steps, k, j - 1, id);
      OverStep(states[j - 1], steps[j - 1], id);
    }
    RunInv(states, steps, j);
  }

  /** `to` is reached from `from` by these steps. */
  predicate Leads(from: State, steps: seq<Step>, to: State)
    decreases |steps|
  {
    if steps == [] then from == to else Enabled(from, steps[0]) && Leads(Apply(from, steps[0]), steps[1..], to)
  }

  /** Lease files that nobody holds, as crashed runs leave them, keep no barrier out: a process that finds the
      gate free gets in, on its own, and sweeps them all away. */
  lemma BarrierGetsIn(s: State, p: nat) returns (steps: seq<Step>, to: State)
    requires At(s, p).Idle? && s.gate.None? && s.locks == map[]
    ensures Leads(s, steps, to) && (forall k :: 0 <= k < |steps| ==> steps[k].p == p)
    ensures At(to, p).Barrier? && to.files == {}
  {
    var s1 := Apply(s, StartBarrier(p));
    steps, to := SweepAll(s1, p, s.files);
    assert ([StartBarrier(p)] + steps)[1..] == steps;
    steps := [StartBarrier(p)] + steps;
  }

  lemma {:induction false} SweepAll(s: State, p: nat, todo: set<nat>) returns (steps: seq<Step>, to: State)
    requires At(s, p) == Sweeping(todo, false, None) && s.locks == map[] && s.files <= todo
    ensures Leads(s, steps, to) && (forall k :: 0 <= k < |steps| ==> steps[k].p == p)
    ensures At(to, p).Barrier? && to.files == {}
    decreases |todo|
  {
    if todo == {} {
      steps, to := [EndSweep(p)], Apply(s, EndSweep(p));
      assert steps[1..] == [] && Leads(to, [], to);
    } else {
      var id :| id in todo;
      var s1 := Apply(s, Sweep(p, id));
      var s2 := Apply(s1, UnlinkStale(p));
      steps, to := SweepAll(s2, p, todo - {id});
      assert ([UnlinkStale(p)] + steps)[1..] == steps;
      assert Leads(s1, [UnlinkStale(p)] + steps, to);
      assert ([Sweep(p, id)] + ([UnlinkStale(p)] + steps))[1..] == [UnlinkStale(p)] + steps;
      steps := [Sweep(p, id)] + ([UnlinkStale(p)] + steps);
    }
  }

  lemma LeadsOn(from: State, step: Step, steps: seq<Step>, to: State)
    requires Enabled(from, step) && Leads(Apply(from, step), steps, to)
    ensures Leads(from, [step] + steps, to)
  {
    assert ([step] + steps)[1..] == steps;
  }

  /** With the gate free a process that starts a run gets into its body, on its own, with a lease of its own. */
  lemma RunGetsIn(s: State, p: nat, id: nat) returns (steps: seq<Step>, to: State)
    requires At(s, p).Idle? && s.gate.None? && id !in s.used && id !in s.locks
    ensures Leads(s, steps, to) && (forall k :: 0 <= k < |steps| ==> steps[k].p == p)
    ensures At(to, p) == Running(id) && HeldBy(to, id, Run(p)) && to.files == s.files + {id} && to.gate.None?
  {
    var s1 := Apply(s, StartRun(p, id));
    var s2 := Apply(s1, EnterGate(p));
    var s3 := Apply(s2, OpenLease(p));
    var s4 := Apply(s3, TakeLease(p));
    to := Apply(s4, LeaveGate(p));
    assert Leads(to, [], to);
    LeadsOn(s4, LeaveGate(p), [], to);
    LeadsOn(s3, TakeLease(p), [LeaveGate(p)], to);
    LeadsOn(s2, OpenLease(p), [TakeLease(p)] + [LeaveGate(p)], to);
    LeadsOn(s1, EnterGate(p), [OpenLease(p)] + ([TakeLease(p)] + [LeaveGate(p)]), to);
    steps := [StartRun(p, id)] + ([EnterGate(p)] + ([OpenLease(p)] + ([TakeLease(p)] + [LeaveGate(p)])));
    LeadsOn(s, StartRun(p, id), [EnterGate(p)] + ([OpenLease(p)] + ([TakeLease(p)] + [LeaveGate(p)])), to);
  }

  /** A run that ends with the gate free leaves no lease behind, neither lock nor file. */
  lemma RunGetsOut(s: State, p: nat) returns (steps: seq<Step>, to: State)
    requires At(s, p).Running? && s.gate.None?
    ensures Leads(s, steps, to) && (forall k :: 0 <= k < |steps| ==> steps[k].p == p)
    ensures At(to, p).Idle? && to.gate.None? && At(s, p).id !in to.locks && to.files == s.files - {At(s, p).id}
  {
    var s1 := Apply(s, EndRun(p));
    var s2 := Apply(s1, EnterGate(p));
    to := Apply(s2, Unlink(p));
    assert Leads(to, [], to);
    LeadsOn(s2, Unlink(p), [], to);
    LeadsOn(s1, EnterGate(p), [Unlink(p)], to);
    steps := [EndRun(p)] + ([EnterGate(p)] + [Unlink(p)]);
    LeadsOn(s, EndRun(p), [EnterGate(p)] + [Unlink(p)], to);
  }

  /** The runtime swap gets to move when the gate is free and no lease is held but, at most, its own. */
  lemma SwapGetsIn(s: State, p: nat) returns (steps: seq<Step>, to: State)
    requires s.gate.None? && (At(s, p).Idle? || At(s, p).Running?)
    requires forall id :: id in s.locks && id in s.files ==> At(s, p) == Running(id)
    ensures Leads(s, steps, to) && (forall k :: 0 <= k < |steps| ==> steps[k].p == p)
    ensures At(to, p).Moving? && to.files == s.files && to.locks == s.locks
  {
    var own := if At(s, p).Running? then Some(At(s, p).id) else None;
    var s1 := Apply(s, StartSwap(p));
    steps, to := CountAll(s1, p, own, s.files, {});
    LeadsOn(s, StartSwap(p), steps, to);
    steps := [StartSwap(p)] + steps;
  }

  lemma {:induction false} CountAll(s: State, p: nat, own: Option<nat>, todo: set<nat>, seen: set<nat>) returns (steps: seq<Step>, to: State)
    requires At(s, p) == Counting(own, todo, seen) && seen <= (if own.Some? then {own.value} else {})
    requires forall id :: id in s.locks && id in todo ==> own == Some(id)
    ensures Leads(s, steps, to) && (forall k :: 0 <= k < |steps| ==> steps[k].p == p)
    ensures At(to, p).Moving? && to.files == s.files && to.locks == s.locks
    decreases |todo|
  {
    if todo == {} {
      SubsetSize(seen, if own.Some? then {own.value} else {});
      steps, to := [EndCount(p)], Apply(s, EndCount(p));
      assert Leads(to, [], to);
      LeadsOn(s, EndCount(p), [], to);
    } else {
      var id :| id in todo;
      var s1 := Apply(s, Count(p, id));
      steps, to := CountAll(s1, p, own, todo - {id}, if id in s.locks then seen + {id} else seen);
      LeadsOn(s, Count(p, id), steps, to);
      steps := [Count(p, id)] + steps;
    }
  }
}
