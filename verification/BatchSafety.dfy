/** What the invariant of a batch says to a reader, for every state of every run. */
module BatchSafety {
  import opened Wrappers
  import opened BatchModel
  import opened BatchCounts
  import opened BatchInvariant
  import opened BatchRuns
  import opened BatchStatus
  import opened BatchLiveness
  import S = LlmScheduling

  // ----- conservation -----

  /** Every admitted item is in exactly one place, and nothing else is anywhere. */
  lemma OnePlaceEach(c: Config, items: seq<Item>, states: seq<State>, steps: seq<Step>, k: nat, i: nat)
    requires Sound(c) && IsRun(c, items, states, steps) && k < |states|
    ensures Places(c, states[k], i) == if i < |states[k].items| then 1 else 0
  {
    RunKeeps(c, items, states, steps, k);
  }

  /** `forwarded_to_asr` and `completed_items` are what they say: the items that are past the
      download bin, but for one that was lost, and the finished items no llm worker still has to count. */
  lemma CountersAreCounts(c: Config, items: seq<Item>, states: seq<State>, steps: seq<Step>, k: nat)
    requires Sound(c) && IsRun(c, items, states, steps) && k < |states|
    ensures var s := states[k];
            && s.forwarded == |s.items| - One(s.lost.Some?) - MessageTotal(PreForward, s.downloadQ) - Total(c, PreForward, s.threads)
            && s.completed == |s.sched.finished| - Total(c, Uncounted, s.threads)
  {
    RunKeeps(c, items, states, steps, k);
  }

  // ----- the scheduler's indices and priorities are the items' -----

  ghost predicate Agree(c: Config, s: State)
  {
    && |s.sched.priorities| == |s.sched.groups| <= |s.items|
    && (forall i :: 0 <= i < |s.sched.priorities| ==>
          (KeeperPc(c, s).Rerank? && KeeperPc(c, s).index == i) || s.sched.priorities[i] == s.items[i].priority)
    && (KeeperPc(c, s).Rerank? && KeeperPc(c, s).index < |s.items| ==>
          KeeperPc(c, s).priority == s.items[KeeperPc(c, s).index].priority)
  }

  predicate ChangesBook(step: Step)
  {
    match step
    case Admit(_, _) | RegisterItem(_) | Reprioritise(_, _, _) | TellScheduler(_) => true
    case _ => false
  }

  /** Items and the scheduler's lists are as they were. */
  predicate SameBook(s: State, s': State)
  {
    s'.items == s.items && s'.sched.groups == s.sched.groups && s'.sched.priorities == s.sched.priorities
  }

  /** Items and the scheduler's lists are as they were; thread `t` is not amid a new priority. */
  ghost predicate BookKept(c: Config, s: State, s': State, t: nat)
  {
    && OnlyMoves(s, s', t) && !s.threads[t].pc.Rerank? && !s'.threads[t].pc.Rerank?
    && SameBook(s, s')
  }

  lemma DownloadKeepsBook(c: Config, s: State, step: Step)
    requires Enabled(c, s, step) && !ChangesBook(step) && IsDownloadNeutral(step)
    ensures BookKept(c, s, Apply(c, s, step), step.t)
  {
    match step
    case TakeDownload(t) => assert BookKept(c, s, DoTakeDownload(c, s, t), t);
    case DrawEntry(t) => assert BookKept(c, s, DoDrawEntry(c, s, t), t);
    case PutEntry(t) => assert BookKept(c, s, DoPutEntry(c, s, t), t);
    case BlockOnPut(t) => assert BookKept(c, s, DoBlockOnPut(c, s, t), t);
    case _ =>
  }

  lemma MarkerKeepsBook(c: Config, s: State, step: Step)
    requires Enabled(c, s, step) && !ChangesBook(step) && IsMarkerNeutral(step)
    ensures BookKept(c, s, Apply(c, s, step), step.t)
  {
    match step
    case CountForwarded(t) => assert BookKept(c, s, DoCountForwarded(c, s, t), t);
    case DrawSentinel(t) => assert BookKept(c, s, DoDrawSentinel(c, s, t), t);
    case SendDone(t) => assert BookKept(c, s, DoSendDone(c, s, t), t);
    case _ =>
  }

  lemma WorkerKeepsBook(c: Config, s: State, step: Step)
    requires Enabled(c, s, step) && !ChangesBook(step) && IsWorkerNeutral(step)
    ensures BookKept(c, s, Apply(c, s, step), step.t)
  {
    match step
    case TakeAsr(t, j) => assert BookKept(c, s, DoTakeAsr(c, s, t, j), t);
    case SubmitReady(t, cost) => assert BookKept(c, s, DoSubmitReady(c, s, t, cost), t);
    case Dispatch(t, i) => assert BookKept(c, s, DoDispatch(c, s, t, i), t);
    case LeaveLlm(t) => assert BookKept(c, s, DoLeaveLlm(c, s, t), t);
    case CountCompleted(t) => assert BookKept(c, s, DoCountCompleted(c, s, t), t);
    case _ =>
  }

  lemma ActionKeepsBook(c: Config, s: State, step: Step)
    requires Enabled(c, s, step) && !ChangesBook(step) && IsActionNeutral(step)
    ensures BookKept(c, s, Apply(c, s, step), step.t)
  {
    match step
    case Enqueue(t) => assert BookKept(c, s, DoEnqueue(c, s, t), t);
    case BeginDrop(t, i) => assert BookKept(c, s, DoBeginDrop(c, s, t, i), t);
    case _ =>
  }

  lemma RekeyKeepsBook(c: Config, s: State, step: Step)
    requires Enabled(c, s, step) && !ChangesBook(step) && IsRekeyNeutral(step)
    ensures BookKept(c, s, Apply(c, s, step), step.t)
  {
    match step
    case LockForRekey(t) => assert BookKept(c, s, DoLockForRekey(c, s, t), t);
    case DrainOne(t, j) => assert BookKept(c, s, DoDrainOne(c, s, t, j), t);
    case RefillOne(t) => assert BookKept(c, s, DoRefillOne(c, s, t), t);
    case EndRekey(t) => assert BookKept(c, s, DoEndRekey(c, s, t), t);
    case _ =>
  }

  lemma ClosingKeepsBook(c: Config, s: State, step: Step)
    requires Enabled(c, s, step) && !ChangesBook(step) && IsClosingNeutral(step)
    ensures BookKept(c, s, Apply(c, s, step), step.t)
  {
    match step
    case CloseIntake(t, reason) => assert BookKept(c, s, DoCloseIntake(c, s, t, reason), t);
    case HaltOne(t) => assert BookKept(c, s, DoHaltOne(c, s, t), t);
    case CloseScheduler(t) => assert BookKept(c, s, DoCloseScheduler(c, s, t), t);
    case _ =>
  }

  lemma StageRecordKeepsBook(c: Config, s: State, step: Step)
    requires Enabled(c, s, step) && IsStageRecord(step)
    ensures BookKept(c, s, Apply(c, s, step), step.t)
  {
    match step
    case ClaimStage(t) => assert BookKept(c, s, DoClaimStage(c, s, t), t);
    case StageSucceeds(t) => assert BookKept(c, s, DoStageSucceeds(c, s, t), t);
    case StageFails(t) => assert BookKept(c, s, DoStageFails(c, s, t), t);
    case ClearStage(t) => assert BookKept(c, s, DoClearStage(c, s, t), t);
    case _ =>
  }

  lemma VerdictRecordKeepsBook(c: Config, s: State, step: Step)
    requires Enabled(c, s, step) && IsVerdictRecord(step)
    ensures BookKept(c, s, Apply(c, s, step), step.t)
  {
    match step
    case FinishLlm(t) => assert BookKept(c, s, DoFinishLlm(c, s, t), t);
    case ReadVerdict(t) => assert BookKept(c, s, DoReadVerdict(c, s, t), t);
    case WriteDone(t) => assert BookKept(c, s, DoWriteDone(c, s, t), t);
    case DropReads(t) => assert BookKept(c, s, DoDropReads(c, s, t), t);
    case DropWrites(t) => assert BookKept(c, s, DoDropWrites(c, s, t), t);
    case _ =>
  }

  /** Items and the scheduler's lists are as they were, and so is a new priority under way. */
  ghost predicate BookSame(c: Config, s: State, s': State)
  {
    && SameBook(s, s')
    && (KeeperPc(c, s').Rerank? || KeeperPc(c, s).Rerank? ==> KeeperPc(c, s') == KeeperPc(c, s))
  }

  lemma KeptIsSame(c: Config, s: State, s': State, t: nat)
    requires BookKept(c, s, s', t)
    ensures BookSame(c, s, s')
  {
  }

  lemma NeutralKeepsBook(c: Config, s: State, step: Step)
    requires Enabled(c, s, step) && !ChangesBook(step) && IsNeutral(step)
    ensures BookKept(c, s, Apply(c, s, step), step.t)
  {
    if IsDownloadNeutral(step) {
      DownloadKeepsBook(c, s, step);
    } else if IsMarkerNeutral(step) {
      MarkerKeepsBook(c, s, step);
    } else if IsWorkerNeutral(step) {
      WorkerKeepsBook(c, s, step);
    } else if IsActionNeutral(step) {
      ActionKeepsBook(c, s, step);
    } else if IsRekeyNeutral(step) {
      RekeyKeepsBook(c, s, step);
    } else {
      ClosingKeepsBook(c, s, step);
    }
  }

  /** No step but those of an admission or a new priority touches items, groups or priorities, or
      moves the intake thread to or from a new priority. */
  lemma BookUntouched(c: Config, s: State, step: Step)
    requires Enabled(c, s, step) && !ChangesBook(step)
    ensures BookSame(c, s, Apply(c, s, step))
  {
    if IsNeutral(step) {
      NeutralKeepsBook(c, s, step);
      KeptIsSame(c, s, Apply(c, s, step), step.t);
    } else if IsStageRecord(step) {
      StageRecordKeepsBook(c, s, step);
      KeptIsSame(c, s, Apply(c, s, step), step.t);
    } else if IsVerdictRecord(step) {
      VerdictRecordKeepsBook(c, s, step);
      KeptIsSame(c, s, Apply(c, s, step), step.t);
    }
  }

  lemma BookSteps(c: Config, s: State, step: Step)
    requires Shape(c, s) && Scheduled(c, s) && Agree(c, s) && Enabled(c, s, step) && ChangesBook(step)
    ensures Agree(c, Apply(c, s, step))
  {
    KeeperIs(c, s, step.t);
    match step
    case Admit(t, item) => assert Agree(c, DoAdmit(c, s, t, item));
    case RegisterItem(t) => assert Agree(c, DoRegisterItem(c, s, t));
    case Reprioritise(t, i, p) => assert Agree(c, DoReprioritise(c, s, t, i, p));
    case TellScheduler(t) => assert Agree(c, DoTellScheduler(c, s, t));
    case _ =>
  }

  lemma {:induction false} RunAgrees(c: Config, items: seq<Item>, states: seq<State>, steps: seq<Step>, k: nat)
    requires Sound(c) && IsRun(c, items, states, steps) && k < |states|
    ensures Agree(c, states[k])
    decreases k
  {
    if k > 0 {
      var s, step := states[k - 1], steps[k - 1];
      RunAgrees(c, items, states, steps, k - 1);
      RunKeeps(c, items, states, steps, k - 1);
      if ChangesBook(step) {
        BookSteps(c, s, step);
      } else {
        BookUntouched(c, s, step);
      }
    }
  }

  /** Scheduler indices coincide with item indices: groups and priorities are those of the items,
      except for the item being admitted or given a new priority at this moment. */
  lemma SchedulerMatchesItems(c: Config, items: seq<Item>, states: seq<State>, steps: seq<Step>, k: nat, i: nat)
    requires Sound(c) && IsRun(c, items, states, steps) && k < |states| && i < |states[k].items|
    requires KeeperPc(c, states[k]) != Admitted(i)
    ensures var s := states[k];
      && i < |s.sched.groups| == |s.sched.priorities|
      && s.sched.groups[i] == S.GroupKey(s.items[i].group, i)
      && (s.sched.priorities[i] == s.items[i].priority
          || KeeperPc(c, s) == Rerank(i, s.items[i].priority))
  {
    RunKeeps(c, items, states, steps, k);
    RunAgrees(c, items, states, steps, k);
  }

  // ----- the stop markers -----

  /** Until they are announced there is no asr stop marker; from then on there is exactly one for
      each asr worker, be it still to send, queued or used up by a worker that has left. */
  lemma OneMarkerEach(c: Config, items: seq<Item>, states: seq<State>, steps: seq<Step>, k: nat)
    requires Sound(c) && IsRun(c, items, states, steps) && k < |states|
    ensures var s := states[k];
            s.boot + EntryTotal(Markers, s.asrQ) + Total(c, Markers, s.threads)
            == if Announced(c, s) then c.asrs else 0
    ensures states[k].sentinelsSent ==> states[k].intakeClosed && states[k].forwarded == |states[k].items|
  {
    RunKeeps(c, items, states, steps, k);
  }

  /** Once the markers are announced no item is added, and they stay announced. */
  lemma AnnouncedForGood(c: Config, s: State, step: Step)
    requires Invariant(c, s) && Enabled(c, s, step) && Announced(c, s)
    ensures Announced(c, Apply(c, s, step)) && Apply(c, s, step).items == s.items
  {
    if ChangesBook(step) {
      KeeperIs(c, s, step.t);
      assert false;
    } else {
      BookUntouched(c, s, step);
    }
    ClosedStays(c, s, step);
  }

  /** A worker that takes a stop marker leaves nothing behind it: no item is queued for asr, none
      is in a rekeying hand, and none is still to come. */
  lemma MarkerComesLast(c: Config, items: seq<Item>, states: seq<State>, steps: seq<Step>, k: nat)
    requires Sound(c) && IsRun(c, items, states, steps) && k < |steps|
    requires steps[k].TakeAsr? && states[k].asrQ[steps[k].j].index.None?
    ensures var s := states[k];
      && EntryTotal(Reals, s.asrQ) == 0 && HandOf(KeeperPc(c, s)) == []
      && MessageTotal(PreForward, s.downloadQ) == 0 && Total(c, PreForward, s.threads) == 0
      && s.intakeClosed && s.forwarded == |s.items|
  {
    var s, j := states[k], steps[k].j;
    assert CanTakeAsr(c, s, steps[k].t, j);
    RunKeeps(c, items, states, steps, k);
    MarkerAtHead(s.asrQ, j);
    EntryMember(Markers, s.asrQ, j);
    assert Announced(c, s);
    if c.growing && !s.intakeClosed { NoMarkersWhileOpen(c, s); }
  }

  /** No stop marker exists anywhere while priorities are being rewritten, and the hand fits back. */
  lemma RekeyIsSafe(c: Config, items: seq<Item>, states: seq<State>, steps: seq<Step>, k: nat)
    requires Sound(c) && IsRun(c, items, states, steps) && k < |states|
    requires KeeperPc(c, states[k]).Rerank? || KeeperPc(c, states[k]).RekeyWait? || KeeperPc(c, states[k]).Drain?
             || KeeperPc(c, states[k]).Refill?
    ensures var s := states[k];
      && EntryTotal(Markers, s.asrQ) == 0 && EntryTotal(Markers, HandOf(KeeperPc(c, s))) == 0
      && (KeeperPc(c, s).Drain? || KeeperPc(c, s).Refill? ==> s.asrOwner == Some(Keeper(c)))
      && (HandOf(KeeperPc(c, s)) != [] ==> |s.asrQ| < c.capacity)
  {
    var s := states[k];
    RunKeeps(c, items, states, steps, k);
    assert Placed(c, s, Keeper(c));
    NoMarkersWhileOpen(c, s);
    TotalMember(c, Markers, s.threads, Keeper(c));
  }

  // ----- the end -----

  lemma AllFinished(c: Config, s: State, i: nat)
    requires Conserved(c, s) && |s.sched.finished| >= |s.items| && i < |s.items|
    ensures i in s.sched.finished
  {
    forall j | j in s.sched.finished ensures j in Below(|s.items|) { assert Places(c, s, j) == One(j < |s.items|); }
    assert s.sched.finished <= Below(|s.items|);
    Full(s.sched.finished, |s.items|, i);
  }

  /** Nobody is between `scheduler.finished` and the count: every finished item has a verdict. */
  lemma FinishedIsJudged(c: Config, s: State, i: nat)
    requires StatusOk(c, s) && Total(c, Uncounted, s.threads) == 0 && i < |s.results| && i in s.sched.finished
    ensures s.results[i].status != Pending
  {
    assert ItemOk(c, s, i);
    if s.results[i].status == Pending {
      var t := TotalWitness(c, Settling(i), s.threads);
      TotalMember(c, Uncounted, s.threads, t);
    }
  }

  /** The intake closes a drained batch only when every item is finished and has a verdict. */
  lemma DrainedMeansOver(c: Config, items: seq<Item>, states: seq<State>, steps: seq<Step>, k: nat, i: nat)
    requires Sound(c) && IsRun(c, items, states, steps) && k < |states|
    requires states[k].completed == |states[k].items| && i < |states[k].items|
    ensures i < |states[k].results| && i in states[k].sched.finished && states[k].results[i].status != Pending
  {
    RunKeeps(c, items, states, steps, k);
    RunStatus(c, items, states, steps, k);
    FinishedBounded(c, states[k]);
    AllFinished(c, states[k], i);
    FinishedIsJudged(c, states[k], i);
  }

  /** The intake takes a batch for drained at no other moment. */
  lemma DrainedIsOver(c: Config, items: seq<Item>, states: seq<State>, steps: seq<Step>, k: nat, i: nat)
    requires Sound(c) && IsRun(c, items, states, steps) && k < |steps| && steps[k].CloseIntake? && steps[k].reason.Drained?
    requires i < |states[k].items|
    ensures i < |states[k].results| && i in states[k].sched.finished && states[k].results[i].status != Pending
  {
    assert CanCloseIntake(c, states[k], steps[k].t, steps[k].reason);
    DrainedMeansOver(c, items, states, steps, k, i);
  }

  lemma FinishedBounded(c: Config, s: State)
    requires Conserved(c, s) && Counters(c, s) && s.completed == |s.items|
    ensures |s.sched.finished| >= |s.items| && Total(c, Uncounted, s.threads) == 0
  {
    forall j | j in s.sched.finished ensures j in Below(|s.items|) { assert Places(c, s, j) == One(j < |s.items|); }
    SubsetSize(s.sched.finished, Below(|s.items|));
  }

  /** When every thread has left, every item has a verdict. */
  lemma EndedMeansJudged(c: Config, s: State, i: nat)
    requires Invariant(c, s) && StatusOk(c, s) && Ended(c, s) && i < |s.results|
    ensures s.results[i].status != Pending && s.results[i].stage.None?
  {
    assert ItemOk(c, s, i);
    forall t | 0 <= t < |s.threads|
      ensures Weight(c, Settling(i), s.threads[t]) == 0 && Weight(c, InStage(i), s.threads[t]) == 0
    {
      assert s.threads[t].pc.Exited?;
    }
    TotalZero(c, Settling(i), s.threads);
    TotalZero(c, InStage(i), s.threads);
  }

  /** A run that cannot be continued, but by an interrupt, once the intake is closed: it has ended, with every
      item judged, exactly when no item was lost. */
  lemma StuckMeansEnded(c: Config, items: seq<Item>, states: seq<State>, steps: seq<Step>)
    requires Sound(c) && IsRun(c, items, states, steps)
    requires states[|steps|].intakeClosed && (states[|steps|].boot == 0 || c.asrs <= c.capacity)
    requires forall step :: Enabled(c, states[|steps|], step) ==> step == Stop
    ensures Ended(c, states[|steps|]) <==> states[|steps|].lost.None?
    ensures Ended(c, states[|steps|]) ==> forall r :: r in states[|steps|].results ==> r.status != Pending && r.stage.None?
  {
    var s := states[|steps|];
    RunKeeps(c, items, states, steps, |steps|);
    RunStatus(c, items, states, steps, |steps|);
    var step := NoDeadlock(c, s);
    if s.lost.Some? { LostNeverEnds(c, s); }
    forall r | r in s.results && Ended(c, s) ensures r.status != Pending && r.stage.None? {
      var i :| 0 <= i < |s.results| && s.results[i] == r;
      EndedMeansJudged(c, s, i);
    }
  }

  /** The intake thread dies while it admits an item: after the scheduler has it, before it is queued. */
  predicate DiesAdmitting(s: State, step: Step)
  {
    step.CloseIntake? && step.t < |s.threads| && s.threads[step.t].pc.Registered?
  }

  lemma LossStep(c: Config, s: State, step: Step)
    requires Enabled(c, s, step)
    ensures Apply(c, s, step).lost.Some? <==> s.lost.Some? || DiesAdmitting(s, step)
  {
    if !step.CloseIntake? { OtherFlags(c, s, step); }
  }

  /** An item is lost exactly on the runs on which that has happened. */
  lemma {:induction false} LostIff(c: Config, items: seq<Item>, states: seq<State>, steps: seq<Step>, k: nat)
    requires IsRun(c, items, states, steps) && k < |states|
    ensures states[k].lost.Some? <==> exists j :: 0 <= j < k && DiesAdmitting(states[j], steps[j])
    decreases k
  {
    if k > 0 {
      LostIff(c, items, states, steps, k - 1);
      LossStep(c, states[k - 1], steps[k - 1]);
    }
  }

  /** Whatever happens, a batch that cannot go on has ended, unless its intake thread died while it admitted
      an item; then it never does. */
  lemma EndsUnlessItDies(c: Config, items: seq<Item>, states: seq<State>, steps: seq<Step>)
    requires Sound(c) && IsRun(c, items, states, steps)
    requires states[|steps|].intakeClosed && (states[|steps|].boot == 0 || c.asrs <= c.capacity)
    requires forall step :: Enabled(c, states[|steps|], step) ==> step == Stop
    ensures Ended(c, states[|steps|]) <==> forall j :: 0 <= j < |steps| ==> !DiesAdmitting(states[j], steps[j])
  {
    StuckMeansEnded(c, items, states, steps);
    LostIff(c, items, states, steps, |steps|);
  }

  // ----- the batch that was given nothing -----

  ghost predicate Starts(c: Config)
  {
    exists states: seq<State>, steps: seq<Step> :: IsRun(c, [], states, steps) && states[|steps|].boot == 0
  }

  /** Before its threads start an empty batch can only put markers, or be interrupted. */
  lemma {:induction false} Booting(c: Config, states: seq<State>, steps: seq<Step>, k: nat)
    requires !c.growing && c.asrs > c.capacity && IsRun(c, [], states, steps) && k < |states|
    ensures states[k].boot + |states[k].asrQ| == c.asrs && |states[k].asrQ| <= c.capacity
    decreases k
  {
    if k > 0 {
      Booting(c, states, steps, k - 1);
      assert Enabled(c, states[k - 1], steps[k - 1]);
      BootOnly(c, states[k - 1], steps[k - 1]);
    }
  }

  lemma BootOnly(c: Config, s: State, step: Step)
    requires s.boot > 0 && Enabled(c, s, step)
    ensures step.Boot? || step.Stop?
  {
  }

  lemma {:induction false} BootAll(c: Config, n: nat) returns (states: seq<State>, steps: seq<Step>)
    requires !c.growing && n <= c.asrs <= c.capacity
    ensures IsRun(c, [], states, steps) && states[|steps|].boot == c.asrs - n && |states[|steps|].asrQ| == n
  {
    if n == 0 {
      states, steps := [Init(c, [])], [];
    } else {
      states, steps := BootAll(c, n - 1);
      var s := states[|steps|];
      assert Enabled(c, s, Boot);
      states, steps := states + [DoBoot(c, s)], steps + [Boot];
    }
  }

  /** A batch without items and without intake gets its threads started exactly when the stop
      markers fit into the asr queue. */
  lemma EmptyBatchStarts(c: Config)
    requires Sound(c) && !c.growing
    ensures Starts(c) <==> c.asrs <= c.capacity
  {
    if c.asrs <= c.capacity {
      var states, steps := BootAll(c, c.asrs);
    } else if Starts(c) {
      var states: seq<State>, steps: seq<Step> :| IsRun(c, [], states, steps) && states[|steps|].boot == 0;
      Booting(c, states, steps, |steps|);
      assert false;
    }
  }
}
