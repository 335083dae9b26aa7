/** Which verdicts are final. A thread about to write one has read what it needs some steps before;
    that stays true over all steps of the others but the races with a drop. */
module BatchVerdict {
  import opened Wrappers
  import opened BatchModel
  import opened BatchCounts
  import opened BatchInvariant
  import opened BatchRuns
  import opened BatchStatus
  import S = LlmScheduling

  /** Llm workers that hold item `i` have not yet entered its stage. */
  ghost predicate LlmUntouched(s: State, i: nat)
  {
    forall t :: 0 <= t < |s.threads| && s.threads[t].role.LlmWorker? ==> !PastClaim(s.threads[t].pc, i)
  }

  predicate PastClaim(pc: Pc, i: nat)
  {
    (pc.Run? || pc.Failing? || pc.AfterStage?) && pc.index == i
  }

  predicate DropAsks(pc: Pc, i: nat)
  {
    (pc.DropStage? || pc.DropDispatch?) && pc.index == i
  }

  predicate DropAnswers(pc: Pc, i: nat)
  {
    pc.DropWrite? && pc.index == i
  }

  /** What the threads about to write a verdict on item `i` have read is still true. */
  ghost predicate RaceFree(c: Config, s: State, i: nat)
    requires i < |s.results|
  {
    && (DropAsks(KeeperPc(c, s), i) ==> s.results[i].status == Pending || i in s.sched.dispatched)
    && (DropAnswers(KeeperPc(c, s), i) ==>
          s.results[i].status == Pending && i !in s.sched.finished && LlmUntouched(s, i))
    && (forall t :: 0 <= t < |s.threads| && s.threads[t].pc == MarkDone(i) ==> s.results[i].status == Pending)
  }

  /** A step of the intake thread, or an interrupt. */
  predicate KeeperMoves(c: Config, step: Step)
  {
    step.Stop? || (HasSubject(step) && step.t == Keeper(c))
  }

  /** The step does not come between a drop's reads and its writes, or item `i` is not yet there,
      or it has nothing but an llm stage. */
  predicate Undisturbed(c: Config, s: State, step: Step, i: nat)
  {
    i < |s.items| ==> !ForwardHeld(c, s) || KeeperMoves(c, step) || s.items[i].stages == {Llm}
  }

  /** `s'` leaves the verdict on `i` alone and brings no thread nearer to writing one. */
  ghost predicate Aloof(c: Config, s: State, s': State, t: nat, i: nat)
    requires i < |s.results| <= |s'.results|
  {
    && OnlyMoves(s, s', t) && s'.threads[t].role == s.threads[t].role
    && s'.results[i].status == s.results[i].status
    && s.sched.dispatched <= s'.sched.dispatched
    && (i in s'.sched.finished ==> i in s.sched.finished)
    && s'.threads[t].pc != MarkDone(i)
    && !DropAsks(s'.threads[t].pc, i) && !DropAnswers(s'.threads[t].pc, i)
    && (s'.threads[t].role.LlmWorker? ==> !PastClaim(s'.threads[t].pc, i))
  }

  lemma AloofKeeps(c: Config, s: State, s': State, t: nat, i: nat)
    requires i < |s.results| <= |s'.results| && RaceFree(c, s, i) && Aloof(c, s, s', t, i)
    ensures RaceFree(c, s', i)
  {
    assert forall u :: 0 <= u < |s.threads| && u != t ==> s'.threads[u] == s.threads[u];
  }

  lemma DownloadAloof(c: Config, s: State, step: Step, i: nat)
    requires Enabled(c, s, step) && IsDownloadNeutral(step) && i < |s.results|
    ensures Aloof(c, s, Apply(c, s, step), step.t, i)
  {
    match step
    case TakeDownload(t) => assert Aloof(c, s, DoTakeDownload(c, s, t), t, i);
    case DrawEntry(t) => assert Aloof(c, s, DoDrawEntry(c, s, t), t, i);
    case PutEntry(t) => assert Aloof(c, s, DoPutEntry(c, s, t), t, i);
    case BlockOnPut(t) => assert Aloof(c, s, DoBlockOnPut(c, s, t), t, i);
    case _ =>
  }

  lemma MarkerAloof(c: Config, s: State, step: Step, i: nat)
    requires Enabled(c, s, step) && IsMarkerNeutral(step) && i < |s.results|
    ensures Aloof(c, s, Apply(c, s, step), step.t, i)
  {
    match step
    case CountForwarded(t) => assert Aloof(c, s, DoCountForwarded(c, s, t), t, i);
    case DrawSentinel(t) => assert Aloof(c, s, DoDrawSentinel(c, s, t), t, i);
    case SendDone(t) => assert Aloof(c, s, DoSendDone(c, s, t), t, i);
    case _ =>
  }

  lemma DispatchAloof(c: Config, s: State, t: nat, k: nat, i: nat)
    requires CanDispatch(c, s, t, k) && i < |s.results|
    ensures Aloof(c, s, DoDispatch(c, s, t, k), t, i)
  {
  }

  lemma SubmitReadyAloof(c: Config, s: State, t: nat, cost: real, i: nat)
    requires CanSubmitReady(c, s, t, cost) && i < |s.results|
    ensures Aloof(c, s, DoSubmitReady(c, s, t, cost), t, i)
  {
  }

  lemma WorkerAloof(c: Config, s: State, step: Step, i: nat)
    requires Enabled(c, s, step) && IsWorkerNeutral(step) && i < |s.results|
    ensures Aloof(c, s, Apply(c, s, step), step.t, i)
  {
    match step
    case TakeAsr(t, j) => assert Aloof(c, s, DoTakeAsr(c, s, t, j), t, i);
    case SubmitReady(t, cost) => SubmitReadyAloof(c, s, t, cost, i);
    case Dispatch(t, k) => DispatchAloof(c, s, t, k, i);
    case LeaveLlm(t) => assert Aloof(c, s, DoLeaveLlm(c, s, t), t, i);
    case CountCompleted(t) => assert Aloof(c, s, DoCountCompleted(c, s, t), t, i);
    case _ =>
  }

  lemma ActionAloof(c: Config, s: State, step: Step, i: nat)
    requires Enabled(c, s, step) && IsActionNeutral(step) && i < |s.results|
    ensures Aloof(c, s, Apply(c, s, step), step.t, i)
  {
    match step
    case RegisterItem(t) => assert Aloof(c, s, DoRegisterItem(c, s, t), t, i);
    case Enqueue(t) => assert Aloof(c, s, DoEnqueue(c, s, t), t, i);
    case BeginDrop(t, k) => assert Aloof(c, s, DoBeginDrop(c, s, t, k), t, i);
    case Reprioritise(t, k, p) => assert Aloof(c, s, DoReprioritise(c, s, t, k, p), t, i);
    case _ =>
  }

  lemma RekeyAloof(c: Config, s: State, step: Step, i: nat)
    requires Enabled(c, s, step) && IsRekeyNeutral(step) && i < |s.results|
    ensures Aloof(c, s, Apply(c, s, step), step.t, i)
  {
    match step
    case TellScheduler(t) => assert Aloof(c, s, DoTellScheduler(c, s, t), t, i);
    case LockForRekey(t) => assert Aloof(c, s, DoLockForRekey(c, s, t), t, i);
    case DrainOne(t, j) => assert Aloof(c, s, DoDrainOne(c, s, t, j), t, i);
    case RefillOne(t) => assert Aloof(c, s, DoRefillOne(c, s, t), t, i);
    case EndRekey(t) => assert Aloof(c, s, DoEndRekey(c, s, t), t, i);
    case _ =>
  }

  lemma ClosingAloof(c: Config, s: State, step: Step, i: nat)
    requires Enabled(c, s, step) && IsClosingNeutral(step) && i < |s.results|
    ensures Aloof(c, s, Apply(c, s, step), step.t, i)
  {
    match step
    case CloseIntake(t, reason) => assert Aloof(c, s, DoCloseIntake(c, s, t, reason), t, i);
    case HaltOne(t) => assert Aloof(c, s, DoHaltOne(c, s, t), t, i);
    case CloseScheduler(t) => assert Aloof(c, s, DoCloseScheduler(c, s, t), t, i);
    case _ =>
  }

  lemma NeutralAloof(c: Config, s: State, step: Step, i: nat)
    requires Enabled(c, s, step) && IsNeutral(step) && i < |s.results|
    ensures Aloof(c, s, Apply(c, s, step), step.t, i)
  {
    if IsDownloadNeutral(step) {
      DownloadAloof(c, s, step, i);
    } else if IsMarkerNeutral(step) {
      MarkerAloof(c, s, step, i);
    } else if IsWorkerNeutral(step) {
      WorkerAloof(c, s, step, i);
    } else if IsActionNeutral(step) {
      ActionAloof(c, s, step, i);
    } else if IsRekeyNeutral(step) {
      RekeyAloof(c, s, step, i);
    } else {
      ClosingAloof(c, s, step, i);
    }
  }

  lemma AdmitAloof(c: Config, s: State, t: nat, item: Item, i: nat)
    requires CanAdmit(c, s, t, item) && i < |s.results|
    ensures Aloof(c, s, DoAdmit(c, s, t, item), t, i)
  {
  }

  // ----- the steps that read or write a verdict -----

  /** The step leaves item `i` race-free and a verdict on it as it was. */
  ghost predicate Safe(c: Config, s: State, s': State, i: nat)
    requires i < |s.results|
  {
    && i < |s'.results| && RaceFree(c, s', i)
    && (s.results[i].status != Pending ==> s'.results[i].status == s.results[i].status)
  }

  lemma AloofIsSafe(c: Config, s: State, s': State, t: nat, i: nat)
    requires i < |s.results| <= |s'.results| && RaceFree(c, s, i) && Aloof(c, s, s', t, i)
    ensures Safe(c, s, s', i)
  {
    AloofKeeps(c, s, s', t, i);
  }

  /** Nobody is about to write `done` for item `i`. */
  ghost predicate NoVerdict(s: State, i: nat)
  {
    forall u :: 0 <= u < |s.threads| ==> s.threads[u].pc != MarkDone(i)
  }

  /** An item that was not finished has no verdict in the making. */
  lemma UnfinishedHasNoVerdict(c: Config, s: State, i: nat)
    requires StatusOk(c, s) && i < |s.results| && i !in s.sched.finished
    ensures NoVerdict(s, i)
  {
    assert ItemOk(c, s, i);
    forall u | 0 <= u < |s.threads| ensures s.threads[u].pc != MarkDone(i) {
      TotalMember(c, Settling(i), s.threads, u);
    }
  }

  lemma ClaimStageLocal(c: Config, s: State, t: nat, i: nat)
    requires CanClaimStage(c, s, t) && i < |s.results| == |s.items| && RaceFree(c, s, i) && Placed(c, s, t)
    requires s.threads[t].pc.index == i ==> s.results[i].status != Done && NoVerdict(s, i)
    requires !ForwardHeld(c, s) || s.items[i].stages == {Llm}
    ensures Safe(c, s, DoClaimStage(c, s, t), i)
  {
    var s' := DoClaimStage(c, s, t);
    assert forall u :: 0 <= u < |s.threads| && u != t ==> s'.threads[u] == s.threads[u];
  }

  lemma ClaimStageSafe(c: Config, s: State, t: nat, i: nat)
    requires Invariant(c, s) && StatusOk(c, s) && CanClaimStage(c, s, t) && i < |s.results|
    requires RaceFree(c, s, i) && (!ForwardHeld(c, s) || s.items[i].stages == {Llm})
    ensures Safe(c, s, DoClaimStage(c, s, t), i)
  {
    assert Placed(c, s, t);
    ClaimIsFresh(c, s, t);
    HandIsExclusive(c, s, t);
    if s.threads[t].pc.index == i { UnfinishedHasNoVerdict(c, s, i); }
    ClaimStageLocal(c, s, t, i);
  }

  /** What is known of item `i` when thread `t` may be in its stage. */
  ghost predicate StageKnown(c: Config, s: State, t: nat, i: nat)
    requires i < |s.results| && t < |s.threads|
  {
    && Placed(c, s, t) && ThreadOk(s, s.threads[t]) && RaceFree(c, s, i)
    && ((s.threads[t].pc.Run? || s.threads[t].pc.Failing?) && s.threads[t].pc.index == i ==>
          NoVerdict(s, i) && (s.threads[t].role.LlmWorker? ==> i in s.sched.dispatched))
  }

  lemma StageIsKnown(c: Config, s: State, t: nat, i: nat)
    requires Invariant(c, s) && StatusOk(c, s) && t < |s.threads| && InHand(s.threads[t].pc) && i < |s.results|
    requires RaceFree(c, s, i)
    ensures StageKnown(c, s, t, i)
  {
    assert Placed(c, s, t) && ThreadOk(s, s.threads[t]);
    HandIsExclusive(c, s, t);
    if s.threads[t].pc.index == i {
      UnfinishedHasNoVerdict(c, s, i);
      if s.threads[t].role.LlmWorker? { LlmHandIsDispatched(c, s, t); }
    }
  }

  lemma StageSucceedsSafe(c: Config, s: State, t: nat, i: nat)
    requires CanStageSucceeds(c, s, t) && i < |s.results| && StageKnown(c, s, t, i)
    ensures Safe(c, s, DoStageSucceeds(c, s, t), i)
  {
    assert forall u :: 0 <= u < |s.threads| && u != t ==> DoStageSucceeds(c, s, t).threads[u] == s.threads[u];
  }

  lemma ClearStageSafe(c: Config, s: State, t: nat, i: nat)
    requires CanClearStage(c, s, t) && i < |s.results| && StageKnown(c, s, t, i)
    ensures Safe(c, s, DoClearStage(c, s, t), i)
  {
    assert forall u :: 0 <= u < |s.threads| && u != t ==> DoClearStage(c, s, t).threads[u] == s.threads[u];
  }

  lemma StageFailsSafe(c: Config, s: State, t: nat, i: nat)
    requires CanStageFails(c, s, t) && i < |s.results| == |s.items| && StageKnown(c, s, t, i)
    requires !ForwardHeld(c, s) || s.items[i].stages == {Llm}
    ensures Safe(c, s, DoStageFails(c, s, t), i)
  {
    assert forall u :: 0 <= u < |s.threads| && u != t ==> DoStageFails(c, s, t).threads[u] == s.threads[u];
  }

  lemma FinishLlmSafe(c: Config, s: State, t: nat, i: nat)
    requires Invariant(c, s) && CanFinishLlm(c, s, t) && i < |s.results| && RaceFree(c, s, i)
    ensures Safe(c, s, DoFinishLlm(c, s, t), i)
  {
    var s' := DoFinishLlm(c, s, t);
    assert Placed(c, s, t);
    assert forall u :: 0 <= u < |s.threads| && u != t ==> s'.threads[u] == s.threads[u];
  }

  lemma ReadVerdictSafe(c: Config, s: State, t: nat, i: nat)
    requires Shape(c, s) && CanReadVerdict(c, s, t) && i < |s.results| && RaceFree(c, s, i)
    ensures Safe(c, s, DoReadVerdict(c, s, t), i)
  {
    var s' := DoReadVerdict(c, s, t);
    assert Placed(c, s, t);
    assert forall u :: 0 <= u < |s.threads| && u != t ==> s'.threads[u] == s.threads[u];
  }

  /** One thread at most is about to write `done` for an item. */
  lemma OneVerdict(c: Config, s: State, t: nat, k: nat)
    requires StatusOk(c, s) && k < |s.results| && t < |s.threads| && s.threads[t].pc == MarkDone(k)
    ensures forall u :: 0 <= u < |s.threads| && u != t ==> s.threads[u].pc != MarkDone(k)
    ensures k in s.sched.finished
  {
    assert ItemOk(c, s, k);
    TotalMember(c, Settling(k), s.threads, t);
    forall u | 0 <= u < |s.threads| && u != t ensures s.threads[u].pc != MarkDone(k) {
      TotalPair(c, Settling(k), s.threads, if t < u then t else u, if t < u then u else t);
    }
  }

  lemma WriteDoneSafe(c: Config, s: State, t: nat, i: nat)
    requires Shape(c, s) && StatusOk(c, s) && S.Valid(s.sched) && CanWriteDone(c, s, t) && i < |s.results| && RaceFree(c, s, i)
    ensures Safe(c, s, DoWriteDone(c, s, t), i)
  {
    var s' := DoWriteDone(c, s, t);
    assert Placed(c, s, t);
    OneVerdict(c, s, t, s.threads[t].pc.index);
    assert forall u :: 0 <= u < |s.threads| && u != t ==> s'.threads[u] == s.threads[u];
  }

  lemma DropReadsSafe(c: Config, s: State, t: nat, i: nat)
    requires Invariant(c, s) && CanDropReads(c, s, t) && i < |s.results| && RaceFree(c, s, i)
    ensures Safe(c, s, DoDropReads(c, s, t), i)
  {
    var s' := DoDropReads(c, s, t);
    KeeperIs(c, s, t);
    if i !in s.sched.dispatched {
      forall u | 0 <= u < |s.threads| && s.threads[u].role.LlmWorker? ensures !PastClaim(s.threads[u].pc, i) {
        if PastClaim(s.threads[u].pc, i) { LlmHandIsDispatched(c, s, u); }
      }
    }
    assert forall u :: 0 <= u < |s.threads| && u != t ==> s'.threads[u] == s.threads[u];
  }

  lemma DropWritesSafe(c: Config, s: State, t: nat, i: nat)
    requires Shape(c, s) && StatusOk(c, s) && CanDropWrites(c, s, t) && i < |s.results| && RaceFree(c, s, i)
    ensures Safe(c, s, DoDropWrites(c, s, t), i)
  {
    KeeperIs(c, s, t);
    if DropAnswers(s.threads[t].pc, i) { UnfinishedHasNoVerdict(c, s, i); }
    DropWritesNear(c, s, t, i);
  }

  lemma DropWritesNear(c: Config, s: State, t: nat, i: nat)
    requires CanDropWrites(c, s, t) && i < |s.results| && RaceFree(c, s, i)
    requires KeeperPc(c, s) == s.threads[t].pc && t == Keeper(c) && c.growing
    requires DropAnswers(s.threads[t].pc, i) ==> NoVerdict(s, i)
    ensures Safe(c, s, DoDropWrites(c, s, t), i)
  {
    assert forall u :: 0 <= u < |s.threads| && u != t ==> DoDropWrites(c, s, t).threads[u] == s.threads[u];
  }

  lemma NeutralIsSafe(c: Config, s: State, step: Step, i: nat)
    requires Enabled(c, s, step) && IsNeutral(step) && i < |s.results| && RaceFree(c, s, i)
    ensures Safe(c, s, Apply(c, s, step), i)
  {
    NeutralAloof(c, s, step, i);
    NeutralStep(c, s, step);
    AloofIsSafe(c, s, Apply(c, s, step), step.t, i);
  }

  lemma RecordIsSafe(c: Config, s: State, step: Step, i: nat)
    requires Invariant(c, s) && StatusOk(c, s) && Enabled(c, s, step) && i < |s.results|
    requires RaceFree(c, s, i) && Undisturbed(c, s, step, i) && IsRecordStep(step) && !step.ClaimStage?
    ensures Safe(c, s, Apply(c, s, step), i)
  {
    if IsVerdictRecord(step) { VerdictIsSafe(c, s, step, i); } else { InStageIsSafe(c, s, step, i); }
  }

  lemma StepIsSafe(c: Config, s: State, step: Step, i: nat)
    requires Invariant(c, s) && StatusOk(c, s) && Enabled(c, s, step) && i < |s.results|
    requires RaceFree(c, s, i) && Undisturbed(c, s, step, i)
    ensures Safe(c, s, Apply(c, s, step), i)
  {
    if IsNeutral(step) {
      NeutralIsSafe(c, s, step, i);
    } else if IsRecordStep(step) && !step.ClaimStage? {
      RecordIsSafe(c, s, step, i);
    } else {
      OtherIsSafe(c, s, step, i);
    }
  }

  lemma OtherIsSafe(c: Config, s: State, step: Step, i: nat)
    requires Invariant(c, s) && StatusOk(c, s) && Enabled(c, s, step) && i < |s.results| && RaceFree(c, s, i)
    requires step.ClaimStage? || step.Admit? || step.Boot? || step.Stop?
    requires Undisturbed(c, s, step, i)
    ensures Safe(c, s, Apply(c, s, step), i)
  {
    match step
    case ClaimStage(t) =>
      assert Placed(c, s, t);
      ClaimStageSafe(c, s, t, i);
    case Admit(t, item) =>
      AdmitAloof(c, s, t, item, i);
      AloofIsSafe(c, s, DoAdmit(c, s, t, item), t, i);
    case Stop => assert RaceFree(c, DoStop(c, s), i);
    case _ =>
  }

  lemma VerdictIsSafe(c: Config, s: State, step: Step, i: nat)
    requires Invariant(c, s) && StatusOk(c, s) && Enabled(c, s, step) && i < |s.results| && RaceFree(c, s, i)
    requires IsVerdictRecord(step)
    ensures Safe(c, s, Apply(c, s, step), i)
  {
    match step
    case FinishLlm(t) => FinishLlmSafe(c, s, t, i);
    case ReadVerdict(t) => ReadVerdictSafe(c, s, t, i);
    case WriteDone(t) => WriteDoneSafe(c, s, t, i);
    case DropReads(t) => DropReadsSafe(c, s, t, i);
    case DropWrites(t) => DropWritesSafe(c, s, t, i);
    case _ =>
  }

  lemma InStageIsSafe(c: Config, s: State, step: Step, i: nat)
    requires Invariant(c, s) && StatusOk(c, s) && Enabled(c, s, step) && i < |s.results|
    requires IsStageRecord(step) && !step.ClaimStage?
    requires RaceFree(c, s, i) && Undisturbed(c, s, step, i)
    ensures Safe(c, s, Apply(c, s, step), i)
  {
    assert Placed(c, s, step.t);
    StageIsKnown(c, s, step.t, i);
    match step
    case StageSucceeds(t) => StageSucceedsSafe(c, s, t, i);
    case StageFails(t) => StageFailsSafe(c, s, t, i);
    case ClearStage(t) => ClearStageSafe(c, s, t, i);
    case _ =>
  }

  // ----- whole runs -----

  /** No record disappears; a new one belongs to an item just admitted. */
  lemma RecordsGrow(c: Config, s: State, step: Step)
    requires Enabled(c, s, step) && |s.results| == |s.items|
    ensures if step.Admit? then Apply(c, s, step) == DoAdmit(c, s, step.t, step.item)
            else |Apply(c, s, step).results| == |s.results|
  {
    if IsNeutral(step) { NeutralStep(c, s, step); }
  }

  lemma NewcomerRaceFree(c: Config, s: State, t: nat, item: Item)
    requires Shape(c, s) && CanAdmit(c, s, t, item)
    ensures RaceFree(c, DoAdmit(c, s, t, item), |s.items|)
  {
    KeeperIs(c, s, t);
    forall u | 0 <= u < |s.threads| ensures s.threads[u].pc != MarkDone(|s.items|) { assert Placed(c, s, u); }
  }

  lemma InitRaceFree(c: Config, items: seq<Item>, i: nat)
    requires i < |items|
    ensures RaceFree(c, Init(c, items), i)
  {
  }

  lemma {:induction false} RunRaceFree(c: Config, items: seq<Item>, states: seq<State>, steps: seq<Step>, i: nat, k: nat)
    requires Sound(c) && IsRun(c, items, states, steps) && k < |states|
    requires forall j :: 0 <= j < k ==> Undisturbed(c, states[j], steps[j], i)
    ensures i < |states[k].results| ==> RaceFree(c, states[k], i)
    decreases k
  {
    if k == 0 {
      if i < |items| { InitRaceFree(c, items, i); }
    } else {
      var s, step := states[k - 1], steps[k - 1];
      RunRaceFree(c, items, states, steps, i, k - 1);
      RunKeeps(c, items, states, steps, k - 1);
      RunStatus(c, items, states, steps, k - 1);
      RecordsGrow(c, s, step);
      if i < |s.results| {
        StepIsSafe(c, s, step, i);
      } else if step.Admit? {
        NewcomerRaceFree(c, s, step.t, step.item);
      }
    }
  }

  lemma VerdictStays(c: Config, items: seq<Item>, states: seq<State>, steps: seq<Step>, i: nat, k: nat)
    requires Sound(c) && IsRun(c, items, states, steps) && k < |steps| && i < |states[k].results|
    requires forall j :: 0 <= j <= k ==> Undisturbed(c, states[j], steps[j], i)
    ensures Safe(c, states[k], states[k + 1], i)
  {
    RunRaceFree(c, items, states, steps, i, k);
    RunKeeps(c, items, states, steps, k);
    RunStatus(c, items, states, steps, k);
    StepIsSafe(c, states[k], steps[k], i);
  }

  /** A verdict on item `i` in state `a` is still there in `b`. */
  predicate Outlasts(a: State, b: State, i: nat)
  {
    i < |a.results| ==> i < |b.results| && (a.results[i].status != Pending ==> b.results[i].status == a.results[i].status)
  }

  lemma {:induction false} OutlastsAll(states: seq<State>, i: nat, m: nat, k: nat)
    requires m <= k < |states|
    requires forall j: nat :: j < k ==> Outlasts(states[j], states[j + 1], i)
    ensures Outlasts(states[m], states[k], i)
    decreases k
  {
    if m < k {
      OutlastsAll(states, i, m, k - 1);
      assert Outlasts(states[k - 1], states[k - 1 + 1], i);
    }
  }

  /** When nothing comes between the reads and the writes of a drop, or the item has nothing but
      an llm stage, the first verdict on item `i` is the last. */
  lemma VerdictIsFinal(c: Config, items: seq<Item>, states: seq<State>, steps: seq<Step>, i: nat, m: nat, k: nat)
    requires Sound(c) && IsRun(c, items, states, steps) && m <= k < |states|
    requires i < |states[m].results| && states[m].results[i].status != Pending
    requires forall j :: 0 <= j < k ==> Undisturbed(c, states[j], steps[j], i)
    ensures i < |states[k].results| && states[k].results[i].status == states[m].results[i].status
  {
    forall j: nat | j < k ensures Outlasts(states[j], states[j + 1], i) {
      if i < |states[j].results| { VerdictStays(c, items, states, steps, i, j); }
    }
    OutlastsAll(states, i, m, k);
  }

  /** Under the same condition a drop is accepted only for a pending item that is in no stage and
      that no llm worker has started or finished. */
  lemma DropIsEarned(c: Config, items: seq<Item>, states: seq<State>, steps: seq<Step>, i: nat, k: nat)
    requires Sound(c) && IsRun(c, items, states, steps) && k < |steps|
    requires steps[k].DropWrites? && states[k].threads[steps[k].t].pc == DropWrite(i)
    requires forall j :: 0 <= j < k ==> Undisturbed(c, states[j], steps[j], i)
    ensures i < |states[k].results| && states[k].results[i].status == Pending && states[k].results[i].stage.None?
    ensures i !in states[k].sched.finished && LlmUntouched(states[k], i)
    ensures states[k + 1].results[i].status == Skipped
  {
    var s, t := states[k], steps[k].t;
    assert CanDropWrites(c, s, t) && states[k + 1] == DoDropWrites(c, s, t);
    RunRaceFree(c, items, states, steps, i, k);
    RunKeeps(c, items, states, steps, k);
    RunStatus(c, items, states, steps, k);
    KeeperIs(c, s, t);
    assert ThreadOk(s, s.threads[t]);
  }

  /** Whatever the interleaving, an item whose drop was recorded is in no stage, and no thread is
      inside one of its stages. */
  lemma DroppedIsOut(c: Config, items: seq<Item>, states: seq<State>, steps: seq<Step>, i: nat, k: nat)
    requires Sound(c) && IsRun(c, items, states, steps) && k < |states|
    requires i < |states[k].results| && states[k].results[i].dropped
    ensures states[k].results[i].stage.None? && states[k].results[i].status in {Skipped, Done}
    ensures forall t :: 0 <= t < |states[k].threads| ==>
              !(states[k].threads[t].pc.Run? && states[k].threads[t].pc.index == i)
  {
    RunStatus(c, items, states, steps, k);
    assert ItemOk(c, states[k], i);
    assert forall t :: 0 <= t < |states[k].threads| ==> ThreadOk(states[k], states[k].threads[t]);
  }

  /** A stage is entered only by a pending item that is in no other stage, and not after an interrupt. */
  lemma OnlyPendingStarts(c: Config, items: seq<Item>, states: seq<State>, steps: seq<Step>, k: nat)
    requires Sound(c) && IsRun(c, items, states, steps) && k < |steps|
    requires steps[k].ClaimStage? && states[k + 1].threads[steps[k].t].pc.Run?
    ensures var i := states[k].threads[steps[k].t].pc.index;
            i < |states[k].results| && states[k].results[i] == Result(Pending, None, false) && !states[k].stop
  {
    var s, t := states[k], steps[k].t;
    assert CanClaimStage(c, s, t) && states[k + 1] == DoClaimStage(c, s, t);
    RunKeeps(c, items, states, steps, k);
    RunStatus(c, items, states, steps, k);
    ClaimIsFresh(c, s, t);
    assert ItemOk(c, s, s.threads[t].pc.index);
  }

  /** No verdict is ever taken back, only replaced, and a recorded drop stays recorded. */
  predicate Endures(a: State, b: State, i: nat)
  {
    i < |a.results| ==>
      && i < |b.results| && (a.results[i].status != Pending ==> b.results[i].status != Pending)
      && (a.results[i].dropped ==> b.results[i].dropped)
  }

  lemma StepEndures(c: Config, s: State, step: Step, i: nat)
    requires Enabled(c, s, step)
    ensures Endures(s, Apply(c, s, step), i)
  {
    if IsNeutral(step) { NeutralStep(c, s, step); }
  }

  lemma {:induction false} EnduresAll(states: seq<State>, i: nat, m: nat, k: nat)
    requires m <= k < |states|
    requires forall j: nat :: j < k ==> Endures(states[j], states[j + 1], i)
    ensures Endures(states[m], states[k], i)
    decreases k
  {
    if m < k {
      EnduresAll(states, i, m, k - 1);
      assert Endures(states[k - 1], states[k - 1 + 1], i);
    }
  }

  lemma RunEndures(c: Config, items: seq<Item>, states: seq<State>, steps: seq<Step>, i: nat, m: nat, k: nat)
    requires IsRun(c, items, states, steps) && m <= k < |states|
    ensures Endures(states[m], states[k], i)
  {
    forall j: nat | j < k ensures Endures(states[j], states[j + 1], i) { StepEndures(c, states[j], steps[j], i); }
    EnduresAll(states, i, m, k);
  }

  /** Once a drop has been accepted, whatever the interleaving, no stage of the item is entered for the rest of
      the run; and once it has been recorded it stays so, with the item in no stage. */
  lemma DroppedForGood(c: Config, items: seq<Item>, states: seq<State>, steps: seq<Step>, i: nat, m: nat, k: nat)
    requires Sound(c) && IsRun(c, items, states, steps) && m < k < |states|
    requires steps[m].DropWrites? && states[m].threads[steps[m].t].pc in {DropWrite(i), DropMark(i)}
    ensures i < |states[k].results| && states[k].results[i].status != Pending
    ensures k < |steps| && steps[k].ClaimStage? && states[k].threads[steps[k].t].pc == Claim(i) ==>
              !states[k + 1].threads[steps[k].t].pc.Run?
    ensures states[m].threads[steps[m].t].pc.DropMark? ==> states[k].results[i].dropped && states[k].results[i].stage.None?
  {
    var s, t := states[m], steps[m].t;
    assert CanDropWrites(c, s, t) && states[m + 1] == DoDropWrites(c, s, t);
    RunStatus(c, items, states, steps, m);
    assert ThreadOk(s, s.threads[t]);
    RunEndures(c, items, states, steps, i, m + 1, k);
    if states[k].results[i].dropped { DroppedIsOut(c, items, states, steps, i, k); }
    if k < |steps| && steps[k].ClaimStage? && states[k + 1].threads[steps[k].t].pc.Run? {
      OnlyPendingStarts(c, items, states, steps, k);
    }
  }
}
