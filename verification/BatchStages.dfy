/** What the stages of an item have to do with its verdict: `done` is earned stage by stage, and a failing
    stage is tried again until its attempts are used up. */
module BatchStages {
  import opened Wrappers
  import opened BatchModel
  import opened BatchCounts
  import opened BatchRuns
  import opened BatchStatus

  // ----- what has succeeded so far -----

  /** The step is the success of stage `b` of item `i`, in the hands of a worker of that bin. */
  predicate IsWin(s: State, step: Step, i: nat, b: Bin)
  {
    step.StageSucceeds? && step.t < |s.threads| && s.threads[step.t].pc.Run?
    && s.threads[step.t].pc.index == i && BinOf(s.threads[step.t].role) == b && !s.threads[step.t].role.IntakeThread?
  }

  function Gain(s: State, step: Step): set<(nat, Bin)>
  {
    if step.StageSucceeds? && step.t < |s.threads| && s.threads[step.t].pc.Run? && !s.threads[step.t].role.IntakeThread?
    then {(s.threads[step.t].pc.index, BinOf(s.threads[step.t].role))} else {}
  }

  /** The stages that have succeeded in the first `k` steps. */
  function Won(states: seq<State>, steps: seq<Step>, k: nat): set<(nat, Bin)>
    requires k <= |steps| && |steps| <= |states|
  {
    if k == 0 then {} else Won(states, steps, k - 1) + Gain(states[k - 1], steps[k - 1])
  }

  lemma {:induction false} WonMeans(states: seq<State>, steps: seq<Step>, k: nat, i: nat, b: Bin) returns (j: nat)
    requires k <= |steps| <= |states| && (i, b) in Won(states, steps, k)
    ensures j < k && IsWin(states[j], steps[j], i, b)
    decreases k
  {
    if (i, b) in Gain(states[k - 1], steps[k - 1]) { j := k - 1; } else { j := WonMeans(states, steps, k - 1, i, b); }
  }

  // ----- what an item has behind it -----

  /** Item `i` can be past bin `b`: it has no such stage, or the stage succeeded, or the item is out. */
  predicate Past(s: State, won: set<(nat, Bin)>, i: nat, b: Bin)
  {
    Knows(s, i) && (b in s.items[i].stages && s.results[i].status !in {Failed, Skipped} ==> (i, b) in won)
  }

  predicate AllWon(s: State, won: set<(nat, Bin)>, i: nat)
  {
    Knows(s, i) && forall b :: b in s.items[i].stages ==> (i, b) in won
  }

  /** The bins before that of the worker. */
  predicate Before(s: State, won: set<(nat, Bin)>, role: Role, i: nat)
  {
    match role
    case AsrWorker => Past(s, won, i, Download)
    case LlmWorker => Past(s, won, i, Download) && Past(s, won, i, Asr)
    case _ => true
  }

  predicate EntryOk(s: State, won: set<(nat, Bin)>, e: Entry)
  {
    e.index.Some? ==> Past(s, won, e.index.value, Download)
  }

  predicate EntriesOk(s: State, won: set<(nat, Bin)>, q: seq<Entry>)
  {
    forall j :: 0 <= j < |q| ==> EntryOk(s, won, q[j])
  }

  predicate HandOk(s: State, won: set<(nat, Bin)>, th: Thread)
  {
    match th.pc
    case Claim(i) => Before(s, won, th.role, i)
    case Run(i, _) => Before(s, won, th.role, i)
    case Failing(i) => Before(s, won, th.role, i) && Past(s, won, i, BinOf(th.role))
    case AfterStage(i) => Before(s, won, th.role, i) && Past(s, won, i, BinOf(th.role))
    case Put(e, _) => EntryOk(s, won, e)
    case PutHeld(e, _) => EntryOk(s, won, e)
    case Settle(i) => Past(s, won, i, Download) && Past(s, won, i, Asr) && Past(s, won, i, Llm)
    case MarkDone(i) => AllWon(s, won, i)
    case Drain(hand) => EntriesOk(s, won, hand)
    case Refill(hand) => EntriesOk(s, won, hand)
    case _ => true
  }

  predicate HandsOk(s: State, won: set<(nat, Bin)>)
  {
    forall t {:trigger HandOk(s, won, s.threads[t])} :: 0 <= t < |s.threads| ==> HandOk(s, won, s.threads[t])
  }

  predicate ReadyOk(s: State, won: set<(nat, Bin)>)
  {
    forall i :: i in s.sched.ready ==> Past(s, won, i, Download) && Past(s, won, i, Asr)
  }

  predicate DoneOk(s: State, won: set<(nat, Bin)>)
  {
    forall i: nat {:trigger AllWon(s, won, i)} :: i < |s.results| && s.results[i].status == Done ==> AllWon(s, won, i)
  }

  /** Whatever item is wherever it is, it has earned it; and `done` is earned in full. */
  ghost predicate Earned(s: State, won: set<(nat, Bin)>)
  {
    |s.results| == |s.items| && HandsOk(s, won) && EntriesOk(s, won, s.asrQ) && ReadyOk(s, won) && DoneOk(s, won)
  }

  // ----- every step -----

  /** What was earned stays so. */
  ghost predicate Stable(s: State, s': State, won: set<(nat, Bin)>, won': set<(nat, Bin)>)
  {
    && |s'.results| == |s'.items|
    && (forall i: nat, b :: Past(s, won, i, b) ==> Past(s', won', i, b))
    && (forall i: nat :: AllWon(s, won, i) ==> AllWon(s', won', i))
  }

  lemma StableEntries(s: State, s': State, won: set<(nat, Bin)>, won': set<(nat, Bin)>, q: seq<Entry>)
    requires Stable(s, s', won, won') && EntriesOk(s, won, q)
    ensures EntriesOk(s', won', q)
  {
    forall j | 0 <= j < |q| ensures EntryOk(s', won', q[j]) { assert EntryOk(s, won, q[j]); }
  }

  lemma StableHand(s: State, s': State, won: set<(nat, Bin)>, won': set<(nat, Bin)>, th: Thread)
    requires Stable(s, s', won, won') && HandOk(s, won, th)
    ensures HandOk(s', won', th)
  {
    match th.pc
    case Drain(hand) => StableEntries(s, s', won, won', hand);
    case Refill(hand) => StableEntries(s, s', won, won', hand);
    case _ =>
  }

  lemma FromMove(s: State, s': State, won: set<(nat, Bin)>, won': set<(nat, Bin)>, t: nat)
    requires Earned(s, won) && OnlyMoves(s, s', t) && Stable(s, s', won, won') && HandOk(s', won', s'.threads[t])
    requires EntriesOk(s', won', s'.asrQ) && ReadyOk(s', won') && DoneOk(s', won')
    ensures Earned(s', won')
  {
    forall u | 0 <= u < |s'.threads| ensures HandOk(s', won', s'.threads[u]) {
      if u != t {
        assert HandOk(s, won, s.threads[u]);
        StableHand(s, s', won, won', s.threads[u]);
      }
    }
  }

  /** No record changes, and items change their priorities at most. */
  ghost predicate SameRecords(s: State, s': State)
  {
    && s'.results == s.results && |s'.items| == |s.items|
    && forall i :: 0 <= i < |s.items| ==> s'.items[i].stages == s.items[i].stages
  }

  lemma SameIsStable(s: State, s': State, won: set<(nat, Bin)>)
    requires |s.results| == |s.items| && SameRecords(s, s')
    ensures Stable(s, s', won, won) && (DoneOk(s, won) ==> DoneOk(s', won)) && (s'.sched.ready == s.sched.ready && ReadyOk(s, won) ==> ReadyOk(s', won))
  {
    if DoneOk(s, won) {
      forall i: nat | i < |s'.results| && s'.results[i].status == Done ensures AllWon(s', won, i) { assert AllWon(s, won, i); }
    }
  }

  /** A step that changes no record, nor what is queued and ready. */
  lemma QuietMove(s: State, s': State, won: set<(nat, Bin)>, t: nat)
    requires Earned(s, won) && OnlyMoves(s, s', t) && SameRecords(s, s')
    requires s'.asrQ == s.asrQ && s'.sched.ready == s.sched.ready && HandOk(s, won, s'.threads[t])
    ensures Earned(s', won)
  {
    SameIsStable(s, s', won);
    StableHand(s, s', won, won, s'.threads[t]);
    StableEntries(s, s', won, won, s.asrQ);
    FromMove(s, s', won, won, t);
  }

  lemma TakeDownloadEarned(c: Config, s: State, t: nat, won: set<(nat, Bin)>)
    requires Earned(s, won) && CanTakeDownload(c, s, t)
    ensures Earned(DoTakeDownload(c, s, t), won)
  {
    assert HandOk(s, won, s.threads[t]);
    QuietMove(s, DoTakeDownload(c, s, t), won, t);
  }

  lemma FinishLlmEarned(c: Config, s: State, t: nat, won: set<(nat, Bin)>)
    requires Earned(s, won) && CanFinishLlm(c, s, t)
    ensures Earned(DoFinishLlm(c, s, t), won)
  {
    assert HandOk(s, won, s.threads[t]);
    QuietMove(s, DoFinishLlm(c, s, t), won, t);
  }

  lemma DispatchEarned(c: Config, s: State, t: nat, i: nat, won: set<(nat, Bin)>)
    requires Earned(s, won) && CanDispatch(c, s, t, i)
    ensures Earned(DoDispatch(c, s, t, i), won)
  {
    QuietMove(s, DoDispatch(c, s, t, i), won, t);
  }

  predicate IsWorkerQuiet(step: Step)
  {
    match step
    case TakeDownload(_) | DrawEntry(_) | CountForwarded(_) => true
    case _ => false
  }

  lemma WorkerQuiet(c: Config, s: State, step: Step, won: set<(nat, Bin)>)
    requires Earned(s, won) && Enabled(c, s, step) && IsWorkerQuiet(step)
    ensures Earned(Apply(c, s, step), won)
  {
    assert HandOk(s, won, s.threads[step.t]);
    match step
    case TakeDownload(t) => TakeDownloadEarned(c, s, t, won);
    case DrawEntry(t) => QuietMove(s, DoDrawEntry(c, s, t), won, t);
    case CountForwarded(t) => QuietMove(s, DoCountForwarded(c, s, t), won, t);
    case _ =>
  }

  predicate IsMarkerQuiet(step: Step)
  {
    match step
    case BlockOnPut(_) | DrawSentinel(_) | SendDone(_) => true
    case _ => false
  }

  lemma MarkerQuiet(c: Config, s: State, step: Step, won: set<(nat, Bin)>)
    requires Earned(s, won) && Enabled(c, s, step) && IsMarkerQuiet(step)
    ensures Earned(Apply(c, s, step), won)
  {
    assert HandOk(s, won, s.threads[step.t]);
    match step
    case BlockOnPut(t) => QuietMove(s, DoBlockOnPut(c, s, t), won, t);
    case DrawSentinel(t) => QuietMove(s, DoDrawSentinel(c, s, t), won, t);
    case SendDone(t) => QuietMove(s, DoSendDone(c, s, t), won, t);
    case _ =>
  }

  predicate IsLlmQuiet(step: Step)
  {
    match step
    case Dispatch(_, _) | LeaveLlm(_) | FinishLlm(_) | ReadVerdict(_) | CountCompleted(_) => true
    case _ => false
  }

  lemma LlmQuiet(c: Config, s: State, step: Step, won: set<(nat, Bin)>)
    requires Earned(s, won) && Enabled(c, s, step) && IsLlmQuiet(step)
    ensures Earned(Apply(c, s, step), won)
  {
    assert HandOk(s, won, s.threads[step.t]);
    match step
    case Dispatch(t, i) => DispatchEarned(c, s, t, i, won);
    case LeaveLlm(t) => QuietMove(s, DoLeaveLlm(c, s, t), won, t);
    case FinishLlm(t) => FinishLlmEarned(c, s, t, won);
    case ReadVerdict(t) => ReadVerdictEarned(c, s, t, won);
    case CountCompleted(t) => QuietMove(s, DoCountCompleted(c, s, t), won, t);
    case _ =>
  }

  lemma ReadVerdictEarned(c: Config, s: State, t: nat, won: set<(nat, Bin)>)
    requires Earned(s, won) && CanReadVerdict(c, s, t)
    ensures Earned(DoReadVerdict(c, s, t), won)
  {
    var i := s.threads[t].pc.index;
    assert HandOk(s, won, s.threads[t]);
    if s.results[i].status == Pending {
      forall b | b in s.items[i].stages ensures (i, b) in won {
        match b case Download => case Asr => case Llm =>
      }
    }
    QuietMove(s, DoReadVerdict(c, s, t), won, t);
  }

  predicate IsActionQuiet(step: Step)
  {
    match step
    case BeginDrop(_, _) | DropReads(_) | Reprioritise(_, _, _) | TellScheduler(_) => true
    case _ => false
  }

  predicate IsIntakeQuiet(step: Step)
  {
    match step
    case RegisterItem(_) | Enqueue(_) | LockForRekey(_) | EndRekey(_) => true
    case _ => false
  }

  predicate IsClosingQuiet(step: Step)
  {
    match step
    case CloseIntake(_, _) | HaltOne(_) | CloseScheduler(_) => true
    case _ => false
  }

  lemma ActionQuiet(c: Config, s: State, step: Step, won: set<(nat, Bin)>)
    requires Earned(s, won) && Enabled(c, s, step) && IsActionQuiet(step)
    ensures Earned(Apply(c, s, step), won)
  {
    match step
    case BeginDrop(t, i) => QuietMove(s, DoBeginDrop(c, s, t, i), won, t);
    case DropReads(t) => QuietMove(s, DoDropReads(c, s, t), won, t);
    case Reprioritise(t, i, p) => QuietMove(s, DoReprioritise(c, s, t, i, p), won, t);
    case TellScheduler(t) => QuietMove(s, DoTellScheduler(c, s, t), won, t);
    case _ =>
  }

  lemma ClosingQuiet(c: Config, s: State, step: Step, won: set<(nat, Bin)>)
    requires Earned(s, won) && Enabled(c, s, step) && IsClosingQuiet(step)
    ensures Earned(Apply(c, s, step), won)
  {
    match step
    case CloseIntake(t, reason) => QuietMove(s, DoCloseIntake(c, s, t, reason), won, t);
    case HaltOne(t) => QuietMove(s, DoHaltOne(c, s, t), won, t);
    case CloseScheduler(t) => QuietMove(s, DoCloseScheduler(c, s, t), won, t);
    case _ =>
  }

  lemma IntakeQuiet(c: Config, s: State, step: Step, won: set<(nat, Bin)>)
    requires Earned(s, won) && Enabled(c, s, step) && IsIntakeQuiet(step)
    ensures Earned(Apply(c, s, step), won)
  {
    match step
    case RegisterItem(t) => QuietMove(s, DoRegisterItem(c, s, t), won, t);
    case Enqueue(t) => QuietMove(s, DoEnqueue(c, s, t), won, t);
    case LockForRekey(t) => QuietMove(s, DoLockForRekey(c, s, t), won, t);
    case EndRekey(t) => QuietMove(s, DoEndRekey(c, s, t), won, t);
    case _ =>
  }

  predicate IsQuiet(step: Step)
  {
    IsWorkerQuiet(step) || IsMarkerQuiet(step) || IsLlmQuiet(step) || IsActionQuiet(step) || IsIntakeQuiet(step) || IsClosingQuiet(step)
  }

  lemma Quiet(c: Config, s: State, step: Step, won: set<(nat, Bin)>)
    requires Earned(s, won) && Enabled(c, s, step) && IsQuiet(step)
    ensures Earned(Apply(c, s, step), won)
  {
    if IsWorkerQuiet(step) {
      WorkerQuiet(c, s, step, won);
    } else if IsMarkerQuiet(step) {
      MarkerQuiet(c, s, step, won);
    } else if IsLlmQuiet(step) {
      LlmQuiet(c, s, step, won);
    } else if IsActionQuiet(step) {
      ActionQuiet(c, s, step, won);
    } else if IsIntakeQuiet(step) {
      IntakeQuiet(c, s, step, won);
    } else {
      ClosingQuiet(c, s, step, won);
    }
  }

  // ----- steps that queue an item, or make it ready -----

  lemma QueueMove(s: State, s': State, won: set<(nat, Bin)>, t: nat)
    requires Earned(s, won) && OnlyMoves(s, s', t) && SameRecords(s, s')
    requires EntriesOk(s, won, s'.asrQ) && s'.sched.ready == s.sched.ready && HandOk(s, won, s'.threads[t])
    ensures Earned(s', won)
  {
    SameIsStable(s, s', won);
    StableHand(s, s', won, won, s'.threads[t]);
    StableEntries(s, s', won, won, s'.asrQ);
    FromMove(s, s', won, won, t);
  }

  lemma EntriesWithout(s: State, won: set<(nat, Bin)>, q: seq<Entry>, j: nat)
    requires EntriesOk(s, won, q) && j < |q|
    ensures EntriesOk(s, won, Removed(q, j)) && EntryOk(s, won, q[j])
  {
    forall k | 0 <= k < |q| - 1 ensures EntryOk(s, won, Removed(q, j)[k]) { assert EntryOk(s, won, q[if k < j then k else k + 1]); }
  }

  lemma EntriesWith(s: State, won: set<(nat, Bin)>, q: seq<Entry>, e: Entry)
    requires EntriesOk(s, won, q) && EntryOk(s, won, e)
    ensures EntriesOk(s, won, q + [e])
  {
  }

  predicate IsQueueing(step: Step)
  {
    match step
    case PutEntry(_) | TakeAsr(_, _) | DrainOne(_, _) | RefillOne(_) => true
    case _ => false
  }

  lemma Queueing(c: Config, s: State, step: Step, won: set<(nat, Bin)>)
    requires Earned(s, won) && Enabled(c, s, step) && IsQueueing(step)
    ensures Earned(Apply(c, s, step), won)
  {
    assert HandOk(s, won, s.threads[step.t]);
    match step
    case PutEntry(t) =>
      EntriesWith(s, won, s.asrQ, s.threads[t].pc.entry);
      QueueMove(s, DoPutEntry(c, s, t), won, t);
    case TakeAsr(t, j) =>
      EntriesWithout(s, won, s.asrQ, j);
      QueueMove(s, DoTakeAsr(c, s, t, j), won, t);
    case DrainOne(t, j) => DrainOneEarned(c, s, t, j, won);
    case RefillOne(t) => RefillOneEarned(c, s, t, won);
    case _ =>
  }

  lemma DrainOneEarned(c: Config, s: State, t: nat, j: nat, won: set<(nat, Bin)>)
    requires Earned(s, won) && CanDrainOne(c, s, t, j)
    ensures Earned(DoDrainOne(c, s, t, j), won)
  {
    assert HandOk(s, won, s.threads[t]);
    if s.asrQ != [] {
      EntriesWithout(s, won, s.asrQ, j);
      EntriesWith(s, won, s.threads[t].pc.hand, s.asrQ[j]);
    }
    QueueMove(s, DoDrainOne(c, s, t, j), won, t);
  }

  lemma RefillOneEarned(c: Config, s: State, t: nat, won: set<(nat, Bin)>)
    requires Earned(s, won) && CanRefillOne(c, s, t)
    ensures Earned(DoRefillOne(c, s, t), won)
  {
    var hand := s.threads[t].pc.hand;
    assert HandOk(s, won, s.threads[t]);
    assert EntryOk(s, won, hand[0]);
    EntriesWith(s, won, s.asrQ, Rekeyed(s, hand[0]));
    forall k | 0 <= k < |hand| - 1 ensures EntryOk(s, won, hand[1..][k]) { assert EntryOk(s, won, hand[k + 1]); }
    QueueMove(s, DoRefillOne(c, s, t), won, t);
  }

  lemma SubmitReadyEarned(c: Config, s: State, t: nat, cost: real, won: set<(nat, Bin)>)
    requires Earned(s, won) && CanSubmitReady(c, s, t, cost)
    ensures Earned(DoSubmitReady(c, s, t, cost), won)
  {
    var s' := DoSubmitReady(c, s, t, cost);
    assert HandOk(s, won, s.threads[t]);
    SameIsStable(s, s', won);
    StableEntries(s, s', won, won, s.asrQ);
    FromMove(s, s', won, won, t);
  }

  lemma BootEarned(c: Config, s: State, won: set<(nat, Bin)>)
    requires Earned(s, won) && CanBoot(c, s)
    ensures Earned(DoBoot(c, s), won)
  {
    var s' := DoBoot(c, s);
    SameIsStable(s, s', won);
    EntriesWith(s, won, s.asrQ, Entry(None, 0, s.arrivals));
    StableEntries(s, s', won, won, s'.asrQ);
    forall t | 0 <= t < |s'.threads| ensures HandOk(s', won, s'.threads[t]) {
      assert HandOk(s, won, s.threads[t]);
      StableHand(s, s', won, won, s.threads[t]);
    }
  }

  lemma StopEarned(c: Config, s: State, won: set<(nat, Bin)>)
    requires Earned(s, won) && CanStop(c, s)
    ensures Earned(DoStop(c, s), won)
  {
    var s' := DoStop(c, s);
    SameIsStable(s, s', won);
    StableEntries(s, s', won, won, s'.asrQ);
    forall t | 0 <= t < |s'.threads| ensures HandOk(s', won, s'.threads[t]) {
      assert HandOk(s, won, s.threads[t]);
      StableHand(s, s', won, won, s.threads[t]);
    }
  }

  // ----- steps that write a record -----

  /** The record of item `i` alone changes; a verdict that it is out is taken back for a full `done` only. */
  ghost predicate OneRecord(s: State, s': State, won: set<(nat, Bin)>, won': set<(nat, Bin)>, i: nat)
  {
    && s'.items == s.items && |s'.results| == |s.results| && won <= won' && i < |s.results|
    && (forall k :: 0 <= k < |s.results| && k != i ==> s'.results[k] == s.results[k])
    && (s.results[i].status in {Failed, Skipped} ==> s'.results[i].status in {Failed, Skipped} || AllWon(s, won', i))
    && (s'.results[i].status == Done ==> s.results[i].status == Done || AllWon(s, won', i))
  }

  lemma RecordMove(s: State, s': State, won: set<(nat, Bin)>, won': set<(nat, Bin)>, t: nat, i: nat)
    requires Earned(s, won) && OnlyMoves(s, s', t) && OneRecord(s, s', won, won', i)
    requires s'.asrQ == s.asrQ && s'.sched.ready == s.sched.ready && HandOk(s', won', s'.threads[t])
    ensures Earned(s', won')
  {
    RecordStable(s, s', won, won', i);
    StableEntries(s, s', won, won', s.asrQ);
    RecordDone(s, s', won, won', i);
    FromMove(s, s', won, won', t);
  }

  lemma RecordStable(s: State, s': State, won: set<(nat, Bin)>, won': set<(nat, Bin)>, i: nat)
    requires |s.results| == |s.items| && OneRecord(s, s', won, won', i)
    ensures Stable(s, s', won, won')
  {
  }

  lemma RecordDone(s: State, s': State, won: set<(nat, Bin)>, won': set<(nat, Bin)>, i: nat)
    requires DoneOk(s, won) && |s.results| == |s.items| && OneRecord(s, s', won, won', i)
    ensures DoneOk(s', won')
  {
    forall k: nat | k < |s'.results| && s'.results[k].status == Done ensures AllWon(s', won', k) {
      if k != i || s.results[i].status == Done { assert AllWon(s, won, k); }
    }
  }

  lemma ClaimStageRecord(c: Config, s: State, t: nat, won: set<(nat, Bin)>)
    requires Earned(s, won) && CanClaimStage(c, s, t)
    ensures OneRecord(s, DoClaimStage(c, s, t), won, won, s.threads[t].pc.index)
  {
  }

  lemma ClaimStageHand(c: Config, s: State, t: nat, won: set<(nat, Bin)>)
    requires CanClaimStage(c, s, t) && HandOk(s, won, s.threads[t]) && Stable(s, DoClaimStage(c, s, t), won, won)
    ensures HandOk(DoClaimStage(c, s, t), won, DoClaimStage(c, s, t).threads[t])
  {
  }

  lemma ClaimStageEarned(c: Config, s: State, t: nat, won: set<(nat, Bin)>)
    requires Earned(s, won) && CanClaimStage(c, s, t)
    ensures Earned(DoClaimStage(c, s, t), won)
  {
    var i, s' := s.threads[t].pc.index, DoClaimStage(c, s, t);
    assert HandOk(s, won, s.threads[t]);
    ClaimStageRecord(c, s, t, won);
    RecordStable(s, s', won, won, i);
    ClaimStageHand(c, s, t, won);
    RecordMove(s, s', won, won, t, i);
  }

  lemma StageSucceedsEarned(c: Config, s: State, t: nat, won: set<(nat, Bin)>)
    requires Earned(s, won) && CanStageSucceeds(c, s, t)
    ensures Earned(DoStageSucceeds(c, s, t), won + Gain(s, StageSucceeds(t)))
  {
    var i, s', won' := s.threads[t].pc.index, DoStageSucceeds(c, s, t), won + Gain(s, StageSucceeds(t));
    assert HandOk(s, won, s.threads[t]);
    RecordStable(s, s', won, won', i);
    RecordMove(s, s', won, won', t, i);
  }

  lemma StageFailsEarned(c: Config, s: State, t: nat, won: set<(nat, Bin)>)
    requires Earned(s, won) && CanStageFails(c, s, t)
    ensures Earned(DoStageFails(c, s, t), won)
  {
    var i, s' := s.threads[t].pc.index, DoStageFails(c, s, t);
    assert HandOk(s, won, s.threads[t]);
    RecordStable(s, s', won, won, i);
    RecordMove(s, s', won, won, t, i);
  }

  lemma ClearStageEarned(c: Config, s: State, t: nat, won: set<(nat, Bin)>)
    requires Earned(s, won) && CanClearStage(c, s, t)
    ensures Earned(DoClearStage(c, s, t), won)
  {
    var i, s' := s.threads[t].pc.index, DoClearStage(c, s, t);
    assert HandOk(s, won, s.threads[t]);
    RecordStable(s, s', won, won, i);
    RecordMove(s, s', won, won, t, i);
  }

  lemma WriteDoneEarned(c: Config, s: State, t: nat, won: set<(nat, Bin)>)
    requires Earned(s, won) && CanWriteDone(c, s, t)
    ensures Earned(DoWriteDone(c, s, t), won)
  {
    assert HandOk(s, won, s.threads[t]);
    RecordMove(s, DoWriteDone(c, s, t), won, won, t, s.threads[t].pc.index);
  }

  lemma DropWritesEarned(c: Config, s: State, t: nat, won: set<(nat, Bin)>)
    requires Earned(s, won) && CanDropWrites(c, s, t)
    ensures Earned(DoDropWrites(c, s, t), won)
  {
    RecordMove(s, DoDropWrites(c, s, t), won, won, t, s.threads[t].pc.index);
  }

  lemma AdmitEarned(c: Config, s: State, t: nat, item: Item, won: set<(nat, Bin)>)
    requires Earned(s, won) && CanAdmit(c, s, t, item)
    ensures Earned(DoAdmit(c, s, t, item), won)
  {
    var s' := DoAdmit(c, s, t, item);
    StableEntries(s, s', won, won, s.asrQ);
    forall i: nat | i < |s'.results| && s'.results[i].status == Done ensures AllWon(s', won, i) { assert AllWon(s, won, i); }
    FromMove(s, s', won, won, t);
  }

  predicate IsRecording(step: Step)
  {
    match step
    case ClaimStage(_) | StageSucceeds(_) | StageFails(_) | ClearStage(_) | WriteDone(_) | DropWrites(_) | Admit(_, _) => true
    case _ => false
  }

  lemma Recording(c: Config, s: State, step: Step, won: set<(nat, Bin)>)
    requires Earned(s, won) && Enabled(c, s, step) && IsRecording(step)
    ensures Earned(Apply(c, s, step), won + Gain(s, step))
  {
    if !step.StageSucceeds? { assert won + Gain(s, step) == won; }
    match step
    case ClaimStage(t) => ClaimStageEarned(c, s, t, won);
    case StageSucceeds(t) => StageSucceedsEarned(c, s, t, won);
    case StageFails(t) => StageFailsEarned(c, s, t, won);
    case ClearStage(t) => ClearStageEarned(c, s, t, won);
    case WriteDone(t) => WriteDoneEarned(c, s, t, won);
    case DropWrites(t) => DropWritesEarned(c, s, t, won);
    case Admit(t, item) => AdmitEarned(c, s, t, item, won);
    case _ =>
  }

  lemma StepEarned(c: Config, s: State, step: Step, won: set<(nat, Bin)>)
    requires Earned(s, won) && Enabled(c, s, step)
    ensures Earned(Apply(c, s, step), won + Gain(s, step))
  {
    if IsRecording(step) {
      Recording(c, s, step, won);
    } else {
      assert won + Gain(s, step) == won;
      if IsQuiet(step) {
        Quiet(c, s, step, won);
      } else if IsQueueing(step) {
        Queueing(c, s, step, won);
      } else {
        FewEarned(c, s, step, won);
      }
    }
  }

  lemma FewEarned(c: Config, s: State, step: Step, won: set<(nat, Bin)>)
    requires Earned(s, won) && Enabled(c, s, step) && (step.SubmitReady? || step.Boot? || step.Stop?)
    ensures Earned(Apply(c, s, step), won)
  {
    if step.SubmitReady? {
      SubmitReadyEarned(c, s, step.t, step.cost, won);
    } else if step.Boot? {
      BootEarned(c, s, won);
    } else {
      StopEarned(c, s, won);
    }
  }

  lemma {:induction false} RunEarned(c: Config, items: seq<Item>, states: seq<State>, steps: seq<Step>, k: nat)
    requires IsRun(c, items, states, steps) && k < |states|
    ensures Earned(states[k], Won(states, steps, k))
    decreases k
  {
    if k > 0 {
      RunEarned(c, items, states, steps, k - 1);
      StepEarned(c, states[k - 1], steps[k - 1], Won(states, steps, k - 1));
    }
  }

  /** An item is `done` only when each of its stages has succeeded, in the hands of a worker of its bin. */
  lemma DoneIsEarned(c: Config, items: seq<Item>, states: seq<State>, steps: seq<Step>, k: nat, i: nat, b: Bin)
    requires IsRun(c, items, states, steps) && k < |states| && i < |states[k].results| && states[k].results[i].status == Done
    requires i < |states[k].items| && b in states[k].items[i].stages
    ensures exists j :: 0 <= j < k && IsWin(states[j], steps[j], i, b)
  {
    RunEarned(c, items, states, steps, k);
    assert AllWon(states[k], Won(states, steps, k), i);
    var j := WonMeans(states, steps, k, i, b);
  }

  // ----- where a verdict comes from -----

  /** What gives item `i` this verdict: the last attempt at a stage raises; a drop, or an interrupt before a stage;
      or the very end. */
  predicate IsCause(s: State, step: Step, i: nat, status: Status)
  {
    && HasSubject(step) && step.t < |s.threads|
    && match status
       case Pending => false
       case Done => step.WriteDone? && s.threads[step.t].pc == MarkDone(i)
       case Failed =>
         step.StageFails? && s.threads[step.t].pc.Run? && s.threads[step.t].pc.index == i && (s.threads[step.t].pc.left <= 1 || s.stop)
       case Skipped =>
         || (step.DropWrites? && s.threads[step.t].pc == DropWrite(i))
         || (step.ClaimStage? && s.threads[step.t].pc == Claim(i) && s.stop)
  }

  ghost predicate ComesFrom(c: Config, s: State, s': State, step: Step, i: nat)
  {
    && i < |s.results| && i < |s'.results|
    && (s'.results[i].status != s.results[i].status ==> IsCause(s, step, i, s'.results[i].status))
  }

  lemma RecordingComesFrom(c: Config, s: State, step: Step, i: nat)
    requires Enabled(c, s, step) && IsRecording(step) && i < |s.results|
    ensures ComesFrom(c, s, Apply(c, s, step), step, i)
  {
  }

  lemma QuietComesFrom(c: Config, s: State, step: Step, i: nat)
    requires Enabled(c, s, step) && IsNeutral(step) && i < |s.results|
    ensures ComesFrom(c, s, Apply(c, s, step), step, i)
  {
    NeutralStep(c, s, step);
  }

  lemma VerdictComesFrom(c: Config, s: State, step: Step, i: nat)
    requires Enabled(c, s, step) && i < |s.results|
    ensures ComesFrom(c, s, Apply(c, s, step), step, i)
  {
    if IsNeutral(step) { QuietComesFrom(c, s, step, i); } else if IsRecording(step) { RecordingComesFrom(c, s, step, i); }
  }

  /** Every record there is was there before, or is new and pending. */
  lemma RecordsBefore(c: Config, s: State, step: Step, i: nat)
    requires Enabled(c, s, step) && |s.results| == |s.items| && i < |Apply(c, s, step).results|
    ensures i < |s.results| || Apply(c, s, step).results[i].status == Pending
  {
    if IsNeutral(step) { NeutralStep(c, s, step); }
  }

  /** Step `j` leaves the verdict on item `i` as it was, or is a cause of what it is then. */
  predicate Explains(states: seq<State>, steps: seq<Step>, j: nat, i: nat)
    requires j < |steps| && |states| == |steps| + 1
  {
    i < |states[j + 1].results| && states[j + 1].results[i].status != Pending ==>
      && i < |states[j].results|
      && (states[j + 1].results[i].status == states[j].results[i].status || IsCause(states[j], steps[j], i, states[j + 1].results[i].status))
  }

  lemma RunExplains(c: Config, items: seq<Item>, states: seq<State>, steps: seq<Step>, j: nat, i: nat)
    requires Sound(c) && IsRun(c, items, states, steps) && j < |steps|
    ensures Explains(states, steps, j, i)
  {
    if i < |states[j + 1].results| {
      RunKeeps(c, items, states, steps, j);
      RecordsBefore(c, states[j], steps[j], i);
      if i < |states[j].results| { VerdictComesFrom(c, states[j], steps[j], i); }
    }
  }

  lemma {:induction false} CauseBefore(states: seq<State>, steps: seq<Step>, k: nat, i: nat) returns (j: nat)
    requires |states| == |steps| + 1 && k < |states| && i < |states[k].results| && states[k].results[i].status != Pending
    requires forall j: nat :: j < k ==> Explains(states, steps, j, i)
    requires forall n :: 0 <= n < |states[0].results| ==> states[0].results[n].status == Pending
    ensures j < k && IsCause(states[j], steps[j], i, states[k].results[i].status)
    decreases k
  {
    assert k > 0 && Explains(states, steps, k - 1, i);
    if IsCause(states[k - 1], steps[k - 1], i, states[k].results[i].status) { j := k - 1; } else { j := CauseBefore(states, steps, k - 1, i); }
  }

  /** Every verdict was given by a step of the run that is a cause of just that verdict. */
  lemma VerdictHasCause(c: Config, items: seq<Item>, states: seq<State>, steps: seq<Step>, k: nat, i: nat)
    requires Sound(c) && IsRun(c, items, states, steps) && k < |states| && i < |states[k].results| && states[k].results[i].status != Pending
    ensures exists j :: 0 <= j < k && IsCause(states[j], steps[j], i, states[k].results[i].status)
  {
    forall j: nat | j < k ensures Explains(states, steps, j, i) { RunExplains(c, items, states, steps, j, i); }
    var j := CauseBefore(states, steps, k, i);
  }

  // ----- trying again -----

  /** A thread inside a stage call stays there until the call returns or raises. */
  lemma StaysInside(c: Config, s: State, step: Step, t: nat)
    requires Enabled(c, s, step) && t < |s.threads| && s.threads[t].pc.Run?
    ensures |Apply(c, s, step).threads| == |s.threads|
    ensures Apply(c, s, step).threads[t] == s.threads[t] || step == StageSucceeds(t) || step == StageFails(t)
  {
    if IsNeutral(step) {
      NeutralStep(c, s, step);
    } else if IsStageRecord(step) {
      StaysOverStages(c, s, step, t);
    } else if IsVerdictRecord(step) {
      StaysOverVerdicts(c, s, step, t);
    }
  }

  lemma StaysOverStages(c: Config, s: State, step: Step, t: nat)
    requires Enabled(c, s, step) && IsStageRecord(step) && t < |s.threads| && s.threads[t].pc.Run?
    ensures |Apply(c, s, step).threads| == |s.threads|
    ensures Apply(c, s, step).threads[t] == s.threads[t] || step == StageSucceeds(t) || step == StageFails(t)
  {
  }

  lemma StaysOverVerdicts(c: Config, s: State, step: Step, t: nat)
    requires Enabled(c, s, step) && IsVerdictRecord(step) && t < |s.threads| && s.threads[t].pc.Run?
    ensures |Apply(c, s, step).threads| == |s.threads|
    ensures Apply(c, s, step).threads[t] == s.threads[t]
  {
  }

  /** How often the stage call of thread `t` raises in the steps `a..b`. */
  function Raises(steps: seq<Step>, t: nat, a: nat, b: nat): nat
    requires a <= b <= |steps|
  {
    if a == b then 0 else Raises(steps, t, a, b - 1) + if steps[b - 1] == StageFails(t) then 1 else 0
  }

  /** From the claim at step `a` on, thread `t` has been inside the stage of item `i` up to state `b`. */
  predicate Inside(states: seq<State>, steps: seq<Step>, t: nat, i: nat, a: nat, b: nat)
  {
    && a < b < |states| && |steps| + 1 == |states| && steps[a] == ClaimStage(t)
    && t < |states[a].threads| && states[a].threads[t].pc == Claim(i)
    && forall j :: a < j <= b ==> t < |states[j].threads| && states[j].threads[t].pc.Run?
  }

  /** A stage is entered with all its attempts. */
  lemma EntersFresh(c: Config, s: State, t: nat, i: nat)
    requires Enabled(c, s, ClaimStage(t)) && t < |s.threads| && s.threads[t].pc == Claim(i)
    requires t < |Apply(c, s, ClaimStage(t)).threads| && Apply(c, s, ClaimStage(t)).threads[t].pc.Run?
    ensures Apply(c, s, ClaimStage(t)).threads[t].pc == Run(i, c.attempts)
  {
    assert CanClaimStage(c, s, t) && Apply(c, s, ClaimStage(t)) == DoClaimStage(c, s, t);
  }

  /** What step `j` does to thread `t` inside a stage. */
  predicate MovesInside(states: seq<State>, steps: seq<Step>, t: nat, j: nat)
    requires j < |steps| && |states| == |steps| + 1
  {
    && t < |states[j].threads| == |states[j + 1].threads| && states[j].threads[t].pc.Run?
    && var pc, pc' := states[j].threads[t].pc, states[j + 1].threads[t].pc;
       if steps[j] == StageSucceeds(t) then pc' == AfterStage(pc.index)
       else if steps[j] == StageFails(t) then
         pc' == if pc.left > 1 && !states[j].stop then Run(pc.index, pc.left - 1) else Failing(pc.index)
       else pc' == pc
  }

  /** Inside a stage every raise has used up one attempt, and one at least is left. */
  lemma {:induction false} AttemptsUsed(states: seq<State>, steps: seq<Step>, t: nat, i: nat, a: nat, b: nat, attempts: nat)
    requires Inside(states, steps, t, i, a, b) && attempts >= 1 && states[a + 1].threads[t].pc == Run(i, attempts)
    requires forall j: nat :: a < j < b ==> MovesInside(states, steps, t, j)
    ensures states[b].threads[t].pc.Run? && states[b].threads[t].pc.index == i
    ensures states[b].threads[t].pc.left >= 1 && states[b].threads[t].pc.left + Raises(steps, t, a + 1, b) == attempts
    decreases b
  {
    if b > a + 1 {
      AttemptsUsed(states, steps, t, i, a, b - 1, attempts);
      assert MovesInside(states, steps, t, b - 1);
    }
  }

  lemma RunMovesInside(c: Config, items: seq<Item>, states: seq<State>, steps: seq<Step>, t: nat, j: nat)
    requires IsRun(c, items, states, steps) && j < |steps| && t < |states[j].threads| && states[j].threads[t].pc.Run?
    ensures MovesInside(states, steps, t, j)
  {
    StaysInside(c, states[j], steps[j], t);
    InsideStep(c, states[j], steps[j], t);
  }

  lemma AttemptsLeft(c: Config, items: seq<Item>, states: seq<State>, steps: seq<Step>, t: nat, i: nat, a: nat, b: nat)
    requires Sound(c) && IsRun(c, items, states, steps) && Inside(states, steps, t, i, a, b)
    ensures states[b].threads[t].pc.Run? && states[b].threads[t].pc.index == i
    ensures states[b].threads[t].pc.left >= 1 && states[b].threads[t].pc.left + Raises(steps, t, a + 1, b) == c.attempts
  {
    assert states[a + 1].threads[t].pc.Run? && states[a + 1] == Apply(c, states[a], steps[a]);
    EntersFresh(c, states[a], t, i);
    forall j: nat | a < j < b ensures MovesInside(states, steps, t, j) { RunMovesInside(c, items, states, steps, t, j); }
    AttemptsUsed(states, steps, t, i, a, b, c.attempts);
  }

  /** What a step of the thread itself does inside a stage. */
  lemma InsideStep(c: Config, s: State, step: Step, t: nat)
    requires Enabled(c, s, step) && t < |s.threads| && s.threads[t].pc.Run?
    ensures |Apply(c, s, step).threads| == |s.threads|
    ensures var pc, s' := s.threads[t].pc, Apply(c, s, step);
      && (step == StageSucceeds(t) ==> s'.threads[t].pc == AfterStage(pc.index))
      && (step == StageFails(t) ==>
            if pc.left > 1 && !s.stop then s'.threads[t].pc == Run(pc.index, pc.left - 1)
            else s'.threads[t].pc == Failing(pc.index) && pc.index < |s'.results| && s'.results[pc.index].status == Failed)
  {
    StaysInside(c, s, step, t);
    if step == StageFails(t) { assert CanStageFails(c, s, t); }
    if step == StageSucceeds(t) { assert CanStageSucceeds(c, s, t); }
  }

  /** A stage that is entered is left in one of two ways: the call returns; or it raises, all its attempts
      used up or an interrupt set, and then the item has failed. A call that raises before is tried again. */
  lemma TriedAgain(c: Config, items: seq<Item>, states: seq<State>, steps: seq<Step>, t: nat, i: nat, a: nat, b: nat)
    requires Sound(c) && IsRun(c, items, states, steps) && Inside(states, steps, t, i, a, b) && b < |steps|
    ensures t < |states[b + 1].threads| && Raises(steps, t, a + 1, b + 1) <= c.attempts
    ensures states[b + 1].threads[t].pc.Run? <==>
              steps[b] != StageSucceeds(t) && (steps[b] == StageFails(t) ==> Raises(steps, t, a + 1, b + 1) < c.attempts && !states[b].stop)
    ensures !states[b + 1].threads[t].pc.Run? && steps[b] == StageFails(t) ==>
              && (Raises(steps, t, a + 1, b + 1) == c.attempts || states[b].stop)
              && i < |states[b + 1].results| && states[b + 1].results[i].status == Failed
  {
    AttemptsLeft(c, items, states, steps, t, i, a, b);
    StaysInside(c, states[b], steps[b], t);
    InsideStep(c, states[b], steps[b], t);
  }
}
