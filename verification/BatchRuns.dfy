/** Every step keeps the invariant of a batch, so every state of every run has it. */
module BatchRuns {
  import opened BatchModel
  import opened BatchCounts
  import opened BatchInvariant
  import opened BatchCalm
  import opened BatchMoves
  import S = LlmScheduling

  lemma IsReady(c: Config, s: State, t: nat)
    requires Shape(c, s) && Bounded(c, s) && t < |s.threads|
    ensures Ready(c, s, t)
  {
    assert Placed(c, s, t);
  }

  predicate IsStageCalm(step: Step)
  {
    match step
    case ClaimStage(_) | StageSucceeds(_) | StageFails(_) | ClearStage(_) | DrawEntry(_) => true
    case _ => false
  }

  lemma StageCalmKeeps(c: Config, s: State, step: Step)
    requires Invariant(c, s) && Enabled(c, s, step) && IsStageCalm(step)
    ensures Invariant(c, Apply(c, s, step))
  {
    IsReady(c, s, step.t);
    match step
    case ClaimStage(t) => ClaimStageIsCalm(c, s, t); CalmKeeps(c, s, DoClaimStage(c, s, t), t);
    case StageSucceeds(t) => StageSucceedsIsCalm(c, s, t); CalmKeeps(c, s, DoStageSucceeds(c, s, t), t);
    case StageFails(t) => StageFailsIsCalm(c, s, t); CalmKeeps(c, s, DoStageFails(c, s, t), t);
    case ClearStage(t) => ClearStageIsCalm(c, s, t); CalmKeeps(c, s, DoClearStage(c, s, t), t);
    case DrawEntry(t) => DrawEntryIsCalm(c, s, t); CalmKeeps(c, s, DoDrawEntry(c, s, t), t);
    case _ =>
  }

  predicate IsSendCalm(step: Step)
  {
    match step
    case BlockOnPut(_) | DrawSentinel(_) | SendDone(_) | ReadVerdict(_) | WriteDone(_) => true
    case _ => false
  }

  lemma SendCalmKeeps(c: Config, s: State, step: Step)
    requires Invariant(c, s) && Enabled(c, s, step) && IsSendCalm(step)
    ensures Invariant(c, Apply(c, s, step))
  {
    IsReady(c, s, step.t);
    match step {
      case BlockOnPut(t) => BlockOnPutIsCalm(c, s, t);
      case DrawSentinel(t) => DrawSentinelIsCalm(c, s, t);
      case SendDone(t) => SendDoneIsCalm(c, s, t);
      case ReadVerdict(t) => ReadVerdictIsCalm(c, s, t);
      case WriteDone(t) => WriteDoneIsCalm(c, s, t);
      case _ =>
    }
    CalmKeeps(c, s, Apply(c, s, step), step.t);
  }

  predicate IsActionCalm(step: Step)
  {
    match step
    case BeginDrop(_, _) | DropReads(_) | DropWrites(_) | Reprioritise(_, _, _) => true
    case _ => false
  }

  lemma ActionCalmKeeps(c: Config, s: State, step: Step)
    requires Invariant(c, s) && Enabled(c, s, step) && IsActionCalm(step)
    ensures Invariant(c, Apply(c, s, step))
  {
    IsReady(c, s, step.t);
    match step {
      case BeginDrop(t, i) => BeginDropIsCalm(c, s, t, i);
      case DropReads(t) => DropReadsIsCalm(c, s, t);
      case DropWrites(t) => DropWritesIsCalm(c, s, t);
      case Reprioritise(t, i, p) => ReprioritiseIsCalm(c, s, t, i, p);
      case _ =>
    }
    CalmKeeps(c, s, Apply(c, s, step), step.t);
  }

  predicate IsRekeyCalm(step: Step)
  {
    match step
    case TellScheduler(_) | LockForRekey(_) | EndRekey(_) => true
    case _ => false
  }

  lemma RekeyCalmKeeps(c: Config, s: State, step: Step)
    requires Invariant(c, s) && Enabled(c, s, step) && IsRekeyCalm(step)
    ensures Invariant(c, Apply(c, s, step))
  {
    IsReady(c, s, step.t);
    match step {
      case TellScheduler(t) => TellSchedulerIsCalm(c, s, t);
      case LockForRekey(t) => LockForRekeyIsCalm(c, s, t);
      case EndRekey(t) => EndRekeyIsCalm(c, s, t);
      case _ =>
    }
    CalmKeeps(c, s, Apply(c, s, step), step.t);
  }

  predicate IsQueueStep(step: Step)
  {
    match step
    case TakeDownload(_) | PutEntry(_) | CountForwarded(_) | TakeAsr(_, _) | SubmitReady(_, _) => true
    case _ => false
  }

  lemma QueueKeeps(c: Config, s: State, step: Step)
    requires Invariant(c, s) && Enabled(c, s, step) && IsQueueStep(step)
    ensures Invariant(c, Apply(c, s, step))
  {
    match step
    case TakeDownload(t) => TakeDownloadKeeps(c, s, t);
    case PutEntry(t) => PutEntryKeeps(c, s, t);
    case CountForwarded(t) => CountForwardedKeeps(c, s, t);
    case TakeAsr(t, j) => TakeAsrKeeps(c, s, t, j);
    case SubmitReady(t, cost) => SubmitReadyKeeps(c, s, t, cost);
    case _ =>
  }

  predicate IsLlmStep(step: Step)
  {
    match step
    case Dispatch(_, _) | LeaveLlm(_) | FinishLlm(_) | CountCompleted(_) => true
    case _ => false
  }

  lemma LlmKeeps(c: Config, s: State, step: Step)
    requires Invariant(c, s) && Enabled(c, s, step) && IsLlmStep(step)
    ensures Invariant(c, Apply(c, s, step))
  {
    match step
    case Dispatch(t, i) => DispatchKeeps(c, s, t, i);
    case LeaveLlm(t) => LeaveLlmKeeps(c, s, t);
    case FinishLlm(t) => FinishLlmKeeps(c, s, t);
    case CountCompleted(t) => CountCompletedKeeps(c, s, t);
    case _ =>
  }

  predicate IsAdmission(step: Step)
  {
    match step
    case Admit(_, _) | RegisterItem(_) | Enqueue(_) | DrainOne(_, _) | RefillOne(_) => true
    case _ => false
  }

  lemma AdmissionKeeps(c: Config, s: State, step: Step)
    requires Invariant(c, s) && Enabled(c, s, step) && IsAdmission(step)
    ensures Invariant(c, Apply(c, s, step))
  {
    match step
    case Admit(t, item) => AdmitKeeps(c, s, t, item);
    case RegisterItem(t) => RegisterItemKeeps(c, s, t);
    case Enqueue(t) => EnqueueKeeps(c, s, t);
    case DrainOne(t, j) => DrainOneKeeps(c, s, t, j);
    case RefillOne(t) => RefillOneKeeps(c, s, t);
    case _ =>
  }

  predicate IsClosing(step: Step)
  {
    match step
    case CloseIntake(_, _) | HaltOne(_) | CloseScheduler(_) => true
    case _ => false
  }

  lemma ClosingKeeps(c: Config, s: State, step: Step)
    requires Invariant(c, s) && Enabled(c, s, step) && IsClosing(step)
    ensures Invariant(c, Apply(c, s, step))
  {
    match step
    case CloseIntake(t, reason) => CloseIntakeKeeps(c, s, t, reason);
    case HaltOne(t) => HaltOneKeeps(c, s, t);
    case CloseScheduler(t) => CloseSchedulerKeeps(c, s, t);
    case _ =>
  }

  /** Every step keeps the invariant. */
  predicate IsCalm(step: Step)
  {
    IsStageCalm(step) || IsSendCalm(step) || IsActionCalm(step) || IsRekeyCalm(step)
  }

  lemma CalmStepKeeps(c: Config, s: State, step: Step)
    requires Invariant(c, s) && Enabled(c, s, step) && IsCalm(step)
    ensures Invariant(c, Apply(c, s, step))
  {
    if IsStageCalm(step) {
      StageCalmKeeps(c, s, step);
    } else if IsSendCalm(step) {
      SendCalmKeeps(c, s, step);
    } else if IsActionCalm(step) {
      ActionCalmKeeps(c, s, step);
    } else {
      RekeyCalmKeeps(c, s, step);
    }
  }

  lemma MovingStepKeeps(c: Config, s: State, step: Step)
    requires Invariant(c, s) && Enabled(c, s, step) && (IsQueueStep(step) || IsLlmStep(step) || IsAdmission(step) || IsClosing(step))
    ensures Invariant(c, Apply(c, s, step))
  {
    if IsQueueStep(step) {
      QueueKeeps(c, s, step);
    } else if IsLlmStep(step) {
      LlmKeeps(c, s, step);
    } else if IsAdmission(step) {
      AdmissionKeeps(c, s, step);
    } else {
      ClosingKeeps(c, s, step);
    }
  }

  lemma StepKeeps(c: Config, s: State, step: Step)
    requires Invariant(c, s) && Enabled(c, s, step)
    ensures Invariant(c, Apply(c, s, step))
  {
    if IsCalm(step) {
      CalmStepKeeps(c, s, step);
    } else if step.Boot? {
      BootKeeps(c, s);
    } else if step.Stop? {
      StopKeeps(c, s);
    } else {
      MovingStepKeeps(c, s, step);
    }
  }

  lemma {:induction false} JobsTotal(lo: nat, n: nat, q: seq<Message>, i: nat)
    requires |q| == n && forall k :: 0 <= k < n ==> q[k] == Job(lo + k)
    ensures MessageTotal(Holds(i), q) == One(lo <= i < lo + n)
    ensures MessageTotal(PreForward, q) == n && MessageTotal(Halts, q) == 0
    decreases n
  {
    if n > 0 { JobsTotal(lo + 1, n - 1, q[1..], i); }
  }

  lemma {:induction false} HaltsTotal(q: seq<Message>, i: nat)
    requires forall k :: 0 <= k < |q| ==> q[k].Halt?
    ensures MessageTotal(Holds(i), q) == 0 && MessageTotal(PreForward, q) == 0 && MessageTotal(Halts, q) == |q|
  {
    if q != [] { HaltsTotal(q[1..], i); }
  }

  lemma InitQueue(c: Config, items: seq<Item>, i: nat)
    ensures var q := Init(c, items).downloadQ;
      && MessageTotal(Holds(i), q) == One(i < |items|) && MessageTotal(PreForward, q) == |items|
      && MessageTotal(Halts, q) == (if c.growing then 0 else c.downloads)
  {
    var halts := if c.growing then [] else seq(c.downloads, _ => Halt);
    JobsTotal(0, |items|, Jobs(|items|), i);
    HaltsTotal(halts, i);
    MessageConcat(Holds(i), Jobs(|items|), halts);
    MessageConcat(PreForward, Jobs(|items|), halts);
    MessageConcat(Halts, Jobs(|items|), halts);
  }

  lemma InitTotals(c: Config, items: seq<Item>)
    ensures forall g: Gauge :: !g.Energy? && !g.AsrLeft? && !g.DownloadLeft? ==> Total(c, g, Init(c, items).threads) == 0
  {
    forall g: Gauge | !g.Energy? && !g.AsrLeft? && !g.DownloadLeft? { TotalZero(c, g, Init(c, items).threads); }
  }

  lemma InitPlaces(c: Config, items: seq<Item>)
    ensures Conserved(c, Init(c, items))
  {
    var s := Init(c, items);
    InitTotals(c, items);
    forall i: nat ensures Places(c, s, i) == One(i < |s.items|) { InitQueue(c, items, i); }
  }

  lemma InitSchedule(c: Config, items: seq<Item>)
    ensures Scheduled(c, Init(c, items))
  {
    InitTotals(c, items);
    S.InitValid(seq(|items|, i requires 0 <= i < |items| => items[i].group),
                seq(|items|, i requires 0 <= i < |items| => items[i].priority), !c.growing);
  }

  lemma InitShape(c: Config, items: seq<Item>)
    requires Sound(c)
    ensures var s := Init(c, items); Shape(c, s) && Gates(c, s) && Bounded(c, s)
  {
    forall t | 0 <= t < |Init(c, items).threads| ensures Placed(c, Init(c, items), t) {}
  }

  lemma InitCounters(c: Config, items: seq<Item>)
    ensures var s := Init(c, items); Counters(c, s) && MarkersLast(c, s)
  {
    InitTotals(c, items);
    InitQueue(c, items, 0);
  }

  lemma InitKeeps(c: Config, items: seq<Item>)
    requires Sound(c)
    ensures Invariant(c, Init(c, items))
  {
    InitShape(c, items);
    InitCounters(c, items);
    InitPlaces(c, items);
    InitSchedule(c, items);
  }

  /** Every state of every run satisfies the invariant. */
  lemma {:induction false} RunKeeps(c: Config, items: seq<Item>, states: seq<State>, steps: seq<Step>, k: nat)
    requires Sound(c) && IsRun(c, items, states, steps) && k < |states|
    ensures Invariant(c, states[k])
    decreases k
  {
    if k == 0 {
      InitKeeps(c, items);
    } else {
      RunKeeps(c, items, states, steps, k - 1);
      StepKeeps(c, states[k - 1], steps[k - 1]);
    }
  }
}
