/** A batch whose intake is closed runs to its end: some thread can always move, and no run is longer
    than a number that can be read off the state. Every step brings that number down, be it only by
    what the threads and the queues of the batch still have to do. */
module BatchLiveness {
  import opened Wrappers
  import opened BatchModel
  import opened BatchCounts
  import opened BatchInvariant
  import opened BatchRuns
  import S = LlmScheduling

  // ----- termination -----

  function G(c: Config): Gauge
  {
    Energy(c.attempts, c.downloads)
  }

  /** What `n` items waiting for an llm worker count for. */
  function ReadyLoad(attempts: nat, n: nat): nat
  {
    if n == 0 then 0 else 8 + attempts + ReadyLoad(attempts, n - 1)
  }

  /** Bounds the number of steps left once the intake is closed. */
  function StepsLeft(c: Config, s: State): nat
  {
    (if s.stop then 0 else 1) + 2 * s.boot + (if s.sentinelsSent then 0 else 4 * c.asrs)
    + MessageTotal(G(c), s.downloadQ) + EntryTotal(G(c), s.asrQ) + Total(c, G(c), s.threads)
    + ReadyLoad(c.attempts, |s.sched.ready.Keys - s.sched.dispatched|)
  }

  /** The part of the measure outside the threads. */
  function Around(c: Config, s: State): nat
  {
    (if s.sentinelsSent then 0 else 4 * c.asrs)
    + MessageTotal(G(c), s.downloadQ) + EntryTotal(G(c), s.asrQ)
    + ReadyLoad(c.attempts, |s.sched.ready.Keys - s.sched.dispatched|)
  }

  /** What thread `th` itself counts for. */
  function Left(c: Config, th: Thread): nat
  {
    PcEnergy(c.attempts, c.downloads, th)
  }

  ghost predicate LocalDrop(c: Config, s: State, s': State, t: nat)
  {
    && OnlyMoves(s, s', t) && s'.stop == s.stop && s'.boot == s.boot
    && Around(c, s') + Left(c, s'.threads[t]) < Around(c, s) + Left(c, s.threads[t])
  }

  lemma DropFromLocal(c: Config, s: State, s': State, t: nat)
    requires LocalDrop(c, s, s', t)
    ensures StepsLeft(c, s') < StepsLeft(c, s)
  {
    TotalUpdate(c, G(c), s.threads, t, s'.threads[t]);
  }

  lemma ClaimStageDrops(c: Config, s: State, t: nat)
    requires CanClaimStage(c, s, t)
    ensures LocalDrop(c, s, DoClaimStage(c, s, t), t)
  {
  }

  lemma StageSucceedsDrops(c: Config, s: State, t: nat)
    requires CanStageSucceeds(c, s, t)
    ensures LocalDrop(c, s, DoStageSucceeds(c, s, t), t)
  {
  }

  lemma StageFailsDrops(c: Config, s: State, t: nat)
    requires CanStageFails(c, s, t)
    ensures LocalDrop(c, s, DoStageFails(c, s, t), t)
  {
    var s' := DoStageFails(c, s, t);
    assert s'.sched == s.sched && s'.asrQ == s.asrQ && s'.downloadQ == s.downloadQ;
    assert s'.sentinelsSent == s.sentinelsSent;
  }

  lemma ClearStageDrops(c: Config, s: State, t: nat)
    requires CanClearStage(c, s, t)
    ensures LocalDrop(c, s, DoClearStage(c, s, t), t)
  {
  }

  lemma DrawEntryDrops(c: Config, s: State, t: nat)
    requires CanDrawEntry(c, s, t)
    ensures LocalDrop(c, s, DoDrawEntry(c, s, t), t)
  {
  }

  lemma BlockOnPutDrops(c: Config, s: State, t: nat)
    requires CanBlockOnPut(c, s, t)
    ensures LocalDrop(c, s, DoBlockOnPut(c, s, t), t)
  {
  }

  lemma DrawSentinelDrops(c: Config, s: State, t: nat)
    requires CanDrawSentinel(c, s, t)
    ensures LocalDrop(c, s, DoDrawSentinel(c, s, t), t)
  {
  }

  lemma SendDoneDrops(c: Config, s: State, t: nat)
    requires CanSendDone(c, s, t)
    ensures LocalDrop(c, s, DoSendDone(c, s, t), t)
  {
  }

  lemma CountForwardedDrops(c: Config, s: State, t: nat)
    requires CanCountForwarded(c, s, t)
    ensures LocalDrop(c, s, DoCountForwarded(c, s, t), t)
  {
  }

  lemma ReadVerdictDrops(c: Config, s: State, t: nat)
    requires CanReadVerdict(c, s, t)
    ensures LocalDrop(c, s, DoReadVerdict(c, s, t), t)
  {
  }

  lemma WriteDoneDrops(c: Config, s: State, t: nat)
    requires CanWriteDone(c, s, t)
    ensures LocalDrop(c, s, DoWriteDone(c, s, t), t)
  {
  }

  lemma CountCompletedDrops(c: Config, s: State, t: nat)
    requires CanCountCompleted(c, s, t)
    ensures LocalDrop(c, s, DoCountCompleted(c, s, t), t)
  {
  }

  lemma LeaveLlmDrops(c: Config, s: State, t: nat)
    requires CanLeaveLlm(c, s, t)
    ensures LocalDrop(c, s, DoLeaveLlm(c, s, t), t)
  {
  }

  lemma FinishLlmDrops(c: Config, s: State, t: nat)
    requires CanFinishLlm(c, s, t)
    ensures LocalDrop(c, s, DoFinishLlm(c, s, t), t)
  {
  }

  lemma CloseSchedulerDrops(c: Config, s: State, t: nat)
    requires CanCloseScheduler(c, s, t)
    ensures LocalDrop(c, s, DoCloseScheduler(c, s, t), t)
  {
    var s' := DoCloseScheduler(c, s, t);
    assert s'.sched.ready == s.sched.ready && s'.sched.dispatched == s.sched.dispatched;
  }

  lemma PutEntryDrops(c: Config, s: State, t: nat)
    requires CanPutEntry(c, s, t)
    ensures LocalDrop(c, s, DoPutEntry(c, s, t), t)
  {
    EntryAppended(G(c), s.asrQ, s.threads[t].pc.entry);
  }

  lemma TakeAsrDrops(c: Config, s: State, t: nat, j: nat)
    requires CanTakeAsr(c, s, t, j)
    ensures LocalDrop(c, s, DoTakeAsr(c, s, t, j), t)
  {
    EntryRemoved(G(c), s.asrQ, j);
  }

  lemma TakeDownloadDrops(c: Config, s: State, t: nat)
    requires CanTakeDownload(c, s, t)
    ensures LocalDrop(c, s, DoTakeDownload(c, s, t), t)
  {
  }

  lemma OneMoreReady(ready: map<nat, real>, dispatched: set<nat>, i: nat, cost: real)
    requires i !in ready && i !in dispatched
    ensures |ready[i := cost].Keys - dispatched| == |ready.Keys - dispatched| + 1
  {
    assert ready[i := cost].Keys - dispatched == (ready.Keys - dispatched) + {i};
  }

  lemma SubmitReadyDrops(c: Config, s: State, t: nat, cost: real)
    requires CanSubmitReady(c, s, t, cost)
    requires s.threads[t].pc.index !in s.sched.ready && s.threads[t].pc.index !in s.sched.dispatched
    ensures LocalDrop(c, s, DoSubmitReady(c, s, t, cost), t)
  {
    var i := s.threads[t].pc.index;
    OneMoreReady(s.sched.ready, s.sched.dispatched, i, cost);
    assert DoSubmitReady(c, s, t, cost).sched.ready == s.sched.ready[i := cost];
  }

  lemma DispatchDrops(c: Config, s: State, t: nat, i: nat)
    requires CanDispatch(c, s, t, i)
    ensures LocalDrop(c, s, DoDispatch(c, s, t, i), t)
  {
    var w := s.sched.ready.Keys - s.sched.dispatched;
    assert s.sched.ready.Keys - (s.sched.dispatched + {i}) == w - {i};
  }

  lemma HaltOneDrops(c: Config, s: State, t: nat)
    requires CanHaltOne(c, s, t)
    ensures LocalDrop(c, s, DoHaltOne(c, s, t), t)
  {
    MessageAppended(G(c), s.downloadQ, Halt);
  }

  /** The steps of `Admit` and of the actions are those of an open intake. */
  predicate NeedsOpenIntake(step: Step)
  {
    match step
    case Admit(_, _) | RegisterItem(_) | Enqueue(_) | BeginDrop(_, _) | DropReads(_) | DropWrites(_) => true
    case Reprioritise(_, _, _) | TellScheduler(_) | LockForRekey(_) | DrainOne(_, _) | RefillOne(_) => true
    case EndRekey(_) | CloseIntake(_, _) => true
    case _ => false
  }

  lemma IntakeIsOpen(c: Config, s: State, step: Step)
    requires Shape(c, s) && Gates(c, s) && Enabled(c, s, step) && NeedsOpenIntake(step)
    ensures !s.intakeClosed
  {
    KeeperIs(c, s, step.t);
  }

  lemma StageDrops(c: Config, s: State, step: Step)
    requires Enabled(c, s, step)
    requires step.ClaimStage? || step.StageSucceeds? || step.StageFails? || step.ClearStage? || step.DrawEntry?
             || step.BlockOnPut? || step.DrawSentinel? || step.SendDone?
    ensures LocalDrop(c, s, Apply(c, s, step), step.t)
  {
    match step
    case ClaimStage(t) => ClaimStageDrops(c, s, t);
    case StageSucceeds(t) => StageSucceedsDrops(c, s, t);
    case StageFails(t) => StageFailsDrops(c, s, t);
    case ClearStage(t) => ClearStageDrops(c, s, t);
    case DrawEntry(t) => DrawEntryDrops(c, s, t);
    case BlockOnPut(t) => BlockOnPutDrops(c, s, t);
    case DrawSentinel(t) => DrawSentinelDrops(c, s, t);
    case SendDone(t) => SendDoneDrops(c, s, t);
    case _ =>
  }

  lemma TailDrops(c: Config, s: State, step: Step)
    requires Enabled(c, s, step)
    requires step.CountForwarded? || step.ReadVerdict? || step.WriteDone? || step.CountCompleted? || step.LeaveLlm?
             || step.FinishLlm? || step.HaltOne? || step.CloseScheduler?
    ensures LocalDrop(c, s, Apply(c, s, step), step.t)
  {
    match step
    case CountForwarded(t) => CountForwardedDrops(c, s, t);
    case ReadVerdict(t) => ReadVerdictDrops(c, s, t);
    case WriteDone(t) => WriteDoneDrops(c, s, t);
    case CountCompleted(t) => CountCompletedDrops(c, s, t);
    case LeaveLlm(t) => LeaveLlmDrops(c, s, t);
    case FinishLlm(t) => FinishLlmDrops(c, s, t);
    case HaltOne(t) => HaltOneDrops(c, s, t);
    case CloseScheduler(t) => CloseSchedulerDrops(c, s, t);
    case _ =>
  }

  lemma QueueDrops(c: Config, s: State, step: Step)
    requires Invariant(c, s) && Enabled(c, s, step)
    requires step.TakeDownload? || step.PutEntry? || step.TakeAsr? || step.SubmitReady? || step.Dispatch?
    ensures LocalDrop(c, s, Apply(c, s, step), step.t)
  {
    match step
    case TakeDownload(t) => TakeDownloadDrops(c, s, t);
    case PutEntry(t) => PutEntryDrops(c, s, t);
    case TakeAsr(t, j) => TakeAsrDrops(c, s, t, j);
    case SubmitReady(t, cost) => HandIsExclusive(c, s, t); HandIsUndispatched(c, s, t); SubmitReadyDrops(c, s, t, cost);
    case Dispatch(t, i) => DispatchDrops(c, s, t, i);
    case _ =>
  }

  /** With the intake closed, every step brings the batch nearer to its end. */
  lemma StepDrops(c: Config, s: State, step: Step)
    requires Invariant(c, s) && Enabled(c, s, step) && s.intakeClosed
    ensures StepsLeft(c, Apply(c, s, step)) < StepsLeft(c, s)
    ensures Apply(c, s, step).intakeClosed
  {
    if NeedsOpenIntake(step) {
      IntakeIsOpen(c, s, step);
    } else if step.Boot? {
      EntryAppended(G(c), s.asrQ, Entry(None, 0, s.arrivals));
    } else if step.Stop? {
    } else {
      if step.TakeDownload? || step.PutEntry? || step.TakeAsr? || step.SubmitReady? || step.Dispatch? {
        QueueDrops(c, s, step);
      } else if step.CountForwarded? || step.ReadVerdict? || step.WriteDone? || step.CountCompleted? || step.LeaveLlm?
                || step.FinishLlm? || step.HaltOne? || step.CloseScheduler? {
        TailDrops(c, s, step);
      } else {
        StageDrops(c, s, step);
      }
      DropFromLocal(c, s, Apply(c, s, step), step.t);
      ClosedStays(c, s, step);
    }
  }

  /** The intake is closed, and the markers announced, for good. */
  ghost predicate FlagsStay(s: State, s': State)
  {
    (s.intakeClosed ==> s'.intakeClosed) && (s.sentinelsSent ==> s'.sentinelsSent)
  }

  /** The step neither closes the intake nor loses an item. */
  ghost predicate Flagless(s: State, s': State)
  {
    s'.intakeClosed == s.intakeClosed && s'.lost == s.lost && (s.sentinelsSent ==> s'.sentinelsSent)
  }

  lemma CalmFlags(c: Config, s: State, step: Step)
    requires Enabled(c, s, step) && (IsStageCalm(step) || IsSendCalm(step))
    ensures Flagless(s, Apply(c, s, step))
  {
  }

  lemma IntakeFlags(c: Config, s: State, step: Step)
    requires Enabled(c, s, step) && (IsActionCalm(step) || IsRekeyCalm(step) || IsAdmission(step))
    ensures Flagless(s, Apply(c, s, step))
  {
  }

  lemma QueueFlags(c: Config, s: State, step: Step)
    requires Enabled(c, s, step) && (IsQueueStep(step) || IsLlmStep(step))
    ensures Flagless(s, Apply(c, s, step))
  {
  }

  lemma FewFlags(c: Config, s: State, step: Step)
    requires Enabled(c, s, step) && (step.Boot? || step.Stop? || step.HaltOne? || step.CloseScheduler?)
    ensures Flagless(s, Apply(c, s, step))
  {
  }

  /** Only closing the intake touches what it stands for. */
  lemma OtherFlags(c: Config, s: State, step: Step)
    requires Enabled(c, s, step) && !step.CloseIntake?
    ensures Flagless(s, Apply(c, s, step))
  {
    if IsStageCalm(step) || IsSendCalm(step) {
      CalmFlags(c, s, step);
    } else if IsActionCalm(step) || IsRekeyCalm(step) || IsAdmission(step) {
      IntakeFlags(c, s, step);
    } else if IsQueueStep(step) || IsLlmStep(step) {
      QueueFlags(c, s, step);
    } else {
      FewFlags(c, s, step);
    }
  }

  lemma ClosedStays(c: Config, s: State, step: Step)
    requires Enabled(c, s, step)
    ensures FlagsStay(s, Apply(c, s, step))
  {
    if !step.CloseIntake? { OtherFlags(c, s, step); }
  }

  lemma RunStepDrops(c: Config, items: seq<Item>, states: seq<State>, steps: seq<Step>, k: nat)
    requires Sound(c) && IsRun(c, items, states, steps)
    requires k < |steps| && states[k].intakeClosed
    ensures states[k + 1].intakeClosed && StepsLeft(c, states[k + 1]) < StepsLeft(c, states[k])
  {
    RunKeeps(c, items, states, steps, k);
    StepDrops(c, states[k], steps[k]);
  }

  /** What falls with every step, once it has begun to, bounds the steps. */
  lemma {:induction false} Countdown(left: seq<int>, closed: seq<bool>, m: nat, k: nat)
    requires m <= k < |left| == |closed| && closed[m]
    requires forall j: nat :: j + 1 < |left| && closed[j] ==> Falls(left, closed, j)
    ensures closed[k] && k - m <= left[m] - left[k]
    decreases k
  {
    if k > m {
      Countdown(left, closed, m, k - 1);
      assert Falls(left, closed, k - 1);
    }
  }

  predicate Falls(left: seq<int>, closed: seq<bool>, j: nat)
    requires j + 1 < |left| == |closed|
  {
    closed[j + 1] && left[j + 1] < left[j]
  }

  /** From the moment the intake is closed a run takes at most `StepsLeft` more steps, whatever
      the threads, the stages and the interrupts do. */
  lemma Terminates(c: Config, items: seq<Item>, states: seq<State>, steps: seq<Step>, m: nat, k: nat)
    requires Sound(c) && IsRun(c, items, states, steps)
    requires m <= k < |states| && states[m].intakeClosed
    ensures states[k].intakeClosed && k - m <= StepsLeft(c, states[m]) - StepsLeft(c, states[k])
  {
    var left: seq<int> := seq(|states|, j requires 0 <= j < |states| => StepsLeft(c, states[j]));
    var closed := seq(|states|, j requires 0 <= j < |states| => states[j].intakeClosed);
    forall j: nat | j + 1 < |left| && closed[j] ensures Falls(left, closed, j) {
      RunStepDrops(c, items, states, steps, j);
    }
    Countdown(left, closed, m, k);
  }

  // ----- no deadlock -----

  /** Program counters that never wait once the intake is closed. */
  predicate Free(pc: Pc)
  {
    InHand(pc) || pc.CountForward? || pc.Send? || pc.Settle? || pc.MarkDone? || pc.Tally? || pc.HaltDownloads?
  }

  lemma FreeMoves(c: Config, s: State, t: nat) returns (step: Step)
    requires s.boot == 0 && t < |s.threads| && Placed(c, s, t) && Free(s.threads[t].pc) && !ForwardHeld(c, s)
    requires |s.results| == |s.items| && |s.sched.groups| <= |s.items|
    requires InHand(s.threads[t].pc) ==> s.threads[t].pc.index < |s.sched.groups|
    ensures Enabled(c, s, step) && step != Stop
  {
    var role := s.threads[t].role;
    match s.threads[t].pc
    case Claim(_) => step := ClaimStage(t); assert CanClaimStage(c, s, t);
    case Run(_, _) => step := StageSucceeds(t); assert CanStageSucceeds(c, s, t);
    case Failing(_) => step := ClearStage(t); assert CanClearStage(c, s, t);
    case AfterStage(_) =>
      if role.DownloadWorker? {
        step := DrawEntry(t); assert CanDrawEntry(c, s, t);
      } else if role.AsrWorker? {
        step := SubmitReady(t, 0.0); assert CanSubmitReady(c, s, t, 0.0);
      } else {
        step := FinishLlm(t); assert CanFinishLlm(c, s, t);
      }
    case CountForward => step := CountForwarded(t); assert CanCountForwarded(c, s, t);
    case Send(more) => step := if more > 0 then DrawSentinel(t) else SendDone(t);
    case Settle(_) => step := ReadVerdict(t); assert CanReadVerdict(c, s, t);
    case MarkDone(_) => step := WriteDone(t); assert CanWriteDone(c, s, t);
    case Tally => step := CountCompleted(t); assert CanCountCompleted(c, s, t);
    case HaltDownloads(more) => step := if more > 0 then HaltOne(t) else CloseScheduler(t);
    case _ =>
  }

  /** A non-empty priority queue has a head. */
  lemma {:induction false} HeadExists(q: seq<Entry>) returns (j: nat)
    requires q != []
    ensures Head(q, j)
  {
    if |q| == 1 {
      j := 0;
    } else {
      var i := HeadExists(q[1..]);
      assert forall k :: 0 <= k < |q| - 1 ==> q[k + 1] == q[1..][k];
      j := if Before(q[0], q[i + 1]) then 0 else i + 1;
      forall k | 0 <= k < |q| ensures !Before(q[k], q[j]) {
        if k > 0 { assert !Before(q[1..][k - 1], q[1..][i]); }
      }
    }
  }

  /** Everything the batch was given is through, everything is empty and every thread has left. */
  ghost predicate Ended(c: Config, s: State)
  {
    && (forall t :: 0 <= t < |s.threads| ==> s.threads[t].pc.Exited?)
    && s.downloadQ == [] && s.asrQ == [] && s.asrOwner.None?
    && s.forwarded == |s.items| && s.completed == |s.items|
    && (forall i: nat :: i in s.sched.finished <==> i < |s.items|)
  }

  /** Every thread waits or has left. */
  ghost predicate Waiting(s: State)
  {
    forall t :: 0 <= t < |s.threads| ==>
      s.threads[t].pc.Idle? || s.threads[t].pc.Put? || s.threads[t].pc.PutHeld? || s.threads[t].pc.Exited?
  }

  lemma BootMoves(c: Config, s: State)
    requires Invariant(c, s) && s.boot > 0 && c.asrs <= c.capacity
    ensures CanBoot(c, s)
  {
    forall t | 0 <= t < |s.threads| ensures s.threads[t].pc.Idle? { assert Placed(c, s, t); }
    if EntryTotal(Reals, s.asrQ) > 0 {
      var k := EntryWitness(Reals, s.asrQ);
      var i := s.asrQ[k].index.value;
      assert Places(c, s, i) == One(i < |s.items|);
      EntryMember(Holds(i), s.asrQ, k);
    }
    EntriesSplit(s.asrQ);
  }

  lemma RolesAre(c: Config, s: State)
    requires Shape(c, s)
    ensures forall t :: 0 <= t < |s.threads| ==> s.threads[t].role == RoleAt(c, t)
  {
    forall t | 0 <= t < |s.threads| ensures s.threads[t].role == RoleAt(c, t) { assert Placed(c, s, t); }
  }

  /** As long as anything is queued, not every asr worker has left. */
  lemma SomeAsrWorkerLeft(c: Config, s: State)
    requires Shape(c, s) && Counters(c, s) && MarkersLast(c, s) && s.asrQ != []
    ensures Total(c, AsrLeft, s.threads) > 0
  {
    RolesAre(c, s);
    Headcount(c, s.threads);
    GoneAreMarkers(c, s.threads);
    EntriesSplit(s.asrQ);
  }

  /** A queue of entries is served: some asr worker is idle. */
  lemma AsrMoves(c: Config, s: State) returns (step: Step)
    requires Shape(c, s) && Counters(c, s) && MarkersLast(c, s)
    requires s.boot == 0 && Waiting(s) && s.asrQ != []
    ensures Enabled(c, s, step) && step != Stop
  {
    SomeAsrWorkerLeft(c, s);
    var t := TotalWitness(c, AsrLeft, s.threads);
    assert Placed(c, s, t);
    var j := HeadExists(s.asrQ);
    step := TakeAsr(t, j);
    assert CanTakeAsr(c, s, t, j);
  }

  /** With the queue empty, whoever wants to put an entry can. */
  lemma PutMoves(c: Config, s: State, t: nat) returns (step: Step)
    requires Shape(c, s) && Bounded(c, s) && Waiting(s) && s.boot == 0 && s.asrQ == []
    requires t < |s.threads| && (s.threads[t].pc.Put? || s.threads[t].pc.PutHeld?)
    ensures Enabled(c, s, step) && step != Stop
  {
    if s.threads[t].pc.PutHeld? || s.asrOwner.None? {
      step := PutEntry(t);
      assert CanPutEntry(c, s, t);
    } else {
      var u := s.asrOwner.value;
      assert HoldsLock(s.threads[u].pc) <==> s.asrOwner == Some(u);
      step := PutEntry(u);
      assert CanPutEntry(c, s, u);
    }
  }

  /** Every thread is idle or has left; the intake thread, if any, has left. */
  ghost predicate Resting(c: Config, s: State)
  {
    && (forall t :: 0 <= t < |s.threads| ==> s.threads[t].pc.Idle? || s.threads[t].pc.Exited?)
    && KeeperPc(c, s).Exited?
  }

  /** At rest, no thread holds an item. */
  lemma RestingHands(c: Config, s: State)
    requires Resting(c, s)
    ensures forall i: nat :: Total(c, Holds(i), s.threads) == 0 && Total(c, LlmHolds(i), s.threads) == 0
  {
    forall i: nat ensures Total(c, Holds(i), s.threads) == 0 && Total(c, LlmHolds(i), s.threads) == 0 {
      TotalZero(c, Holds(i), s.threads);
      TotalZero(c, LlmHolds(i), s.threads);
    }
  }

  /** At rest, the only markers the threads account for are those they used up. */
  lemma RestingTotals(c: Config, s: State)
    requires Shape(c, s) && Resting(c, s)
    ensures Total(c, Halts, s.threads) == Total(c, DownloadGone, s.threads)
    ensures Total(c, Markers, s.threads) == Total(c, AsrGone, s.threads)
    ensures Total(c, PreForward, s.threads) == 0 && Total(c, Uncounted, s.threads) == 0
    ensures forall i: nat :: Total(c, Holds(i), s.threads) == 0 && Total(c, LlmHolds(i), s.threads) == 0
  {
    TotalSame(c, Halts, DownloadGone, s.threads);
    TotalSame(c, Markers, AsrGone, s.threads);
    TotalZero(c, PreForward, s.threads);
    TotalZero(c, Uncounted, s.threads);
    RestingHands(c, s);
  }

  /** An idle download worker finds a job or a stop marker. */
  lemma DownloadMoves(c: Config, s: State) returns (step: Step)
    requires Shape(c, s) && Counters(c, s) && Resting(c, s) && s.intakeClosed && s.boot == 0
    requires Total(c, DownloadLeft, s.threads) > 0
    ensures Enabled(c, s, step) && step != Stop
  {
    RestingTotals(c, s);
    RolesAre(c, s);
    Headcount(c, s.threads);
    assert MessageTotal(Halts, s.downloadQ) > 0;
    var t := TotalWitness(c, DownloadLeft, s.threads);
    assert Placed(c, s, t);
    step := TakeDownload(t);
    assert CanTakeDownload(c, s, t);
  }

  /** Once the download workers have left, so have the asr workers, and everything was forwarded. */
  lemma DownloadsOver(c: Config, s: State)
    requires Shape(c, s) && Counters(c, s) && Gates(c, s) && MarkersLast(c, s) && Resting(c, s)
    requires s.intakeClosed && s.boot == 0 && s.asrQ == [] && Total(c, DownloadLeft, s.threads) == 0 && s.lost.None?
    ensures s.downloadQ == [] && s.forwarded == |s.items| && Total(c, AsrLeft, s.threads) == 0
  {
    RestingTotals(c, s);
    RolesAre(c, s);
    Headcount(c, s.threads);
    MessagesSplit(s.downloadQ);
  }

  function Below(n: nat): (b: set<nat>)
    ensures |b| == n && forall k: nat :: k in b <==> k < n
  {
    if n == 0 then {} else Below(n - 1) + {n - 1}
  }

  /** A set of at least `n` numbers below `n` has them all. */
  lemma Full(d: set<nat>, n: nat, i: nat)
    requires |d| >= n && d <= Below(n) && i < n
    ensures i in d
  {
    if i !in d {
      SubsetSize(d, Below(n) - {i});
    }
  }

  /** The least number that is missing, below one that is. */
  lemma {:induction false} LeastMissing(d: set<nat>, j: nat) returns (i: nat)
    requires j !in d
    ensures i <= j && i !in d && forall k: nat :: k < i ==> k in d
  {
    if k: nat :| k < j && k !in d {
      i := LeastMissing(d, k);
    } else {
      i := j;
    }
  }

  /** The least number below `n` missing from a smaller set. */
  lemma FirstMissing(d: set<nat>, n: nat) returns (i: nat)
    requires |d| < n
    ensures i < n && i !in d && forall k: nat :: k < i ==> k in d
  {
    if Below(n) <= d { SubsetSize(Below(n), d); }
    var j :| j in Below(n) && j !in d;
    i := LeastMissing(d, j);
  }

  /** An idle llm worker is handed an item, or leaves. */
  lemma LlmMoves(c: Config, s: State, t: nat) returns (step: Step)
    requires Invariant(c, s) && Resting(c, s) && s.intakeClosed && s.boot == 0 && s.asrQ == [] && s.downloadQ == [] && s.lost.None?
    requires t < |s.threads| && s.threads[t].role.LlmWorker? && s.threads[t].pc.Idle?
    ensures Enabled(c, s, step) && step != Stop
  {
    if S.Over(s.sched) {
      step := LeaveLlm(t);
      assert CanLeaveLlm(c, s, t);
    } else {
      RestingTotals(c, s);
      var i := FirstMissing(s.sched.dispatched, |s.sched.groups|);
      RestingReady(c, s, i);
      S.IdleSchedulerHasCandidate(s.sched, i);
      var best := S.BestExists(s.sched, |s.sched.groups|, i);
      step := Dispatch(t, best);
      assert CanDispatch(c, s, t, best);
    }
  }

  /** At rest with empty queues, what was not handed out is ready, and what was is finished. */
  lemma RestingReady(c: Config, s: State, i: nat)
    requires Conserved(c, s) && Scheduled(c, s) && s.asrQ == [] && s.downloadQ == [] && s.lost.None?
    requires i < |s.items| && i !in s.sched.dispatched
    requires forall k: nat :: Total(c, Holds(k), s.threads) == 0 && Total(c, LlmHolds(k), s.threads) == 0
    ensures i in s.sched.ready && s.sched.dispatched == s.sched.finished
  {
    assert Places(c, s, i) == One(i < |s.items|);
    forall k | k in s.sched.dispatched ensures k in s.sched.finished {
      assert Total(c, LlmHolds(k), s.threads) == One(k in s.sched.dispatched && k !in s.sched.finished);
    }
  }

  /** With every thread gone, the batch has ended. */
  lemma GoneMeansEnded(c: Config, s: State)
    requires Invariant(c, s) && s.intakeClosed && s.boot == 0 && s.asrQ == [] && s.downloadQ == []
    requires s.forwarded == |s.items| && forall t :: 0 <= t < |s.threads| ==> s.threads[t].pc.Exited?
    ensures Ended(c, s)
  {
    assert s.lost.None?;
    assert forall u :: 0 <= u < |s.threads| ==> s.asrOwner != Some(u);
    RestingTotals(c, s);
    var last := c.downloads + c.asrs;
    assert Placed(c, s, last);
    assert s.sched.dispatched <= Below(|s.sched.groups|);
    forall i: nat ensures i in s.sched.finished <==> i < |s.items| {
      assert Places(c, s, i) == One(i < |s.items|);
      if i < |s.items| {
        Full(s.sched.dispatched, |s.sched.groups|, i);
        assert Total(c, LlmHolds(i), s.threads) == One(i in s.sched.dispatched && i !in s.sched.finished);
      }
    }
    assert s.sched.finished == Below(|s.items|);
  }

  /** A batch that lost an item never ends. */
  lemma LostNeverEnds(c: Config, s: State)
    requires Counters(c, s) && s.lost.Some?
    ensures !Ended(c, s)
  {
    assert s.forwarded < |s.items|;
  }

  /** No deadlock: with the intake closed (or never given) and no item lost, either some thread can take
      a step or the batch has ended. The one proviso is about a batch that was given nothing at all: its
      stop markers must fit into the asr queue. */
  lemma NoDeadlock(c: Config, s: State) returns (step: Step)
    requires Invariant(c, s) && s.intakeClosed
    requires s.boot == 0 || c.asrs <= c.capacity
    ensures !Ended(c, s) && s.lost.None? ==> Enabled(c, s, step) && step != Stop
  {
    if s.lost.Some? { return Stop; }
    if s.boot > 0 {
      BootMoves(c, s);
      return Boot;
    }
    if t :| 0 <= t < |s.threads| && Free(s.threads[t].pc) {
      FreeThreadMoves(c, s, t);
      step := FreeMoves(c, s, t);
      return;
    }
    ClosedWaits(c, s);
    if s.asrQ != [] {
      step := AsrMoves(c, s);
      return;
    }
    if t :| 0 <= t < |s.threads| && (s.threads[t].pc.Put? || s.threads[t].pc.PutHeld?) {
      step := PutMoves(c, s, t);
      return;
    }
    if Total(c, DownloadLeft, s.threads) > 0 {
      step := DownloadMoves(c, s);
      return;
    }
    step := LastMoves(c, s);
  }

  /** With the download workers gone and the asr queue empty, only llm workers may be left. */
  lemma LastMoves(c: Config, s: State) returns (step: Step)
    requires Invariant(c, s) && Resting(c, s) && s.intakeClosed && s.boot == 0 && s.lost.None?
    requires s.asrQ == [] && Total(c, DownloadLeft, s.threads) == 0
    ensures !Ended(c, s) ==> Enabled(c, s, step) && step != Stop
  {
    DownloadsOver(c, s);
    if t :| 0 <= t < |s.threads| && s.threads[t].role.LlmWorker? && s.threads[t].pc.Idle? {
      step := LlmMoves(c, s, t);
      return;
    }
    forall t | 0 <= t < |s.threads| ensures s.threads[t].pc.Exited? {
      assert Placed(c, s, t);
      TotalMember(c, DownloadLeft, s.threads, t);
      TotalMember(c, AsrLeft, s.threads, t);
    }
    GoneMeansEnded(c, s);
    step := Stop;
  }

  lemma FreeThreadMoves(c: Config, s: State, t: nat)
    requires Invariant(c, s) && s.intakeClosed && t < |s.threads|
    ensures Placed(c, s, t) && !ForwardHeld(c, s) && |s.sched.groups| <= |s.items|
    ensures InHand(s.threads[t].pc) ==> s.threads[t].pc.index < |s.sched.groups|
  {
    assert Placed(c, s, t);
    if InHand(s.threads[t].pc) { HandIsExclusive(c, s, t); }
  }

  /** Without a free thread, every thread of a closed batch waits; the intake thread only to put. */
  lemma ClosedWaits(c: Config, s: State)
    requires Shape(c, s) && Gates(c, s) && s.intakeClosed
    requires forall t :: 0 <= t < |s.threads| ==> !Free(s.threads[t].pc)
    ensures Waiting(s) && (KeeperPc(c, s).Exited? || KeeperPc(c, s).Put? || KeeperPc(c, s).PutHeld?)
  {
    forall t | 0 <= t < |s.threads|
      ensures s.threads[t].pc.Idle? || s.threads[t].pc.Put? || s.threads[t].pc.PutHeld? || s.threads[t].pc.Exited?
    {
      assert Placed(c, s, t);
      if s.threads[t].role.IntakeThread? { KeeperIs(c, s, t); }
    }
  }
}
