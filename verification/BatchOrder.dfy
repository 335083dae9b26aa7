/** Which item an asr worker takes: the one of highest priority, and of several the one that was queued first. */
module BatchOrder {
  import opened Wrappers
  import opened BatchModel
  import opened BatchCounts
  import opened BatchRuns
  import S = LlmScheduling

  /** The key of an entry of item `i` is the item's priority. */
  predicate RankOk(s: State, i: nat, e: Entry)
  {
    e.index == Some(i) ==> i < |s.items| && e.rank == -s.items[i].priority
  }

  predicate RanksOk(s: State, i: nat, q: seq<Entry>)
  {
    forall j {:trigger RankOk(s, i, q[j])} :: 0 <= j < |q| ==> RankOk(s, i, q[j])
  }

  predicate HandRanked(s: State, i: nat, pc: Pc)
  {
    match pc
    case Put(e, _) => RankOk(s, i, e)
    case PutHeld(e, _) => RankOk(s, i, e)
    case _ => true
  }

  /** An entry of item `i` that is queued, or about to be, has the item's priority for its key. */
  ghost predicate Ranked(s: State, i: nat)
  {
    && RanksOk(s, i, s.asrQ)
    && forall t {:trigger HandRanked(s, i, s.threads[t].pc)} :: 0 <= t < |s.threads| ==> HandRanked(s, i, s.threads[t].pc)
  }

  ghost predicate SamePriority(s: State, s': State, i: nat)
  {
    |s.items| <= |s'.items| && (i < |s.items| ==> s'.items[i].priority == s.items[i].priority)
  }

  lemma RanksStay(s: State, s': State, i: nat, q: seq<Entry>)
    requires SamePriority(s, s', i) && RanksOk(s, i, q)
    ensures RanksOk(s', i, q)
  {
    forall j | 0 <= j < |q| ensures RankOk(s', i, q[j]) { assert RankOk(s, i, q[j]); }
  }

  lemma HandStays(s: State, s': State, i: nat, pc: Pc)
    requires SamePriority(s, s', i) && HandRanked(s, i, pc)
    ensures HandRanked(s', i, pc)
  {
  }

  lemma RankMove(s: State, s': State, t: nat, i: nat)
    requires Ranked(s, i) && OnlyMoves(s, s', t) && SamePriority(s, s', i) && RanksOk(s, i, s'.asrQ)
    requires HandRanked(s, i, s'.threads[t].pc)
    ensures Ranked(s', i)
  {
    RanksStay(s, s', i, s'.asrQ);
    forall u | 0 <= u < |s'.threads| ensures HandRanked(s', i, s'.threads[u].pc) {
      if u != t { assert HandRanked(s, i, s.threads[u].pc); }
      HandStays(s, s', i, s'.threads[u].pc);
    }
  }

  lemma RanksWithout(s: State, i: nat, q: seq<Entry>, j: nat)
    requires RanksOk(s, i, q) && j < |q|
    ensures RanksOk(s, i, Removed(q, j)) && RankOk(s, i, q[j])
  {
    forall k | 0 <= k < |q| - 1 ensures RankOk(s, i, Removed(q, j)[k]) { assert RankOk(s, i, q[if k < j then k else k + 1]); }
  }

  lemma RanksWith(s: State, i: nat, q: seq<Entry>, e: Entry)
    requires RanksOk(s, i, q) && RankOk(s, i, e)
    ensures RanksOk(s, i, q + [e])
  {
    forall k | 0 <= k < |q| + 1 ensures RankOk(s, i, (q + [e])[k]) { if k < |q| { assert RankOk(s, i, q[k]); } }
  }

  // ----- every step -----

  lemma ClaimStageRanked(c: Config, s: State, t: nat, i: nat)
    requires Ranked(s, i) && CanClaimStage(c, s, t)
    ensures Ranked(DoClaimStage(c, s, t), i)
  {
    RankMove(s, DoClaimStage(c, s, t), t, i);
  }

  lemma DrawEntryRanked(c: Config, s: State, t: nat, i: nat)
    requires Ranked(s, i) && CanDrawEntry(c, s, t)
    ensures Ranked(DoDrawEntry(c, s, t), i)
  {
    RankMove(s, DoDrawEntry(c, s, t), t, i);
  }

  lemma StageFailsRanked(c: Config, s: State, t: nat, i: nat)
    requires Ranked(s, i) && CanStageFails(c, s, t)
    ensures Ranked(DoStageFails(c, s, t), i)
  {
    RankMove(s, DoStageFails(c, s, t), t, i);
  }

  lemma PutEntryRanked(c: Config, s: State, t: nat, i: nat)
    requires Ranked(s, i) && CanPutEntry(c, s, t)
    ensures Ranked(DoPutEntry(c, s, t), i)
  {
    assert HandRanked(s, i, s.threads[t].pc);
    RanksWith(s, i, s.asrQ, s.threads[t].pc.entry);
    RankMove(s, DoPutEntry(c, s, t), t, i);
  }

  lemma TakeAsrRanked(c: Config, s: State, t: nat, j: nat, i: nat)
    requires Ranked(s, i) && CanTakeAsr(c, s, t, j)
    ensures Ranked(DoTakeAsr(c, s, t, j), i)
  {
    RanksWithout(s, i, s.asrQ, j);
    RankMove(s, DoTakeAsr(c, s, t, j), t, i);
  }

  lemma StageRanked(c: Config, s: State, step: Step, i: nat)
    requires Ranked(s, i) && Enabled(c, s, step) && IsStageCalm(step)
    ensures Ranked(Apply(c, s, step), i)
  {
    assert HandRanked(s, i, s.threads[step.t].pc);
    match step
    case ClaimStage(t) => ClaimStageRanked(c, s, t, i);
    case StageSucceeds(t) => RankMove(s, DoStageSucceeds(c, s, t), t, i);
    case StageFails(t) => StageFailsRanked(c, s, t, i);
    case ClearStage(t) => RankMove(s, DoClearStage(c, s, t), t, i);
    case DrawEntry(t) => DrawEntryRanked(c, s, t, i);
    case _ =>
  }

  lemma SendRanked(c: Config, s: State, step: Step, i: nat)
    requires Ranked(s, i) && Enabled(c, s, step) && IsSendCalm(step)
    ensures Ranked(Apply(c, s, step), i)
  {
    assert HandRanked(s, i, s.threads[step.t].pc);
    match step
    case BlockOnPut(t) => RankMove(s, DoBlockOnPut(c, s, t), t, i);
    case DrawSentinel(t) => RankMove(s, DoDrawSentinel(c, s, t), t, i);
    case SendDone(t) => RankMove(s, DoSendDone(c, s, t), t, i);
    case ReadVerdict(t) => RankMove(s, DoReadVerdict(c, s, t), t, i);
    case WriteDone(t) => RankMove(s, DoWriteDone(c, s, t), t, i);
    case _ =>
  }

  lemma ActionRanked(c: Config, s: State, step: Step, i: nat)
    requires Ranked(s, i) && Enabled(c, s, step) && IsActionCalm(step) && !(step.Reprioritise? && step.index == i)
    ensures Ranked(Apply(c, s, step), i)
  {
    assert HandRanked(s, i, s.threads[step.t].pc);
    match step
    case BeginDrop(t, d) => RankMove(s, DoBeginDrop(c, s, t, d), t, i);
    case DropReads(t) => RankMove(s, DoDropReads(c, s, t), t, i);
    case DropWrites(t) => RankMove(s, DoDropWrites(c, s, t), t, i);
    case Reprioritise(t, d, p) => RankMove(s, DoReprioritise(c, s, t, d, p), t, i);
    case _ =>
  }

  lemma RekeyRanked(c: Config, s: State, step: Step, i: nat)
    requires Ranked(s, i) && Enabled(c, s, step) && IsRekeyCalm(step)
    ensures Ranked(Apply(c, s, step), i)
  {
    assert HandRanked(s, i, s.threads[step.t].pc);
    match step
    case TellScheduler(t) => RankMove(s, DoTellScheduler(c, s, t), t, i);
    case LockForRekey(t) => RankMove(s, DoLockForRekey(c, s, t), t, i);
    case EndRekey(t) => RankMove(s, DoEndRekey(c, s, t), t, i);
    case _ =>
  }

  lemma LlmRanked(c: Config, s: State, step: Step, i: nat)
    requires Ranked(s, i) && Enabled(c, s, step) && IsLlmStep(step)
    ensures Ranked(Apply(c, s, step), i)
  {
    assert HandRanked(s, i, s.threads[step.t].pc);
    match step
    case Dispatch(t, d) => RankMove(s, DoDispatch(c, s, t, d), t, i);
    case LeaveLlm(t) => RankMove(s, DoLeaveLlm(c, s, t), t, i);
    case FinishLlm(t) => RankMove(s, DoFinishLlm(c, s, t), t, i);
    case CountCompleted(t) => RankMove(s, DoCountCompleted(c, s, t), t, i);
    case _ =>
  }

  lemma ClosingRanked(c: Config, s: State, step: Step, i: nat)
    requires Ranked(s, i) && Enabled(c, s, step) && IsClosing(step)
    ensures Ranked(Apply(c, s, step), i)
  {
    assert HandRanked(s, i, s.threads[step.t].pc);
    match step
    case CloseIntake(t, reason) => RankMove(s, DoCloseIntake(c, s, t, reason), t, i);
    case HaltOne(t) => RankMove(s, DoHaltOne(c, s, t), t, i);
    case CloseScheduler(t) => RankMove(s, DoCloseScheduler(c, s, t), t, i);
    case _ =>
  }

  lemma QueueRanked(c: Config, s: State, step: Step, i: nat)
    requires Ranked(s, i) && Enabled(c, s, step) && IsQueueStep(step)
    ensures Ranked(Apply(c, s, step), i)
  {
    assert HandRanked(s, i, s.threads[step.t].pc);
    match step
    case TakeDownload(t) => RankMove(s, DoTakeDownload(c, s, t), t, i);
    case PutEntry(t) => PutEntryRanked(c, s, t, i);
    case CountForwarded(t) => RankMove(s, DoCountForwarded(c, s, t), t, i);
    case TakeAsr(t, j) => TakeAsrRanked(c, s, t, j, i);
    case SubmitReady(t, cost) => RankMove(s, DoSubmitReady(c, s, t, cost), t, i);
    case _ =>
  }

  lemma AdmissionRanked(c: Config, s: State, step: Step, i: nat)
    requires Ranked(s, i) && Enabled(c, s, step) && IsAdmission(step)
    ensures Ranked(Apply(c, s, step), i)
  {
    assert HandRanked(s, i, s.threads[step.t].pc);
    match step
    case Admit(t, item) => RankMove(s, DoAdmit(c, s, t, item), t, i);
    case RegisterItem(t) => RankMove(s, DoRegisterItem(c, s, t), t, i);
    case Enqueue(t) => RankMove(s, DoEnqueue(c, s, t), t, i);
    case DrainOne(t, j) => DrainOneRanked(c, s, t, j, i);
    case RefillOne(t) => RefillOneRanked(c, s, t, i);
    case _ =>
  }

  lemma DrainOneRanked(c: Config, s: State, t: nat, j: nat, i: nat)
    requires Ranked(s, i) && CanDrainOne(c, s, t, j)
    ensures Ranked(DoDrainOne(c, s, t, j), i)
  {
    if s.asrQ != [] { RanksWithout(s, i, s.asrQ, j); }
    RankMove(s, DoDrainOne(c, s, t, j), t, i);
  }

  lemma RefillOneRanked(c: Config, s: State, t: nat, i: nat)
    requires Ranked(s, i) && CanRefillOne(c, s, t)
    ensures Ranked(DoRefillOne(c, s, t), i)
  {
    RanksWith(s, i, s.asrQ, Rekeyed(s, s.threads[t].pc.hand[0]));
    RankMove(s, DoRefillOne(c, s, t), t, i);
  }

  lemma BootRanked(c: Config, s: State, i: nat)
    requires Ranked(s, i) && CanBoot(c, s)
    ensures Ranked(DoBoot(c, s), i)
  {
    var s' := DoBoot(c, s);
    RanksWith(s, i, s.asrQ, Entry(None, 0, s.arrivals));
    RanksStay(s, s', i, s'.asrQ);
    forall u | 0 <= u < |s'.threads| ensures HandRanked(s', i, s'.threads[u].pc) {
      assert HandRanked(s, i, s.threads[u].pc);
      HandStays(s, s', i, s.threads[u].pc);
    }
  }

  lemma StopRanked(c: Config, s: State, i: nat)
    requires Ranked(s, i) && CanStop(c, s)
    ensures Ranked(DoStop(c, s), i)
  {
    var s' := DoStop(c, s);
    RanksStay(s, s', i, s'.asrQ);
    forall u | 0 <= u < |s'.threads| ensures HandRanked(s', i, s'.threads[u].pc) {
      assert HandRanked(s, i, s.threads[u].pc);
      HandStays(s, s', i, s.threads[u].pc);
    }
  }

  lemma CalmRanked(c: Config, s: State, step: Step, i: nat)
    requires Ranked(s, i) && Enabled(c, s, step) && IsCalm(step) && !(step.Reprioritise? && step.index == i)
    ensures Ranked(Apply(c, s, step), i)
  {
    if IsStageCalm(step) {
      StageRanked(c, s, step, i);
    } else if IsSendCalm(step) {
      SendRanked(c, s, step, i);
    } else if IsActionCalm(step) {
      ActionRanked(c, s, step, i);
    } else {
      RekeyRanked(c, s, step, i);
    }
  }

  /** Every step but a new priority for the item itself keeps its keys right. */
  lemma StepRanked(c: Config, s: State, step: Step, i: nat)
    requires Ranked(s, i) && Enabled(c, s, step) && !(step.Reprioritise? && step.index == i)
    ensures Ranked(Apply(c, s, step), i)
  {
    if IsCalm(step) {
      CalmRanked(c, s, step, i);
    } else if step.Boot? {
      BootRanked(c, s, i);
    } else if step.Stop? {
      StopRanked(c, s, i);
    } else {
      MovingRanked(c, s, step, i);
    }
  }

  lemma MovingRanked(c: Config, s: State, step: Step, i: nat)
    requires Ranked(s, i) && Enabled(c, s, step) && (IsQueueStep(step) || IsLlmStep(step) || IsAdmission(step) || IsClosing(step))
    ensures Ranked(Apply(c, s, step), i)
  {
    if IsQueueStep(step) {
      QueueRanked(c, s, step, i);
    } else if IsLlmStep(step) {
      LlmRanked(c, s, step, i);
    } else if IsAdmission(step) {
      AdmissionRanked(c, s, step, i);
    } else {
      ClosingRanked(c, s, step, i);
    }
  }

  /** A worker has an entry of item `i` ready that it has not queued yet. */
  predicate Puts(s: State, i: nat)
  {
    exists t :: 0 <= t < |s.threads| && (s.threads[t].pc.Put? || s.threads[t].pc.PutHeld?) && s.threads[t].pc.entry.index == Some(i)
  }

  /** The step takes the queue as drained, to fill it again under new keys. */
  predicate Empties(s: State, step: Step)
  {
    step.DrainOne? && s.asrQ == []
  }

  /** The queue knows the priority of item `i`: it was given no new one, or the queue was emptied to be sorted again
      after that, when no worker had an entry of the item ready. */
  predicate InForce(states: seq<State>, steps: seq<Step>, i: nat, k: nat)
    requires k <= |steps| && |states| == |steps| + 1
  {
    k == 0 || (
      && !(steps[k - 1].Reprioritise? && steps[k - 1].index == i)
      && (InForce(states, steps, i, k - 1) || (Empties(states[k - 1], steps[k - 1]) && !Puts(states[k - 1], i))))
  }

  lemma EmptiedRanked(c: Config, s: State, step: Step, i: nat)
    requires Enabled(c, s, step) && Empties(s, step) && !Puts(s, i)
    ensures Ranked(Apply(c, s, step), i)
  {
    var t := step.t;
    assert CanDrainOne(c, s, t, step.j) && Apply(c, s, step) == Move(s, t, Refill(s.threads[t].pc.hand));
  }

  lemma {:induction false} RunRanked(c: Config, items: seq<Item>, states: seq<State>, steps: seq<Step>, k: nat, i: nat)
    requires IsRun(c, items, states, steps) && k < |states| && InForce(states, steps, i, k)
    ensures Ranked(states[k], i)
    decreases k
  {
    if k > 0 {
      if InForce(states, steps, i, k - 1) {
        RunRanked(c, items, states, steps, k - 1, i);
        StepRanked(c, states[k - 1], steps[k - 1], i);
      } else {
        EmptiedRanked(c, states[k - 1], steps[k - 1], i);
      }
    }
  }

  /** What an asr worker takes is an item as long as one is queued, and of those one of the highest priority,
      the one that was queued first among its equals. */
  lemma UrgentAsrFirst(c: Config, items: seq<Item>, states: seq<State>, steps: seq<Step>, k: nat, o: nat, b: nat)
    requires IsRun(c, items, states, steps) && k < |steps| && steps[k].TakeAsr? && o < |states[k].asrQ|
    requires states[k].asrQ[o].index == Some(b) && InForce(states, steps, b, k)
    requires var first := states[k].asrQ[steps[k].j].index; first.Some? ==> InForce(states, steps, first.value, k)
    ensures steps[k].j < |states[k].asrQ| && states[k].asrQ[steps[k].j].index.Some?
    ensures var s, e := states[k], states[k].asrQ[steps[k].j];
      && e.index.value < |s.items| && b < |s.items| && s.items[e.index.value].priority >= s.items[b].priority
      && (s.items[e.index.value].priority == s.items[b].priority ==> e.arrival <= s.asrQ[o].arrival)
  {
    var s, j := states[k], steps[k].j;
    assert CanTakeAsr(c, s, steps[k].t, j) && !BatchModel.Before(s.asrQ[o], s.asrQ[j]);
    RunRanked(c, items, states, steps, k, b);
    assert RankOk(s, b, s.asrQ[o]);
    if s.asrQ[j].index.Some? {
      RunRanked(c, items, states, steps, k, s.asrQ[j].index.value);
      assert RankOk(s, s.asrQ[j].index.value, s.asrQ[j]);
    }
  }

  /** Re-sorting gives an entry the priority its item has now, and leaves it its place among equals. */
  lemma RekeyedIsCurrent(c: Config, s: State, t: nat)
    requires Enabled(c, s, RefillOne(t)) && s.threads[t].pc.hand[0].index.Some?
    ensures var s', e := Apply(c, s, RefillOne(t)), s.threads[t].pc.hand[0];
      && |s'.asrQ| == |s.asrQ| + 1 && e.index.value < |s.items|
      && s'.asrQ[|s.asrQ|] == Entry(e.index, -s.items[e.index.value].priority, e.arrival)
  {
    assert CanRefillOne(c, s, t) && Apply(c, s, RefillOne(t)) == DoRefillOne(c, s, t);
  }

  // ----- the llm bin -----

  /** What an llm worker is handed leads every other item it might have been handed: by the priority the item has,
      by cost, by its place. */
  lemma UrgentLlmFirst(c: Config, items: seq<Item>, states: seq<State>, steps: seq<Step>, k: nat, o: nat)
    requires Sound(c) && IsRun(c, items, states, steps) && k < |steps| && steps[k].Dispatch?
    requires S.Candidate(states[k].sched, o) && o != steps[k].index
    ensures var s, i := states[k].sched, steps[k].index;
      && i < |s.priorities| && o < |s.priorities| && i in s.ready && s.priorities[i] >= s.priorities[o]
      && (s.priorities[i] == s.priorities[o] ==> s.ready[i] >= s.ready[o] && (s.ready[i] == s.ready[o] ==> i < o))
  {
    var s, i := states[k].sched, steps[k].index;
    assert CanDispatch(c, states[k], steps[k].t, i);
    S.BestLeads(s, i, o);
  }
}
