/** Calm steps: a thread moves, and nothing that the invariant counts changes.

    Claiming and leaving a stage, reading and writing verdicts, drops, new priorities and the edges
    of a re-sorting are of this kind. What such a step may do is said once, by the program counters
    it goes from and to; that it keeps the invariant is proved once; and each step is then shown to
    be of the kind. */
module BatchCalm {
  import opened Wrappers
  import opened BatchModel
  import opened BatchCounts
  import opened BatchInvariant
  import S = LlmScheduling

  /** The gauges the invariant is about; the others belong to the statuses and to termination. */
  predicate Tracked(g: Gauge)
  {
    !g.InStage? && !g.Settling? && !g.Energy?
  }

  /** The intake thread is between polls, inside an action, or about to re-sort the queue. */
  predicate Light(pc: Pc)
  {
    || pc.Idle? || pc.DropStatus? || pc.DropStage? || pc.DropDispatch? || pc.DropWrite? || pc.DropMark?
    || pc.Rerank? || pc.RekeyWait? || pc == Drain([]) || pc == Refill([])
  }

  /** Moves that leave what a thread counts for unchanged. */
  predicate Calm(c: Config, role: Role, pc: Pc, pc': Pc)
  {
    || (InHand(pc) && InHand(pc') && pc.index == pc'.index)
    || (role.DownloadWorker? && pc.AfterStage? && pc'.Put? && pc'.entry.index == Some(pc.index) && pc'.more == 0)
    || (role.LlmWorker? && (pc.Settle? || pc.MarkDone?) && (pc'.MarkDone? || pc'.Tally?))
    || (role.IntakeThread? && Light(pc) && Light(pc'))
    || (role.IntakeThread? && pc.Drain? && pc'.Refill? && pc.hand == pc'.hand)
    || (pc.Send? && pc'.Put? && pc'.entry.index.None? && pc.more == pc'.more + 1)
    || (role.DownloadWorker? && pc == Send(0) && pc'.Idle?)
    || (role.IntakeThread? && pc == Send(0) && pc' == HaltDownloads(c.downloads))
    || (pc.Put? && pc'.PutHeld? && pc.entry == pc'.entry && pc.more == pc'.more)
  }

  lemma CalmWeights(c: Config, role: Role, pc: Pc, pc': Pc)
    requires Calm(c, role, pc, pc')
    ensures forall g :: Tracked(g) ==> Weight(c, g, Thread(role, pc')) == Weight(c, g, Thread(role, pc))
  {
    forall g | Tracked(g) ensures Weight(c, g, Thread(role, pc')) == Weight(c, g, Thread(role, pc)) {
      match g
      case Holds(i) =>
      case Markers =>
      case PreForward =>
      case _ =>
    }
  }

  /** The scheduler is the same up to the priorities of its items. */
  predicate SameSchedule(a: S.Sched, b: S.Sched)
  {
    |a.priorities| == |b.priorities| && a.(priorities := b.priorities) == b
  }

  predicate SameGroups(a: seq<Item>, b: seq<Item>)
  {
    |a| == |b| && forall i :: 0 <= i < |a| ==> a[i].group == b[i].group
  }

  ghost predicate CalmStep(c: Config, s: State, s': State, t: nat)
  {
    && OnlyMoves(s, s', t) && s'.threads[t].role == s.threads[t].role
    && Calm(c, s.threads[t].role, s.threads[t].pc, s'.threads[t].pc)
    && s'.downloadQ == s.downloadQ && s'.asrQ == s.asrQ && SameSchedule(s.sched, s'.sched)
    && s'.forwarded == s.forwarded && s'.completed == s.completed && s'.lost == s.lost
    && s'.intakeClosed == s.intakeClosed && s'.sentinelsSent == s.sentinelsSent && s.boot == 0 == s'.boot
    && SameGroups(s.items, s'.items) && |s'.results| == |s.results|
    && (s'.asrOwner == Some(t) <==> HoldsLock(s'.threads[t].pc))
    && (s'.asrOwner == s.asrOwner || (s.asrOwner in {None, Some(t)} && s'.asrOwner in {None, Some(t)}))
    && NamesKnown(s', s'.threads[t].pc)
  }

  lemma ValidUpToPriorities(a: S.Sched, b: S.Sched)
    requires S.Valid(a) && SameSchedule(a, b)
    ensures S.Valid(b)
  {
  }

  lemma CalmHolds(c: Config, s: State, s': State, t: nat)
    requires CalmStep(c, s, s', t)
    ensures LocalHolds(c, s, s', t)
  {
    CalmWeights(c, s.threads[t].role, s.threads[t].pc, s'.threads[t].pc);
  }

  predicate GroupsMatch(groups: seq<string>, items: seq<Item>)
  {
    |groups| <= |items| && forall i :: 0 <= i < |groups| ==> groups[i] == S.GroupKey(items[i].group, i)
  }

  lemma SameGroupsMatch(groups: seq<string>, items: seq<Item>, items': seq<Item>)
    requires GroupsMatch(groups, items) && SameGroups(items, items')
    ensures GroupsMatch(groups, items')
  {
  }

  lemma CalmKeeper(c: Config, s: State, s': State, t: nat)
    requires CalmStep(c, s, s', t)
    ensures KeeperPc(c, s').Admitted? <==> KeeperPc(c, s).Admitted?
    ensures KeeperPc(c, s).Admitted? ==> KeeperPc(c, s') == KeeperPc(c, s)
    ensures !s'.threads[t].pc.Exited?
  {
  }

  lemma CalmSchedule(c: Config, s: State, s': State, t: nat)
    requires Scheduled(c, s) && CalmStep(c, s, s', t)
    ensures LocalSchedule(c, s, s', t)
  {
    assert GroupsMatch(s.sched.groups, s.items);
    SameGroupsMatch(s.sched.groups, s.items, s'.items);
    ValidUpToPriorities(s.sched, s'.sched);
    CalmKeeper(c, s, s', t);
    CalmHolds(c, s, s', t);
  }

  lemma CalmOrder(c: Config, s: State, s': State, t: nat)
    requires MarkersLast(c, s) && CalmStep(c, s, s', t)
    ensures LocalOrder(c, s, s', t)
  {
  }

  lemma CalmCounts(c: Config, s: State, s': State, t: nat)
    requires Gates(c, s) && |s.results| == |s.items| && Sound(c) && CalmStep(c, s, s', t) && Placed(c, s, t)
    requires |s.threads| == ThreadCount(c)
    ensures LocalShape(c, s, s', t) && Gates(c, s')
  {
  }

  lemma CalmCounters(c: Config, s: State, s': State, t: nat)
    requires CalmStep(c, s, s', t)
    ensures LocalCounters(c, s, s', t) && LocalPlaces(c, s, s', t)
  {
    CalmWeights(c, s.threads[t].role, s.threads[t].pc, s'.threads[t].pc);
  }

  lemma CalmBounds(c: Config, s: State, s': State, t: nat)
    requires Bounded(c, s) && CalmStep(c, s, s', t)
    ensures LocalBounds(c, s, s', t)
  {
  }

  lemma CalmKeeps(c: Config, s: State, s': State, t: nat)
    requires Invariant(c, s) && CalmStep(c, s, s', t)
    ensures Invariant(c, s')
  {
    CalmSchedule(c, s, s', t);
    CalmOrder(c, s, s', t);
    assert Placed(c, s, t);
    CalmCounts(c, s, s', t);
    CalmCounters(c, s, s', t);
    CalmBounds(c, s, s', t);
    FromLocal(c, s, s', t);
  }

  /** What a calm step needs to know of its thread. */
  predicate Ready(c: Config, s: State, t: nat)
  {
    && |s.results| == |s.items| && t < |s.threads| && Placed(c, s, t)
    && (s.asrOwner == Some(t) <==> HoldsLock(s.threads[t].pc))
  }

  lemma ClaimStageIsCalm(c: Config, s: State, t: nat)
    requires CanClaimStage(c, s, t) && Ready(c, s, t)
    ensures CalmStep(c, s, DoClaimStage(c, s, t), t)
  {
  }

  lemma StageSucceedsIsCalm(c: Config, s: State, t: nat)
    requires CanStageSucceeds(c, s, t) && Ready(c, s, t)
    ensures CalmStep(c, s, DoStageSucceeds(c, s, t), t)
  {
  }

  lemma StageFailsIsCalm(c: Config, s: State, t: nat)
    requires CanStageFails(c, s, t) && Ready(c, s, t)
    ensures CalmStep(c, s, DoStageFails(c, s, t), t)
  {
  }

  lemma ClearStageIsCalm(c: Config, s: State, t: nat)
    requires CanClearStage(c, s, t) && Ready(c, s, t)
    ensures CalmStep(c, s, DoClearStage(c, s, t), t)
  {
  }

  lemma DrawEntryIsCalm(c: Config, s: State, t: nat)
    requires CanDrawEntry(c, s, t) && Ready(c, s, t)
    ensures CalmStep(c, s, DoDrawEntry(c, s, t), t)
  {
  }

  lemma BlockOnPutIsCalm(c: Config, s: State, t: nat)
    requires CanBlockOnPut(c, s, t) && Ready(c, s, t)
    ensures CalmStep(c, s, DoBlockOnPut(c, s, t), t)
  {
  }

  lemma DrawSentinelIsCalm(c: Config, s: State, t: nat)
    requires CanDrawSentinel(c, s, t) && Ready(c, s, t)
    ensures CalmStep(c, s, DoDrawSentinel(c, s, t), t)
  {
  }

  lemma SendDoneIsCalm(c: Config, s: State, t: nat)
    requires CanSendDone(c, s, t) && Ready(c, s, t)
    ensures CalmStep(c, s, DoSendDone(c, s, t), t)
  {
  }

  lemma ReadVerdictIsCalm(c: Config, s: State, t: nat)
    requires CanReadVerdict(c, s, t) && Ready(c, s, t)
    ensures CalmStep(c, s, DoReadVerdict(c, s, t), t)
  {
  }

  lemma WriteDoneIsCalm(c: Config, s: State, t: nat)
    requires CanWriteDone(c, s, t) && Ready(c, s, t)
    ensures CalmStep(c, s, DoWriteDone(c, s, t), t)
  {
  }

  lemma BeginDropIsCalm(c: Config, s: State, t: nat, i: nat)
    requires CanBeginDrop(c, s, t, i) && Ready(c, s, t)
    ensures CalmStep(c, s, DoBeginDrop(c, s, t, i), t)
  {
  }

  lemma DropReadsIsCalm(c: Config, s: State, t: nat)
    requires CanDropReads(c, s, t) && Ready(c, s, t)
    ensures CalmStep(c, s, DoDropReads(c, s, t), t)
  {
  }

  lemma DropWritesIsCalm(c: Config, s: State, t: nat)
    requires CanDropWrites(c, s, t) && Ready(c, s, t)
    ensures CalmStep(c, s, DoDropWrites(c, s, t), t)
  {
  }

  lemma ReprioritiseIsCalm(c: Config, s: State, t: nat, i: nat, p: int)
    requires CanReprioritise(c, s, t, i, p) && Ready(c, s, t)
    ensures CalmStep(c, s, DoReprioritise(c, s, t, i, p), t)
  {
  }

  lemma TellSchedulerIsCalm(c: Config, s: State, t: nat)
    requires CanTellScheduler(c, s, t) && Ready(c, s, t)
    ensures CalmStep(c, s, DoTellScheduler(c, s, t), t)
  {
  }

  lemma LockForRekeyIsCalm(c: Config, s: State, t: nat)
    requires CanLockForRekey(c, s, t) && Ready(c, s, t)
    ensures CalmStep(c, s, DoLockForRekey(c, s, t), t)
  {
  }

  lemma EndRekeyIsCalm(c: Config, s: State, t: nat)
    requires CanEndRekey(c, s, t) && Ready(c, s, t)
    ensures CalmStep(c, s, DoEndRekey(c, s, t), t)
  {
  }

  lemma DrainEndsIsCalm(c: Config, s: State, t: nat, j: nat)
    requires CanDrainOne(c, s, t, j) && Ready(c, s, t) && s.asrQ == []
    ensures CalmStep(c, s, DoDrainOne(c, s, t, j), t)
  {
  }
}
