/** The steps of a batch that move an item, count it, or send a stop marker, one at a time.

    For each step there is a lemma that it keeps the invariant. It is put together from smaller
    ones, each about one part of the invariant and needing only what that part depends on:
    `...Local` for the shape and the counters, `...Counts` and `...Places` for sums over threads
    and queues, `...Schedule` and `...Holds` for the scheduler, `...Order` for the stop markers
    and `...Bounds` for the queue's size and lock. */
module BatchMoves {
  import opened Wrappers
  import opened BatchModel
  import opened BatchCounts
  import opened BatchInvariant
  import opened BatchCalm
  import S = LlmScheduling

  lemma TakeDownloadLocal(c: Config, s: State, t: nat)
    requires CanTakeDownload(c, s, t) && Near(c, s, t) && Bounded(c, s)
    ensures var s' := DoTakeDownload(c, s, t);
      && OnlyMoves(s, s', t) && LocalShape(c, s, s', t) && Gates(c, s') && LocalCounters(c, s, s', t)
      && LocalBounds(c, s, s', t)
  {
  }

  lemma TakeDownloadPlaces(c: Config, s: State, t: nat)
    requires CanTakeDownload(c, s, t) && OnlyMoves(s, DoTakeDownload(c, s, t), t)
    ensures LocalPlaces(c, s, DoTakeDownload(c, s, t), t)
  {
  }

  lemma TakeDownloadOrder(c: Config, s: State, t: nat)
    requires CanTakeDownload(c, s, t) && MarkersLast(c, s) && OnlyMoves(s, DoTakeDownload(c, s, t), t)
    ensures LocalOrder(c, s, DoTakeDownload(c, s, t), t)
  {
    var q := s.downloadQ;
    if q[0].Halt? { HaltsOnly(q); }
  }

  lemma TakeDownloadKeeps(c: Config, s: State, t: nat)
    requires Invariant(c, s) && CanTakeDownload(c, s, t)
    ensures Invariant(c, DoTakeDownload(c, s, t))
  {
    assert Placed(c, s, t);
    TakeDownloadLocal(c, s, t);
    TakeDownloadPlaces(c, s, t);
    TakeDownloadOrder(c, s, t);
    ScheduleUntouched(c, s, DoTakeDownload(c, s, t), t);
    FromLocal(c, s, DoTakeDownload(c, s, t), t);
  }

  lemma PutEntryLocal(c: Config, s: State, t: nat)
    requires CanPutEntry(c, s, t) && Near(c, s, t) && Bounded(c, s)
    ensures var s' := DoPutEntry(c, s, t);
      OnlyMoves(s, s', t) && LocalShape(c, s, s', t) && Gates(c, s')
  {
  }

  lemma PutEntryCounts(c: Config, s: State, t: nat)
    requires CanPutEntry(c, s, t) && Placed(c, s, t) && OnlyMoves(s, DoPutEntry(c, s, t), t)
    ensures LocalCounters(c, s, DoPutEntry(c, s, t), t)
  {
    EntryAppended(Markers, s.asrQ, s.threads[t].pc.entry);
  }

  lemma PutEntryPlaces(c: Config, s: State, t: nat)
    requires CanPutEntry(c, s, t) && OnlyMoves(s, DoPutEntry(c, s, t), t)
    ensures LocalPlaces(c, s, DoPutEntry(c, s, t), t)
  {
    EntryJoins(s.asrQ, s.threads[t].pc.entry);
  }

  lemma PutEntryBounds(c: Config, s: State, t: nat)
    requires CanPutEntry(c, s, t) && Placed(c, s, t) && Bounded(c, s) && OnlyMoves(s, DoPutEntry(c, s, t), t)
    requires |s.threads| == ThreadCount(c)
    ensures LocalBounds(c, s, DoPutEntry(c, s, t), t)
  {
    assert HandOf(KeeperPc(c, s)) == [] by {
      assert HoldsLock(s.threads[t].pc) <==> s.asrOwner == Some(t);
      assert c.growing ==> (HoldsLock(s.threads[Keeper(c)].pc) <==> s.asrOwner == Some(Keeper(c)));
    }
  }

  lemma PutEntryOrder(c: Config, s: State, t: nat)
    requires CanPutEntry(c, s, t) && Placed(c, s, t) && OnlyMoves(s, DoPutEntry(c, s, t), t)
    requires MarkersLast(c, s) && Counters(c, s) && Gates(c, s)
    ensures LocalOrder(c, s, DoPutEntry(c, s, t), t)
  {
    EntryJoins(s.asrQ, s.threads[t].pc.entry);
    if s.threads[t].pc.entry.index.Some? {
      NoneGoneWhileForwarding(c, s, t);
    }
  }

  lemma PutEntryKeeps(c: Config, s: State, t: nat)
    requires Invariant(c, s) && CanPutEntry(c, s, t)
    ensures Invariant(c, DoPutEntry(c, s, t))
  {
    assert Placed(c, s, t);
    assert !s.threads[t].role.LlmWorker?;
    PutEntryLocal(c, s, t);
    PutEntryCounts(c, s, t);
    PutEntryPlaces(c, s, t);
    PutEntryBounds(c, s, t);
    PutEntryOrder(c, s, t);
    ScheduleUntouched(c, s, DoPutEntry(c, s, t), t);
    FromLocal(c, s, DoPutEntry(c, s, t), t);
  }

  lemma TakeAsrLocal(c: Config, s: State, t: nat, j: nat)
    requires CanTakeAsr(c, s, t, j) && Near(c, s, t) && Bounded(c, s)
    ensures var s' := DoTakeAsr(c, s, t, j);
      OnlyMoves(s, s', t) && LocalShape(c, s, s', t) && Gates(c, s') && LocalBounds(c, s, s', t)
  {
  }

  lemma TakeAsrCounts(c: Config, s: State, t: nat, j: nat)
    requires CanTakeAsr(c, s, t, j) && OnlyMoves(s, DoTakeAsr(c, s, t, j), t)
    ensures LocalCounters(c, s, DoTakeAsr(c, s, t, j), t)
  {
    EntryRemoved(Markers, s.asrQ, j);
  }

  lemma TakeAsrPlaces(c: Config, s: State, t: nat, j: nat)
    requires CanTakeAsr(c, s, t, j) && OnlyMoves(s, DoTakeAsr(c, s, t, j), t)
    ensures LocalPlaces(c, s, DoTakeAsr(c, s, t, j), t)
  {
    EntryLeaves(s.asrQ, j);
  }

  lemma TakeAsrOrder(c: Config, s: State, t: nat, j: nat)
    requires CanTakeAsr(c, s, t, j) && MarkersLast(c, s) && OnlyMoves(s, DoTakeAsr(c, s, t, j), t)
    ensures LocalOrder(c, s, DoTakeAsr(c, s, t, j), t)
  {
    EntryLeaves(s.asrQ, j);
    if s.asrQ[j].index.None? { MarkerAtHead(s.asrQ, j); }
  }

  lemma TakeAsrKeeps(c: Config, s: State, t: nat, j: nat)
    requires Invariant(c, s) && CanTakeAsr(c, s, t, j)
    ensures Invariant(c, DoTakeAsr(c, s, t, j))
  {
    assert Placed(c, s, t);
    TakeAsrLocal(c, s, t, j);
    TakeAsrCounts(c, s, t, j);
    TakeAsrPlaces(c, s, t, j);
    TakeAsrOrder(c, s, t, j);
    ScheduleUntouched(c, s, DoTakeAsr(c, s, t, j), t);
    FromLocal(c, s, DoTakeAsr(c, s, t, j), t);
  }

  /** A worker moves; queues and lock stay as they are and no worker that the markers stop leaves. */
  ghost predicate Steady(c: Config, s: State, s': State, t: nat)
  {
    && OnlyMoves(s, s', t) && s'.threads[t].role == s.threads[t].role
    && s'.downloadQ == s.downloadQ && s'.asrQ == s.asrQ && s'.asrOwner == s.asrOwner
    && Weight(c, DownloadGone, s'.threads[t]) == 0 && Weight(c, AsrGone, s'.threads[t]) == 0
    && !HoldsLock(s.threads[t].pc) && !HoldsLock(s'.threads[t].pc)
  }

  lemma SteadyKeeps(c: Config, s: State, s': State, t: nat)
    requires Invariant(c, s) && Steady(c, s, s', t)
    requires LocalShape(c, s, s', t) && Gates(c, s') && LocalCounters(c, s, s', t) && LocalPlaces(c, s, s', t)
    requires LocalSchedule(c, s, s', t)
    ensures Invariant(c, s')
  {
    SteadyOrder(c, s, s', t);
    SteadyBounds(c, s, s', t);
    FromLocal(c, s, s', t);
  }

  lemma SteadyOrder(c: Config, s: State, s': State, t: nat)
    requires MarkersLast(c, s) && Steady(c, s, s', t)
    ensures LocalOrder(c, s, s', t)
  {
  }

  lemma SteadyBounds(c: Config, s: State, s': State, t: nat)
    requires Bounded(c, s) && Steady(c, s, s', t)
    ensures LocalBounds(c, s, s', t)
  {
  }

  lemma CountForwardedLocal(c: Config, s: State, t: nat)
    requires CanCountForwarded(c, s, t) && Near(c, s, t) && s.forwarded < |s.items| && !Announced(c, s)
    ensures var s' := DoCountForwarded(c, s, t);
            Steady(c, s, s', t) && LocalShape(c, s, s', t) && Gates(c, s')
  {
  }

  lemma CountForwardedCounts(c: Config, s: State, t: nat)
    requires CanCountForwarded(c, s, t) && Placed(c, s, t) && !Announced(c, s) && OnlyMoves(s, DoCountForwarded(c, s, t), t)
    ensures LocalCounters(c, s, DoCountForwarded(c, s, t), t)
  {
  }

  lemma CountForwardedPlaces(c: Config, s: State, t: nat)
    requires CanCountForwarded(c, s, t) && OnlyMoves(s, DoCountForwarded(c, s, t), t)
    ensures LocalPlaces(c, s, DoCountForwarded(c, s, t), t)
  {
  }

  lemma CountForwardedKeeps(c: Config, s: State, t: nat)
    requires Invariant(c, s) && CanCountForwarded(c, s, t)
    ensures Invariant(c, DoCountForwarded(c, s, t))
  {
    assert Placed(c, s, t);
    var s' := DoCountForwarded(c, s, t);
    NoneGoneWhileForwarding(c, s, t);
    CountForwardedLocal(c, s, t);
    CountForwardedCounts(c, s, t);
    CountForwardedPlaces(c, s, t);
    ScheduleUntouched(c, s, s', t);
    SteadyKeeps(c, s, s', t);
  }

  lemma SubmitReadyLocal(c: Config, s: State, t: nat, cost: real)
    requires CanSubmitReady(c, s, t, cost) && Near(c, s, t)
    requires s.threads[t].pc.index !in s.sched.dispatched && s.threads[t].pc.index !in s.sched.ready
    ensures var s' := DoSubmitReady(c, s, t, cost);
            Steady(c, s, s', t) && LocalShape(c, s, s', t) && Gates(c, s') && LocalCounters(c, s, s', t)
  {
  }

  lemma SubmitReadyPlaces(c: Config, s: State, t: nat, cost: real)
    requires CanSubmitReady(c, s, t, cost) && OnlyMoves(s, DoSubmitReady(c, s, t, cost), t)
    requires s.threads[t].pc.index !in s.sched.dispatched && s.threads[t].pc.index !in s.sched.ready
    ensures LocalPlaces(c, s, DoSubmitReady(c, s, t, cost), t)
  {
  }

  lemma SubmitReadySchedule(c: Config, s: State, t: nat, cost: real)
    requires CanSubmitReady(c, s, t, cost) && Placed(c, s, t) && Scheduled(c, s)
    requires s.threads[t].pc.index < |s.sched.groups| && OnlyMoves(s, DoSubmitReady(c, s, t, cost), t)
    ensures LocalSchedule(c, s, DoSubmitReady(c, s, t, cost), t)
  {
    S.SubmittedValid(s.sched, s.threads[t].pc.index, cost);
  }

  lemma SubmitReadyKeeps(c: Config, s: State, t: nat, cost: real)
    requires Invariant(c, s) && CanSubmitReady(c, s, t, cost)
    ensures Invariant(c, DoSubmitReady(c, s, t, cost))
  {
    assert Placed(c, s, t);
    var s' := DoSubmitReady(c, s, t, cost);
    HandIsExclusive(c, s, t);
    HandIsUndispatched(c, s, t);
    SubmitReadyLocal(c, s, t, cost);
    SubmitReadyPlaces(c, s, t, cost);
    SubmitReadySchedule(c, s, t, cost);
    SteadyKeeps(c, s, s', t);
  }

  lemma DispatchLocal(c: Config, s: State, t: nat, i: nat)
    requires CanDispatch(c, s, t, i) && Near(c, s, t) && s.sched.finished <= s.sched.dispatched
    ensures var s' := DoDispatch(c, s, t, i);
            Steady(c, s, s', t) && LocalShape(c, s, s', t) && Gates(c, s') && LocalCounters(c, s, s', t)
  {
  }

  lemma DispatchPlaces(c: Config, s: State, t: nat, i: nat)
    requires CanDispatch(c, s, t, i) && OnlyMoves(s, DoDispatch(c, s, t, i), t) && s.sched.finished <= s.sched.dispatched
    ensures LocalPlaces(c, s, DoDispatch(c, s, t, i), t)
  {
  }

  lemma DispatchHolds(c: Config, s: State, t: nat, i: nat)
    requires CanDispatch(c, s, t, i) && OnlyMoves(s, DoDispatch(c, s, t, i), t) && s.sched.finished <= s.sched.dispatched
    ensures LocalHolds(c, s, DoDispatch(c, s, t, i), t)
  {
  }

  lemma DispatchSchedule(c: Config, s: State, t: nat, i: nat)
    requires CanDispatch(c, s, t, i) && Placed(c, s, t) && Scheduled(c, s) && OnlyMoves(s, DoDispatch(c, s, t, i), t)
    ensures LocalSchedule(c, s, DoDispatch(c, s, t, i), t)
  {
    DispatchHolds(c, s, t, i);
    S.DispatchedValid(s.sched, i);
  }

  lemma DispatchKeeps(c: Config, s: State, t: nat, i: nat)
    requires Invariant(c, s) && CanDispatch(c, s, t, i)
    ensures Invariant(c, DoDispatch(c, s, t, i))
  {
    assert Placed(c, s, t);
    var s' := DoDispatch(c, s, t, i);
    DispatchLocal(c, s, t, i);
    DispatchPlaces(c, s, t, i);
    DispatchSchedule(c, s, t, i);
    SteadyKeeps(c, s, s', t);
  }

  lemma LeaveLlmLocal(c: Config, s: State, t: nat)
    requires CanLeaveLlm(c, s, t) && Near(c, s, t)
    ensures var s' := DoLeaveLlm(c, s, t);
      && Steady(c, s, s', t) && LocalShape(c, s, s', t) && Gates(c, s') && LocalCounters(c, s, s', t)
      && LocalPlaces(c, s, s', t)
  {
  }

  lemma LeaveLlmSchedule(c: Config, s: State, t: nat)
    requires CanLeaveLlm(c, s, t) && Placed(c, s, t) && Scheduled(c, s) && OnlyMoves(s, DoLeaveLlm(c, s, t), t)
    ensures LocalSchedule(c, s, DoLeaveLlm(c, s, t), t)
  {
  }

  lemma LeaveLlmKeeps(c: Config, s: State, t: nat)
    requires Invariant(c, s) && CanLeaveLlm(c, s, t)
    ensures Invariant(c, DoLeaveLlm(c, s, t))
  {
    assert Placed(c, s, t);
    var s' := DoLeaveLlm(c, s, t);
    LeaveLlmLocal(c, s, t);
    LeaveLlmSchedule(c, s, t);
    SteadyKeeps(c, s, s', t);
  }

  lemma FinishLlmLocal(c: Config, s: State, t: nat)
    requires CanFinishLlm(c, s, t) && Near(c, s, t) && |s.sched.groups| <= |s.items|
    requires s.threads[t].pc.index in s.sched.dispatched && s.threads[t].pc.index !in s.sched.finished
    ensures var s' := DoFinishLlm(c, s, t);
      && Steady(c, s, s', t) && LocalShape(c, s, s', t) && Gates(c, s') && LocalCounters(c, s, s', t)
  {
  }

  lemma FinishLlmPlaces(c: Config, s: State, t: nat)
    requires CanFinishLlm(c, s, t) && Near(c, s, t) && |s.sched.groups| <= |s.items|
    requires s.threads[t].pc.index in s.sched.dispatched && s.threads[t].pc.index !in s.sched.finished
    requires OnlyMoves(s, DoFinishLlm(c, s, t), t)
    ensures LocalPlaces(c, s, DoFinishLlm(c, s, t), t)
  {
  }

  lemma FinishLlmHolds(c: Config, s: State, t: nat)
    requires CanFinishLlm(c, s, t) && OnlyMoves(s, DoFinishLlm(c, s, t), t)
    requires s.threads[t].pc.index in s.sched.dispatched && s.threads[t].pc.index !in s.sched.finished
    ensures LocalHolds(c, s, DoFinishLlm(c, s, t), t)
  {
  }

  lemma FinishLlmSchedule(c: Config, s: State, t: nat)
    requires CanFinishLlm(c, s, t) && Placed(c, s, t) && Scheduled(c, s) && OnlyMoves(s, DoFinishLlm(c, s, t), t)
    requires s.threads[t].pc.index in s.sched.dispatched && s.threads[t].pc.index !in s.sched.finished
    ensures LocalSchedule(c, s, DoFinishLlm(c, s, t), t)
  {
    FinishLlmHolds(c, s, t);
    S.FinishedValid(s.sched, s.threads[t].pc.index);
  }

  lemma FinishLlmKeeps(c: Config, s: State, t: nat)
    requires Invariant(c, s) && CanFinishLlm(c, s, t)
    ensures Invariant(c, DoFinishLlm(c, s, t))
  {
    assert Placed(c, s, t);
    var s' := DoFinishLlm(c, s, t);
    LlmHandIsDispatched(c, s, t);
    FinishLlmLocal(c, s, t);
    FinishLlmPlaces(c, s, t);
    FinishLlmSchedule(c, s, t);
    SteadyKeeps(c, s, s', t);
  }

  lemma CountCompletedLocal(c: Config, s: State, t: nat)
    requires CanCountCompleted(c, s, t) && Near(c, s, t)
    ensures var s' := DoCountCompleted(c, s, t);
            Steady(c, s, s', t) && LocalShape(c, s, s', t) && Gates(c, s') && LocalCounters(c, s, s', t)
  {
  }

  lemma CountCompletedPlaces(c: Config, s: State, t: nat)
    requires CanCountCompleted(c, s, t) && OnlyMoves(s, DoCountCompleted(c, s, t), t)
    ensures LocalPlaces(c, s, DoCountCompleted(c, s, t), t)
  {
  }

  lemma CountCompletedSchedule(c: Config, s: State, t: nat)
    requires CanCountCompleted(c, s, t) && Placed(c, s, t) && Scheduled(c, s) && OnlyMoves(s, DoCountCompleted(c, s, t), t)
    ensures LocalSchedule(c, s, DoCountCompleted(c, s, t), t)
  {
  }

  lemma CountCompletedKeeps(c: Config, s: State, t: nat)
    requires Invariant(c, s) && CanCountCompleted(c, s, t)
    ensures Invariant(c, DoCountCompleted(c, s, t))
  {
    assert Placed(c, s, t);
    var s' := DoCountCompleted(c, s, t);
    CountCompletedLocal(c, s, t);
    CountCompletedPlaces(c, s, t);
    CountCompletedSchedule(c, s, t);
    SteadyKeeps(c, s, s', t);
  }

  // ----- steps of the intake thread -----

  lemma DrainOneLocal(c: Config, s: State, t: nat, j: nat)
    requires CanDrainOne(c, s, t, j) && s.asrQ != [] && Near(c, s, t)
    ensures var s' := DoDrainOne(c, s, t, j);
            OnlyMoves(s, s', t) && LocalShape(c, s, s', t) && Gates(c, s')
  {
  }

  lemma DrainOneCounts(c: Config, s: State, t: nat, j: nat)
    requires CanDrainOne(c, s, t, j) && s.asrQ != [] && OnlyMoves(s, DoDrainOne(c, s, t, j), t)
    ensures var s' := DoDrainOne(c, s, t, j);
            LocalCounters(c, s, s', t) && LocalPlaces(c, s, s', t)
  {
    EntryLeaves(s.asrQ, j);
    EntryJoins(s.threads[t].pc.hand, s.asrQ[j]);
  }

  lemma DrainOneRest(c: Config, s: State, t: nat, j: nat)
    requires CanDrainOne(c, s, t, j) && s.asrQ != [] && OnlyMoves(s, DoDrainOne(c, s, t, j), t)
    requires MarkersLast(c, s) && Bounded(c, s) && t == Keeper(c) && c.growing
    ensures var s' := DoDrainOne(c, s, t, j);
            LocalOrder(c, s, s', t) && LocalBounds(c, s, s', t)
  {
    EntryRemoved(Reals, s.asrQ, j);
  }

  lemma DrainOneKeeps(c: Config, s: State, t: nat, j: nat)
    requires Invariant(c, s) && CanDrainOne(c, s, t, j)
    ensures Invariant(c, DoDrainOne(c, s, t, j))
  {
    assert Placed(c, s, t);
    var s' := DoDrainOne(c, s, t, j);
    KeeperIs(c, s, t);
    if s.asrQ == [] {
      DrainEndsIsCalm(c, s, t, j);
      CalmKeeps(c, s, s', t);
    } else {
      DrainOneLocal(c, s, t, j);
      DrainOneCounts(c, s, t, j);
      DrainOneRest(c, s, t, j);
      ScheduleUntouched(c, s, s', t);
      FromLocal(c, s, s', t);
    }
  }

  /** Going back with another rank, an entry counts for what it did. */
  lemma RekeyedWeighs(s: State, e: Entry)
    requires e.index.Some? ==> e.index.value < |s.items|
    ensures forall g :: EntryWeight(g, Rekeyed(s, e)) == EntryWeight(g, e)
  {
  }

  lemma RefillOneLocal(c: Config, s: State, t: nat)
    requires CanRefillOne(c, s, t) && Near(c, s, t)
    ensures var s' := DoRefillOne(c, s, t);
            OnlyMoves(s, s', t) && LocalShape(c, s, s', t) && Gates(c, s')
  {
  }

  lemma RefillOneCounts(c: Config, s: State, t: nat)
    requires CanRefillOne(c, s, t) && OnlyMoves(s, DoRefillOne(c, s, t), t)
    ensures var s' := DoRefillOne(c, s, t);
            LocalCounters(c, s, s', t) && LocalPlaces(c, s, s', t)
  {
    var e := s.threads[t].pc.hand[0];
    RekeyedWeighs(s, e);
    EntryJoins(s.asrQ, Rekeyed(s, e));
  }

  lemma RefillOneRest(c: Config, s: State, t: nat)
    requires CanRefillOne(c, s, t) && OnlyMoves(s, DoRefillOne(c, s, t), t)
    requires MarkersLast(c, s) && Bounded(c, s) && t == Keeper(c) && c.growing
    requires Total(c, AsrGone, s.threads) == 0
    ensures var s' := DoRefillOne(c, s, t);
            LocalOrder(c, s, s', t) && LocalBounds(c, s, s', t)
  {
  }

  lemma RefillOneKeeps(c: Config, s: State, t: nat)
    requires Invariant(c, s) && CanRefillOne(c, s, t)
    ensures Invariant(c, DoRefillOne(c, s, t))
  {
    assert Placed(c, s, t);
    var s' := DoRefillOne(c, s, t);
    KeeperIs(c, s, t);
    NoMarkersWhileOpen(c, s);
    RefillOneLocal(c, s, t);
    RefillOneCounts(c, s, t);
    RefillOneRest(c, s, t);
    ScheduleUntouched(c, s, s', t);
    FromLocal(c, s, s', t);
  }

  lemma AdmitLocal(c: Config, s: State, t: nat, item: Item)
    requires CanAdmit(c, s, t, item) && Near(c, s, t) && t == Keeper(c) && c.growing
    ensures var s' := DoAdmit(c, s, t, item);
            Steady(c, s, s', t) && LocalShape(c, s, s', t) && Gates(c, s') && LocalCounters(c, s, s', t)
  {
  }

  lemma AdmitPlaces(c: Config, s: State, t: nat, item: Item)
    requires CanAdmit(c, s, t, item) && OnlyMoves(s, DoAdmit(c, s, t, item), t)
    ensures LocalPlaces(c, s, DoAdmit(c, s, t, item), t)
  {
  }

  lemma AdmitSchedule(c: Config, s: State, t: nat, item: Item)
    requires CanAdmit(c, s, t, item) && Scheduled(c, s) && OnlyMoves(s, DoAdmit(c, s, t, item), t)
    requires t == Keeper(c) && c.growing
    ensures LocalSchedule(c, s, DoAdmit(c, s, t, item), t)
  {
  }

  lemma AdmitKeeps(c: Config, s: State, t: nat, item: Item)
    requires Invariant(c, s) && CanAdmit(c, s, t, item)
    ensures Invariant(c, DoAdmit(c, s, t, item))
  {
    assert Placed(c, s, t);
    KeeperIs(c, s, t);
    AdmitLocal(c, s, t, item);
    AdmitPlaces(c, s, t, item);
    AdmitSchedule(c, s, t, item);
    SteadyKeeps(c, s, DoAdmit(c, s, t, item), t);
  }

  lemma RegisterItemLocal(c: Config, s: State, t: nat)
    requires CanRegisterItem(c, s, t) && Near(c, s, t) && t == Keeper(c) && c.growing
    ensures var s' := DoRegisterItem(c, s, t);
      && Steady(c, s, s', t) && LocalShape(c, s, s', t) && Gates(c, s') && LocalCounters(c, s, s', t)
      && LocalPlaces(c, s, s', t)
  {
  }

  lemma RegisterItemHolds(c: Config, s: State, t: nat)
    requires CanRegisterItem(c, s, t) && OnlyMoves(s, DoRegisterItem(c, s, t), t)
    ensures LocalHolds(c, s, DoRegisterItem(c, s, t), t)
  {
  }

  lemma RegisterItemGroups(c: Config, s: State, t: nat)
    requires CanRegisterItem(c, s, t) && Scheduled(c, s) && OnlyMoves(s, DoRegisterItem(c, s, t), t)
    requires t == Keeper(c) && c.growing
    ensures var s' := DoRegisterItem(c, s, t);
      && |s'.sched.groups| == |s'.items| && !KeeperPc(c, s').Admitted?
      && (forall i :: 0 <= i < |s'.sched.groups| ==> s'.sched.groups[i] == S.GroupKey(s'.items[i].group, i))
  {
  }

  lemma RegisterItemSchedule(c: Config, s: State, t: nat)
    requires CanRegisterItem(c, s, t) && Scheduled(c, s) && OnlyMoves(s, DoRegisterItem(c, s, t), t)
    requires t == Keeper(c) && c.growing && !s.sched.closed
    ensures LocalSchedule(c, s, DoRegisterItem(c, s, t), t)
  {
    var i := s.threads[t].pc.index;
    S.AddedValid(s.sched, s.items[i].group, s.items[i].priority);
    RegisterItemGroups(c, s, t);
    RegisterItemHolds(c, s, t);
  }

  lemma RegisterItemKeeps(c: Config, s: State, t: nat)
    requires Invariant(c, s) && CanRegisterItem(c, s, t)
    ensures Invariant(c, DoRegisterItem(c, s, t))
  {
    assert Placed(c, s, t);
    KeeperIs(c, s, t);
    RegisterItemLocal(c, s, t);
    RegisterItemSchedule(c, s, t);
    SteadyKeeps(c, s, DoRegisterItem(c, s, t), t);
  }

  lemma {:induction false} NoHaltQueued(q: seq<Message>, k: nat)
    requires MessageTotal(Halts, q) == 0 && k < |q|
    ensures q[k].Job?
  {
    MessageMember(Halts, q, k);
  }

  lemma EnqueueLocal(c: Config, s: State, t: nat)
    requires CanEnqueue(c, s, t) && Near(c, s, t) && t == Keeper(c) && c.growing
    ensures var s' := DoEnqueue(c, s, t);
            OnlyMoves(s, s', t) && LocalShape(c, s, s', t) && Gates(c, s') && LocalCounters(c, s, s', t)
            && LocalPlaces(c, s, s', t)
  {
    MessageJoins(s.downloadQ, Job(s.threads[t].pc.index));
  }

  lemma EnqueueOrder(c: Config, s: State, t: nat)
    requires CanEnqueue(c, s, t) && OnlyMoves(s, DoEnqueue(c, s, t), t)
    requires MarkersLast(c, s) && MessageTotal(Halts, s.downloadQ) == 0
    requires Total(c, DownloadGone, s.threads) == 0 && Total(c, AsrGone, s.threads) == 0
    requires s.threads[t].role.IntakeThread?
    ensures LocalOrder(c, s, DoEnqueue(c, s, t), t)
  {
    forall k | 0 <= k < |s.downloadQ| ensures s.downloadQ[k].Job? { NoHaltQueued(s.downloadQ, k); }
  }

  /** The intake thread moves without touching lock, asr queue or hand. */
  lemma KeeperBounds(c: Config, s: State, s': State, t: nat)
    requires Bounded(c, s) && OnlyMoves(s, s', t) && s'.asrQ == s.asrQ && s'.asrOwner == s.asrOwner
    requires !HoldsLock(s.threads[t].pc) && !HoldsLock(s'.threads[t].pc)
    ensures LocalBounds(c, s, s', t)
  {
  }

  lemma EnqueueKeeps(c: Config, s: State, t: nat)
    requires Invariant(c, s) && CanEnqueue(c, s, t)
    ensures Invariant(c, DoEnqueue(c, s, t))
  {
    assert Placed(c, s, t);
    var s' := DoEnqueue(c, s, t);
    KeeperIs(c, s, t);
    NoMarkersWhileOpen(c, s);
    EnqueueLocal(c, s, t);
    EnqueueOrder(c, s, t);
    KeeperBounds(c, s, s', t);
    ScheduleUntouched(c, s, s', t);
    FromLocal(c, s, s', t);
  }

  lemma CloseIntakeLocal(c: Config, s: State, t: nat, reason: Reason)
    requires CanCloseIntake(c, s, t, reason) && Near(c, s, t) && t == Keeper(c) && c.growing
    ensures var s' := DoCloseIntake(c, s, t, reason);
            Steady(c, s, s', t) && LocalShape(c, s, s', t) && Gates(c, s')
  {
  }

  lemma CloseIntakeCounts(c: Config, s: State, t: nat, reason: Reason)
    requires CanCloseIntake(c, s, t, reason) && Gates(c, s) && t == Keeper(c) && c.growing
    requires OnlyMoves(s, DoCloseIntake(c, s, t, reason), t)
    ensures LocalCounters(c, s, DoCloseIntake(c, s, t, reason), t)
  {
  }

  lemma CloseIntakePlaces(c: Config, s: State, t: nat, reason: Reason)
    requires CanCloseIntake(c, s, t, reason) && Gates(c, s) && t == Keeper(c) && c.growing
    requires OnlyMoves(s, DoCloseIntake(c, s, t, reason), t)
    ensures LocalPlaces(c, s, DoCloseIntake(c, s, t, reason), t)
  {
  }

  lemma CloseIntakeSchedule(c: Config, s: State, t: nat, reason: Reason)
    requires CanCloseIntake(c, s, t, reason) && Scheduled(c, s) && OnlyMoves(s, DoCloseIntake(c, s, t, reason), t)
    requires t == Keeper(c) && c.growing
    ensures LocalSchedule(c, s, DoCloseIntake(c, s, t, reason), t)
  {
  }

  lemma CloseIntakeKeeps(c: Config, s: State, t: nat, reason: Reason)
    requires Invariant(c, s) && CanCloseIntake(c, s, t, reason)
    ensures Invariant(c, DoCloseIntake(c, s, t, reason))
  {
    assert Placed(c, s, t);
    KeeperIs(c, s, t);
    CloseIntakeLocal(c, s, t, reason);
    CloseIntakeCounts(c, s, t, reason);
    CloseIntakePlaces(c, s, t, reason);
    CloseIntakeSchedule(c, s, t, reason);
    SteadyKeeps(c, s, DoCloseIntake(c, s, t, reason), t);
  }

  lemma HaltOneLocal(c: Config, s: State, t: nat)
    requires CanHaltOne(c, s, t) && Near(c, s, t) && t == Keeper(c) && c.growing
    ensures var s' := DoHaltOne(c, s, t);
            OnlyMoves(s, s', t) && LocalShape(c, s, s', t) && Gates(c, s') && LocalCounters(c, s, s', t)
            && LocalPlaces(c, s, s', t)
  {
    MessageJoins(s.downloadQ, Halt);
  }

  lemma HaltOneOrder(c: Config, s: State, t: nat)
    requires CanHaltOne(c, s, t) && MarkersLast(c, s) && OnlyMoves(s, DoHaltOne(c, s, t), t)
    ensures LocalOrder(c, s, DoHaltOne(c, s, t), t)
  {
    MessageAppended(PreForward, s.downloadQ, Halt);
  }

  lemma HaltOneKeeps(c: Config, s: State, t: nat)
    requires Invariant(c, s) && CanHaltOne(c, s, t)
    ensures Invariant(c, DoHaltOne(c, s, t))
  {
    assert Placed(c, s, t);
    var s' := DoHaltOne(c, s, t);
    KeeperIs(c, s, t);
    HaltOneLocal(c, s, t);
    HaltOneOrder(c, s, t);
    KeeperBounds(c, s, s', t);
    ScheduleUntouched(c, s, s', t);
    FromLocal(c, s, s', t);
  }

  lemma CloseSchedulerLocal(c: Config, s: State, t: nat)
    requires CanCloseScheduler(c, s, t) && Near(c, s, t) && t == Keeper(c) && c.growing
    ensures var s' := DoCloseScheduler(c, s, t);
      && Steady(c, s, s', t) && LocalShape(c, s, s', t) && Gates(c, s') && LocalCounters(c, s, s', t)
      && LocalPlaces(c, s, s', t)
  {
  }

  lemma CloseSchedulerSchedule(c: Config, s: State, t: nat)
    requires CanCloseScheduler(c, s, t) && Scheduled(c, s) && OnlyMoves(s, DoCloseScheduler(c, s, t), t)
    requires t == Keeper(c) && c.growing
    ensures LocalSchedule(c, s, DoCloseScheduler(c, s, t), t)
  {
  }

  lemma CloseSchedulerKeeps(c: Config, s: State, t: nat)
    requires Invariant(c, s) && CanCloseScheduler(c, s, t)
    ensures Invariant(c, DoCloseScheduler(c, s, t))
  {
    assert Placed(c, s, t);
    KeeperIs(c, s, t);
    CloseSchedulerLocal(c, s, t);
    CloseSchedulerSchedule(c, s, t);
    SteadyKeeps(c, s, DoCloseScheduler(c, s, t), t);
  }

  /** No thread moves, and at most a stop marker of the main thread joins the asr queue. */
  ghost predicate Still(s: State, s': State)
  {
    && s'.threads == s.threads && s'.items == s.items && s'.results == s.results && s'.sched == s.sched
    && s'.downloadQ == s.downloadQ && s'.asrOwner == s.asrOwner && s'.forwarded == s.forwarded
    && s'.completed == s.completed && s'.intakeClosed == s.intakeClosed && s'.sentinelsSent == s.sentinelsSent
    && s'.lost == s.lost && s'.boot <= s.boot
  }

  lemma StillShape(c: Config, s: State, s': State)
    requires Shape(c, s) && Still(s, s')
    ensures Shape(c, s')
  {
    forall t | 0 <= t < |s'.threads| ensures Placed(c, s', t) { assert Placed(c, s, t); }
  }

  lemma StillPlaces(c: Config, s: State, s': State)
    requires Conserved(c, s) && Still(s, s') && forall i: nat :: EntryTotal(Holds(i), s'.asrQ) == EntryTotal(Holds(i), s.asrQ)
    ensures Conserved(c, s')
  {
    forall i: nat ensures Places(c, s', i) == One(i < |s'.items|) {
      assert Places(c, s, i) == One(i < |s.items|);
    }
  }

  lemma BootKeeps(c: Config, s: State)
    requires Invariant(c, s) && CanBoot(c, s)
    ensures Invariant(c, DoBoot(c, s))
  {
    EntryJoins(s.asrQ, Entry(None, 0, s.arrivals));
    StillShape(c, s, DoBoot(c, s));
    StillPlaces(c, s, DoBoot(c, s));
  }

  lemma StopKeeps(c: Config, s: State)
    requires Invariant(c, s) && CanStop(c, s)
    ensures Invariant(c, DoStop(c, s))
  {
    StillShape(c, s, DoStop(c, s));
    StillPlaces(c, s, DoStop(c, s));
  }
}
