/** What every state of a batch satisfies: items in one place each, counters that agree, markers last. */
module BatchInvariant {
  import opened Wrappers
  import opened BatchModel
  import opened BatchCounts
  import S = LlmScheduling

  /** Which program counters a role can have. */
  predicate Fits(role: Role, pc: Pc)
  {
    match role
    case DownloadWorker =>
      || pc.Idle? || InHand(pc) || pc.CountForward? || pc.Send? || pc.Exited?
      || ((pc.Put? || pc.PutHeld?) && (pc.entry.index.Some? ==> pc.more == 0))
    case AsrWorker => pc.Idle? || InHand(pc) || pc.Exited?
    case LlmWorker => pc.Idle? || InHand(pc) || pc.Settle? || pc.MarkDone? || pc.Tally? || pc.Exited?
    case IntakeThread =>
      || pc.Idle? || pc.Admitted? || pc.Registered? || pc.DropStatus? || pc.DropStage? || pc.DropDispatch?
      || pc.DropWrite? || pc.DropMark? || pc.Rerank? || pc.RekeyWait? || pc.Drain? || pc.Refill?
      || pc.Send? || ((pc.Put? || pc.PutHeld?) && pc.entry.index.None?) || pc.HaltDownloads? || pc.Exited?
  }

  /** Items a program counter names without holding them. */
  predicate NamesKnown(s: State, pc: Pc)
  {
    if pc.Settle? || pc.MarkDone? || pc.DropStatus? || pc.DropStage? || pc.DropDispatch? || pc.DropWrite? ||
       pc.DropMark? || pc.Rerank? then pc.index < |s.items| else true
  }

  ghost predicate Shape(c: Config, s: State)
  {
    && Sound(c)
    && |s.threads| == ThreadCount(c)
    && |s.results| == |s.items|
    && (forall t :: 0 <= t < |s.threads| ==> Placed(c, s, t))
    && (s.boot > 0 ==> !c.growing && s.items == [])
  }

  /** Thread `t` has the role of its position and a program counter of that role. */
  predicate Placed(c: Config, s: State, t: nat)
    requires t < |s.threads|
  {
    && s.threads[t].role == RoleAt(c, t)
    && Fits(s.threads[t].role, s.threads[t].pc)
    && NamesKnown(s, s.threads[t].pc)
    && (s.boot > 0 ==> s.threads[t].pc.Idle?)
  }

  /** The intake thread has begun to close the batch. */
  predicate Closing(pc: Pc)
  {
    pc.Send? || pc.Put? || pc.PutHeld? || pc.HaltDownloads? || pc.Exited?
  }

  /** The asr stop markers have been announced, by a thread or by the main thread at the start. */
  predicate Announced(c: Config, s: State)
  {
    s.sentinelsSent || (!c.growing && s.items == [])
  }

  ghost predicate Gates(c: Config, s: State)
  {
    && (!c.growing ==> s.intakeClosed && s.sched.closed)
    && (c.growing && Keeper(c) < |s.threads| ==>
          && (s.intakeClosed <==> Closing(s.threads[Keeper(c)].pc))
          && (s.sched.closed <==> s.threads[Keeper(c)].pc.Exited?))
    && (s.sentinelsSent ==> s.intakeClosed && s.forwarded == |s.items|)
    && (s.intakeClosed && s.forwarded == |s.items| ==> Announced(c, s))
    && (s.lost.Some? ==> s.intakeClosed)
  }

  ghost predicate Counters(c: Config, s: State)
  {
    && s.forwarded + MessageTotal(PreForward, s.downloadQ) + Total(c, PreForward, s.threads) + One(s.lost.Some?) == |s.items|
    && s.completed + Total(c, Uncounted, s.threads) == |s.sched.finished|
    && s.boot + EntryTotal(Markers, s.asrQ) + Total(c, Markers, s.threads)
       == (if Announced(c, s) then c.asrs else 0)
    && MessageTotal(Halts, s.downloadQ) + Total(c, Halts, s.threads) == (if s.intakeClosed then c.downloads else 0)
  }

  /** The number of places item `i` is in. */
  function Places(c: Config, s: State, i: nat): nat
  {
    MessageTotal(Holds(i), s.downloadQ)
    + Total(c, Holds(i), s.threads)
    + EntryTotal(Holds(i), s.asrQ)
    + One(s.lost == Some(i))
    + One(i in s.sched.ready && i !in s.sched.dispatched)
    + One(i in s.sched.finished)
  }

  ghost predicate Conserved(c: Config, s: State)
  {
    forall i: nat :: Places(c, s, i) == One(i < |s.items|)
  }

  ghost predicate Scheduled(c: Config, s: State)
  {
    && S.Valid(s.sched)
    && |s.sched.groups| + One(KeeperPc(c, s).Admitted?) == |s.items|
    && (KeeperPc(c, s).Admitted? ==> KeeperPc(c, s).index == |s.sched.groups|)
    && (forall i :: 0 <= i < |s.sched.groups| ==> s.sched.groups[i] == S.GroupKey(s.items[i].group, i))
    && (forall i: nat :: Total(c, LlmHolds(i), s.threads) == One(i in s.sched.dispatched && i !in s.sched.finished))
    && (forall t :: 0 <= t < |s.threads| && s.threads[t].role.LlmWorker? && s.threads[t].pc.Exited? ==> S.Over(s.sched))
  }

  ghost predicate MarkersLast(c: Config, s: State)
  {
    && (forall a, b :: 0 <= a < b < |s.downloadQ| && s.downloadQ[a].Halt? ==> s.downloadQ[b].Halt?)
    && (Total(c, DownloadGone, s.threads) > 0 ==> MessageTotal(PreForward, s.downloadQ) == 0)
    && (Total(c, AsrGone, s.threads) > 0 ==> EntryTotal(Reals, s.asrQ) == 0)
  }

  function HandOf(pc: Pc): seq<Entry>
  {
    if pc.Drain? || pc.Refill? then pc.hand else []
  }

  predicate HoldsLock(pc: Pc)
  {
    pc.PutHeld? || pc.Drain? || pc.Refill?
  }

  ghost predicate Bounded(c: Config, s: State)
  {
    && |s.asrQ| + |HandOf(KeeperPc(c, s))| <= c.capacity
    && (forall t :: 0 <= t < |s.threads| ==> (HoldsLock(s.threads[t].pc) <==> s.asrOwner == Some(t)))
    && (s.asrOwner.Some? ==> s.asrOwner.value < |s.threads|)
  }

  ghost predicate Invariant(c: Config, s: State)
  {
    && Shape(c, s) && Gates(c, s) && Counters(c, s) && Conserved(c, s)
    && Scheduled(c, s) && MarkersLast(c, s) && Bounded(c, s)
  }

  // ----- a step is judged by what it does to its own thread -----

  /** The places of item `i` that a step of thread `t` can touch. */
  function NearPlaces(c: Config, s: State, t: nat, i: nat): nat
    requires t < |s.threads|
  {
    MessageTotal(Holds(i), s.downloadQ)
    + Weight(c, Holds(i), s.threads[t])
    + EntryTotal(Holds(i), s.asrQ)
    + One(s.lost == Some(i))
    + One(i in s.sched.ready && i !in s.sched.dispatched)
    + One(i in s.sched.finished)
  }

  ghost predicate LocalShape(c: Config, s: State, s': State, t: nat)
    requires OnlyMoves(s, s', t)
  {
    && s.boot == 0 == s'.boot
    && |s.items| <= |s'.items| == |s'.results|
    && Placed(c, s', t)
  }

  ghost predicate LocalCounters(c: Config, s: State, s': State, t: nat)
    requires OnlyMoves(s, s', t)
  {
    var th, th' := s.threads[t], s'.threads[t];
    && s'.forwarded + MessageTotal(PreForward, s'.downloadQ) + Weight(c, PreForward, th') + One(s'.lost.Some?) + |s.items|
       == s.forwarded + MessageTotal(PreForward, s.downloadQ) + Weight(c, PreForward, th) + One(s.lost.Some?) + |s'.items|
    && s'.completed + Weight(c, Uncounted, th') + |s.sched.finished|
       == s.completed + Weight(c, Uncounted, th) + |s'.sched.finished|
    && EntryTotal(Markers, s'.asrQ) + Weight(c, Markers, th') + (if Announced(c, s) then c.asrs else 0)
       == EntryTotal(Markers, s.asrQ) + Weight(c, Markers, th) + (if Announced(c, s') then c.asrs else 0)
    && MessageTotal(Halts, s'.downloadQ) + Weight(c, Halts, th') + (if s.intakeClosed then c.downloads else 0)
       == MessageTotal(Halts, s.downloadQ) + Weight(c, Halts, th) + (if s'.intakeClosed then c.downloads else 0)
  }

  ghost predicate LocalPlaces(c: Config, s: State, s': State, t: nat)
    requires OnlyMoves(s, s', t)
  {
    forall i: nat :: NearPlaces(c, s', t, i) + One(i < |s.items|) == NearPlaces(c, s, t, i) + One(i < |s'.items|)
  }

  ghost predicate LocalHolds(c: Config, s: State, s': State, t: nat)
    requires OnlyMoves(s, s', t)
  {
    forall i: nat ::
      Weight(c, LlmHolds(i), s'.threads[t]) + One(i in s.sched.dispatched && i !in s.sched.finished)
      == Weight(c, LlmHolds(i), s.threads[t]) + One(i in s'.sched.dispatched && i !in s'.sched.finished)
  }

  ghost predicate LocalSchedule(c: Config, s: State, s': State, t: nat)
    requires OnlyMoves(s, s', t)
  {
    && S.Valid(s'.sched)
    && |s'.sched.groups| + One(KeeperPc(c, s').Admitted?) == |s'.items|
    && (KeeperPc(c, s').Admitted? ==> KeeperPc(c, s').index == |s'.sched.groups|)
    && (forall i :: 0 <= i < |s'.sched.groups| ==> s'.sched.groups[i] == S.GroupKey(s'.items[i].group, i))
    && LocalHolds(c, s, s', t)
    && (S.Over(s.sched) ==> S.Over(s'.sched))
    && (s'.threads[t].role.LlmWorker? && s'.threads[t].pc.Exited? ==> S.Over(s'.sched))
  }

  ghost predicate LocalOrder(c: Config, s: State, s': State, t: nat)
    requires OnlyMoves(s, s', t)
  {
    && (forall a, b :: 0 <= a < b < |s'.downloadQ| && s'.downloadQ[a].Halt? ==> s'.downloadQ[b].Halt?)
    && (MessageTotal(PreForward, s'.downloadQ) > 0 ==>
          Total(c, DownloadGone, s.threads) == 0 && Weight(c, DownloadGone, s'.threads[t]) == 0)
    && (EntryTotal(Reals, s'.asrQ) > 0 ==>
          Total(c, AsrGone, s.threads) == 0 && Weight(c, AsrGone, s'.threads[t]) == 0)
  }

  ghost predicate LocalBounds(c: Config, s: State, s': State, t: nat)
    requires OnlyMoves(s, s', t)
  {
    && |s'.asrQ| + |HandOf(KeeperPc(c, s'))| <= c.capacity
    && (HoldsLock(s'.threads[t].pc) <==> s'.asrOwner == Some(t))
    && (s'.asrOwner == s.asrOwner || (s.asrOwner in {None, Some(t)} && s'.asrOwner in {None, Some(t)}))
  }

  ghost predicate Local(c: Config, s: State, s': State, t: nat)
  {
    && OnlyMoves(s, s', t) && s'.threads[t].role == s.threads[t].role
    && LocalShape(c, s, s', t) && Gates(c, s') && LocalCounters(c, s, s', t) && LocalPlaces(c, s, s', t)
    && LocalSchedule(c, s, s', t) && LocalOrder(c, s, s', t) && LocalBounds(c, s, s', t)
  }

  lemma ShapeFromLocal(c: Config, s: State, s': State, t: nat)
    requires Shape(c, s) && OnlyMoves(s, s', t) && LocalShape(c, s, s', t)
    ensures Shape(c, s')
  {
    forall u | 0 <= u < |s'.threads| ensures Placed(c, s', u) {
      assert Placed(c, s, u);
    }
  }

  lemma CountersFromLocal(c: Config, s: State, s': State, t: nat)
    requires Counters(c, s) && OnlyMoves(s, s', t) && LocalShape(c, s, s', t) && LocalCounters(c, s, s', t)
    ensures Counters(c, s')
  {
    TotalUpdate(c, PreForward, s.threads, t, s'.threads[t]);
    TotalUpdate(c, Uncounted, s.threads, t, s'.threads[t]);
    TotalUpdate(c, Markers, s.threads, t, s'.threads[t]);
    TotalUpdate(c, Halts, s.threads, t, s'.threads[t]);
  }

  lemma ConservedFromLocal(c: Config, s: State, s': State, t: nat)
    requires Conserved(c, s) && OnlyMoves(s, s', t) && LocalPlaces(c, s, s', t)
    ensures Conserved(c, s')
  {
    forall i: nat ensures Places(c, s', i) == One(i < |s'.items|) {
      TotalUpdate(c, Holds(i), s.threads, t, s'.threads[t]);
      assert Places(c, s, i) == One(i < |s.items|);
      assert NearPlaces(c, s', t, i) + One(i < |s.items|) == NearPlaces(c, s, t, i) + One(i < |s'.items|);
    }
  }

  lemma ScheduledFromLocal(c: Config, s: State, s': State, t: nat)
    requires Scheduled(c, s) && OnlyMoves(s, s', t) && LocalSchedule(c, s, s', t)
    requires s'.threads[t].role == s.threads[t].role
    ensures Scheduled(c, s')
  {
    forall i: nat
      ensures Total(c, LlmHolds(i), s'.threads) == One(i in s'.sched.dispatched && i !in s'.sched.finished)
    {
      TotalUpdate(c, LlmHolds(i), s.threads, t, s'.threads[t]);
      assert LocalHolds(c, s, s', t);
      assert Total(c, LlmHolds(i), s.threads) == One(i in s.sched.dispatched && i !in s.sched.finished);
    }
  }

  lemma OrderFromLocal(c: Config, s: State, s': State, t: nat)
    requires MarkersLast(c, s) && OnlyMoves(s, s', t) && LocalOrder(c, s, s', t)
    ensures MarkersLast(c, s')
  {
    TotalUpdate(c, DownloadGone, s.threads, t, s'.threads[t]);
    TotalUpdate(c, AsrGone, s.threads, t, s'.threads[t]);
  }

  lemma BoundedFromLocal(c: Config, s: State, s': State, t: nat)
    requires Bounded(c, s) && OnlyMoves(s, s', t) && LocalBounds(c, s, s', t)
    ensures Bounded(c, s')
  {
    forall u | 0 <= u < |s'.threads| ensures HoldsLock(s'.threads[u].pc) <==> s'.asrOwner == Some(u) {
      assert HoldsLock(s.threads[u].pc) <==> s.asrOwner == Some(u);
    }
  }

  lemma FromLocal(c: Config, s: State, s': State, t: nat)
    requires Invariant(c, s) && Local(c, s, s', t)
    ensures Invariant(c, s')
  {
    ShapeFromLocal(c, s, s', t);
    CountersFromLocal(c, s, s', t);
    ConservedFromLocal(c, s, s', t);
    ScheduledFromLocal(c, s, s', t);
    OrderFromLocal(c, s, s', t);
    BoundedFromLocal(c, s, s', t);
  }

  /** What a step knows of its own thread and of the gates. */
  ghost predicate Near(c: Config, s: State, t: nat)
  {
    && Sound(c) && |s.threads| == ThreadCount(c) && |s.results| == |s.items| && Gates(c, s)
    && t < |s.threads| && Placed(c, s, t)
  }

  // ----- what the invariant says of a thread about to move -----

  /** A step that leaves the scheduler and the llm workers alone. */
  lemma ScheduleUntouched(c: Config, s: State, s': State, t: nat)
    requires Scheduled(c, s) && OnlyMoves(s, s', t) && s'.threads[t].role == s.threads[t].role
    requires s'.sched == s.sched && s'.items == s.items
    requires !s.threads[t].role.LlmWorker?
    requires !s.threads[t].pc.Admitted? && !s'.threads[t].pc.Admitted?
    ensures LocalSchedule(c, s, s', t)
  {
  }

  lemma {:induction false} HaltsOnly(q: seq<Message>)
    requires forall k :: 0 <= k < |q| ==> q[k].Halt?
    ensures MessageTotal(PreForward, q) == 0
  {
    if q != [] { HaltsOnly(q[1..]); }
  }

  /** While an item is still on its way to the asr queue, no asr worker has left. */
  lemma NoneGoneWhileForwarding(c: Config, s: State, t: nat)
    requires Counters(c, s) && Gates(c, s) && t < |s.threads| && Weight(c, PreForward, s.threads[t]) > 0
    ensures !Announced(c, s) && Total(c, AsrGone, s.threads) == 0 && s.forwarded < |s.items|
  {
    TotalMember(c, PreForward, s.threads, t);
    GoneAreMarkers(c, s.threads);
  }

  /** While the intake is open no stop marker exists and no worker it would stop has left. */
  lemma NoMarkersWhileOpen(c: Config, s: State)
    requires Counters(c, s) && Gates(c, s) && c.growing && !s.intakeClosed
    ensures !Announced(c, s) && Total(c, AsrGone, s.threads) == 0 && Total(c, DownloadGone, s.threads) == 0
    ensures EntryTotal(Markers, s.asrQ) == 0 && Total(c, Markers, s.threads) == 0
    ensures MessageTotal(Halts, s.downloadQ) == 0
  {
    GoneAreMarkers(c, s.threads);
  }

  /** An item in a worker's hand is in no other place and known to the scheduler. */
  lemma HandIsExclusive(c: Config, s: State, t: nat)
    requires Invariant(c, s) && t < |s.threads| && InHand(s.threads[t].pc)
    ensures var i := s.threads[t].pc.index;
            && i < |s.sched.groups| && i !in s.sched.finished
            && !(i in s.sched.ready && i !in s.sched.dispatched)
  {
    var i := s.threads[t].pc.index;
    assert Places(c, s, i) == One(i < |s.items|);
    TotalMember(c, Holds(i), s.threads, t);
    if KeeperPc(c, s).Admitted? {
      var k := Keeper(c);
      assert Placed(c, s, k) && Placed(c, s, t);
      if t < k { TotalPair(c, Holds(i), s.threads, t, k); }
      assert Weight(c, Holds(i), s.threads[k]) == One(s.threads[k].pc.index == i);
    }
  }

  /** What a download or asr worker has in hand was never handed to the llm bin. */
  lemma HandIsUndispatched(c: Config, s: State, t: nat)
    requires Invariant(c, s) && t < |s.threads| && InHand(s.threads[t].pc) && !s.threads[t].role.LlmWorker?
    ensures s.threads[t].pc.index !in s.sched.dispatched
  {
    var i := s.threads[t].pc.index;
    HandIsExclusive(c, s, t);
    if i in s.sched.dispatched {
      assert Total(c, LlmHolds(i), s.threads) == 1;
      var u := TotalWitness(c, LlmHolds(i), s.threads);
      assert Places(c, s, i) == One(i < |s.items|);
      TotalPair(c, Holds(i), s.threads, if t < u then t else u, if t < u then u else t);
    }
  }

  /** The head of the asr queue is a stop marker only if nothing else is queued. */
  lemma MarkerAtHead(q: seq<Entry>, j: nat)
    requires Head(q, j) && q[j].index.None?
    ensures EntryTotal(Reals, q) == 0
  {
    if EntryTotal(Reals, q) > 0 {
      var k := EntryWitness(Reals, q);
      assert Before(q[k], q[j]);
    }
  }

  /** The intake thread is where `KeeperPc` looks. */
  lemma KeeperIs(c: Config, s: State, t: nat)
    requires Shape(c, s) && t < |s.threads| && s.threads[t].role.IntakeThread?
    ensures c.growing && t == Keeper(c) && KeeperPc(c, s) == s.threads[t].pc
  {
    assert Placed(c, s, t);
  }

  /** An llm worker with an item in hand was handed that item and has not finished it. */
  lemma LlmHandIsDispatched(c: Config, s: State, t: nat)
    requires Scheduled(c, s) && t < |s.threads| && s.threads[t].role.LlmWorker? && InHand(s.threads[t].pc)
    ensures s.threads[t].pc.index in s.sched.dispatched && s.threads[t].pc.index !in s.sched.finished
  {
    TotalMember(c, LlmHolds(s.threads[t].pc.index), s.threads, t);
  }
}
