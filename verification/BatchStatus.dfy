/** What becomes of the items of a batch: when a stage runs and when a drop is accepted.

    Records and threads are related item by item: a record says nothing that the threads and the
    scheduler do not bear out. Each step is judged by what it does to one record. */
module BatchStatus {
  import opened BatchModel
  import opened BatchCounts
  import opened BatchInvariant
  import opened BatchMoves
  import opened BatchRuns

  /** The record of item `i` agrees with what the threads are doing to it. */
  ghost predicate ItemOk(c: Config, s: State, i: nat)
    requires i < |s.results|
  {
    var r := s.results[i];
    && Total(c, InStage(i), s.threads) == One(r.stage.Some?)
    && Total(c, Settling(i), s.threads) <= One(i in s.sched.finished)
    && (i in s.sched.finished && r.status == Pending ==> Total(c, Settling(i), s.threads) == 1)
    && (r.dropped ==> r.status in {Skipped, Done} && r.stage.None?)
    && (r.status == Done ==> i in s.sched.finished)
  }

  /** A thread inside a stage has a pending item with that stage; a drop under way has one at rest. */
  predicate ThreadOk(s: State, th: Thread)
  {
    && (th.pc.Run? || th.pc.Failing? ==> Knows(s, th.pc.index) && BinOf(th.role) in s.items[th.pc.index].stages)
    && (th.pc.Run? ==> s.results[th.pc.index].status == Pending)
    && (th.pc.DropDispatch? || th.pc.DropWrite? || th.pc.DropMark? ==>
          Knows(s, th.pc.index) && s.results[th.pc.index].stage.None?)
    && (th.pc.DropMark? ==> s.results[th.pc.index].status in {Skipped, Done})
  }

  ghost predicate StatusOk(c: Config, s: State)
  {
    && (forall i: nat :: i < |s.results| ==> ItemOk(c, s, i))
    && (forall t :: 0 <= t < |s.threads| ==> ThreadOk(s, s.threads[t]))
  }

  // ----- what a step can do to the records -----

  /** Every record but that of item `i` is untouched. */
  ghost predicate Spares(s: State, s': State, i: nat)
  {
    && |s'.items| == |s.items| && |s'.results| == |s.results|
    && (forall k :: 0 <= k < |s.items| ==> s'.items[k].stages == s.items[k].stages)
    && (forall k :: 0 <= k < |s.results| && k != i ==> s'.results[k] == s.results[k])
    && (forall k: nat :: k != i ==> (k in s'.sched.finished <==> k in s.sched.finished))
  }

  /** The subject of the step counts, before and after, for no item but `i`. */
  ghost predicate About(c: Config, s: State, s': State, t: nat, i: nat)
  {
    && OnlyMoves(s, s', t) && s'.threads[t].role == s.threads[t].role
    && (forall k: nat :: k != i ==>
          Weight(c, InStage(k), s'.threads[t]) == Weight(c, InStage(k), s.threads[t])
          && Weight(c, Settling(k), s'.threads[t]) == Weight(c, Settling(k), s.threads[t]))
  }

  /** Threads other than `t` still agree with the records. */
  ghost predicate OthersOk(s: State, s': State, t: nat)
  {
    forall u :: 0 <= u < |s.threads| && u != t ==> ThreadOk(s', s.threads[u])
  }

  /** A step about item `i`, judged by what it does to `i` and to its own thread. */
  lemma AboutKeeps(c: Config, s: State, s': State, t: nat, i: nat)
    requires StatusOk(c, s) && Spares(s, s', i) && About(c, s, s', t, i)
    requires i < |s.results| ==> ItemOk(c, s', i)
    requires ThreadOk(s', s'.threads[t]) && OthersOk(s, s', t)
    ensures StatusOk(c, s')
  {
    forall k: nat | k < |s'.results| ensures ItemOk(c, s', k) {
      if k != i {
        assert ItemOk(c, s, k);
        TotalUpdate(c, InStage(k), s.threads, t, s'.threads[t]);
        TotalUpdate(c, Settling(k), s.threads, t, s'.threads[t]);
      }
    }
    forall u | 0 <= u < |s'.threads| ensures ThreadOk(s', s'.threads[u]) {
      if u != t { assert ThreadOk(s', s.threads[u]); }
    }
  }

  /** Item `i` alone changes, and no other thread runs it or is dropping it. */
  ghost predicate NoOtherRuns(s: State, t: nat, i: nat)
  {
    forall u :: 0 <= u < |s.threads| && u != t ==> !Involves(s.threads[u].pc, i)
  }

  predicate Involves(pc: Pc, i: nat)
  {
    (pc.Run? || pc.DropDispatch? || pc.DropWrite? || pc.DropMark?) && pc.index == i
  }

  lemma OthersUninvolved(c: Config, s: State, s': State, t: nat, i: nat)
    requires StatusOk(c, s) && Spares(s, s', i)
    requires NoOtherRuns(s, t, i) || s'.results == s.results
    ensures OthersOk(s, s', t)
  {
    forall u | 0 <= u < |s.threads| && u != t ensures ThreadOk(s', s.threads[u]) {
      assert ThreadOk(s, s.threads[u]);
      assert NoOtherRuns(s, t, i) ==> !Involves(s.threads[u].pc, i);
    }
  }

  /** Two workers never have the same item in hand. */
  lemma HandsDiffer(c: Config, s: State, t: nat, u: nat)
    requires Conserved(c, s) && t < |s.threads| && u < |s.threads| && t != u
    requires InHand(s.threads[t].pc) && InHand(s.threads[u].pc)
    ensures s.threads[t].pc.index != s.threads[u].pc.index
  {
    var i := s.threads[t].pc.index;
    TotalPair(c, Holds(i), s.threads, if t < u then t else u, if t < u then u else t);
    assert Places(c, s, i) == One(i < |s.items|);
  }

  /** Nobody else runs or drops what a thread is running. */
  lemma RunsAlone(c: Config, s: State, t: nat)
    requires Conserved(c, s) && StatusOk(c, s) && t < |s.threads|
    requires s.threads[t].pc.Run? || s.threads[t].pc.Failing?
    ensures NoOtherRuns(s, t, s.threads[t].pc.index)
  {
    var i := s.threads[t].pc.index;
    assert ThreadOk(s, s.threads[t]);
    assert ItemOk(c, s, i);
    TotalMember(c, InStage(i), s.threads, t);
    forall u | 0 <= u < |s.threads| && u != t ensures !Involves(s.threads[u].pc, i) {
      assert ThreadOk(s, s.threads[u]);
      if s.threads[u].pc.Run? { HandsDiffer(c, s, t, u); }
    }
  }

  /** An item just claimed is in no stage and not done. */
  lemma ClaimIsFresh(c: Config, s: State, t: nat)
    requires Invariant(c, s) && StatusOk(c, s) && t < |s.threads| && s.threads[t].pc.Claim?
    ensures var i := s.threads[t].pc.index;
            i < |s.results| && s.results[i].stage.None? && s.results[i].status != Done && Total(c, InStage(i), s.threads) == 0
  {
    var i := s.threads[t].pc.index;
    HandIsExclusive(c, s, t);
    assert ItemOk(c, s, i);
    if Total(c, InStage(i), s.threads) > 0 {
      var u := TotalWitness(c, InStage(i), s.threads);
      HandsDiffer(c, s, t, u);
    }
  }

  // ----- the steps that change a record or a verdict in the making -----

  /** The step is about the item its thread names. */
  ghost predicate Own(c: Config, s: State, s': State, t: nat, i: nat)
  {
    Spares(s, s', i) && About(c, s, s', t, i)
  }

  /** A step about item `i` that leaves its record alone. */
  lemma QuietOwn(c: Config, s: State, s': State, t: nat, i: nat)
    requires StatusOk(c, s) && Own(c, s, s', t, i) && s'.results == s.results
    requires (i < |s.results| ==> ItemOk(c, s', i)) && ThreadOk(s', s'.threads[t])
    ensures StatusOk(c, s')
  {
    OthersUninvolved(c, s, s', t, i);
    AboutKeeps(c, s, s', t, i);
  }

  /** A step about item `i` that no other thread is running or dropping. */
  lemma LoneOwn(c: Config, s: State, s': State, t: nat, i: nat)
    requires StatusOk(c, s) && Own(c, s, s', t, i) && NoOtherRuns(s, t, i)
    requires (i < |s.results| ==> ItemOk(c, s', i)) && ThreadOk(s', s'.threads[t])
    ensures StatusOk(c, s')
  {
    OthersUninvolved(c, s, s', t, i);
    AboutKeeps(c, s, s', t, i);
  }

  lemma ClaimStageOwn(c: Config, s: State, t: nat)
    requires CanClaimStage(c, s, t)
    ensures Own(c, s, DoClaimStage(c, s, t), t, s.threads[t].pc.index)
  {
  }

  lemma ClaimStageItem(c: Config, s: State, t: nat)
    requires CanClaimStage(c, s, t) && ItemOk(c, s, s.threads[t].pc.index)
    requires s.results[s.threads[t].pc.index].status != Done && Total(c, InStage(s.threads[t].pc.index), s.threads) == 0
    ensures ItemOk(c, DoClaimStage(c, s, t), s.threads[t].pc.index)
  {
    var i, s' := s.threads[t].pc.index, DoClaimStage(c, s, t);
    TotalUpdate(c, InStage(i), s.threads, t, s'.threads[t]);
    TotalUpdate(c, Settling(i), s.threads, t, s'.threads[t]);
  }

  lemma ClaimStageThread(c: Config, s: State, t: nat)
    requires CanClaimStage(c, s, t) && s.results[s.threads[t].pc.index].status != Done
    ensures ThreadOk(DoClaimStage(c, s, t), DoClaimStage(c, s, t).threads[t])
  {
  }

  /** Nobody else runs or is dropping an item that a worker claims under the lock. */
  lemma ClaimsAlone(c: Config, s: State, t: nat)
    requires Shape(c, s) && Conserved(c, s) && t < |s.threads| && s.threads[t].pc.Claim? && !ForwardHeld(c, s)
    ensures NoOtherRuns(s, t, s.threads[t].pc.index)
  {
    forall u | 0 <= u < |s.threads| && u != t ensures !Involves(s.threads[u].pc, s.threads[t].pc.index) {
      assert Placed(c, s, u);
      if s.threads[u].pc.Run? { HandsDiffer(c, s, t, u); }
      if s.threads[u].role.IntakeThread? { KeeperIs(c, s, u); }
    }
  }

  lemma ClaimStageStatus(c: Config, s: State, t: nat)
    requires Invariant(c, s) && StatusOk(c, s) && CanClaimStage(c, s, t)
    ensures StatusOk(c, DoClaimStage(c, s, t))
  {
    var i, s' := s.threads[t].pc.index, DoClaimStage(c, s, t);
    ClaimIsFresh(c, s, t);
    ClaimStageOwn(c, s, t);
    ClaimStageItem(c, s, t);
    ClaimStageThread(c, s, t);
    if s'.results == s.results {
      QuietOwn(c, s, s', t, i);
    } else {
      ClaimsAlone(c, s, t);
      LoneOwn(c, s, s', t, i);
    }
  }

  lemma StageSucceedsLocal(c: Config, s: State, t: nat)
    requires CanStageSucceeds(c, s, t) && ItemOk(c, s, s.threads[t].pc.index) && ThreadOk(s, s.threads[t])
    ensures var i, s' := s.threads[t].pc.index, DoStageSucceeds(c, s, t);
            Own(c, s, s', t, i) && ItemOk(c, s', i) && ThreadOk(s', s'.threads[t])
  {
    var i, s' := s.threads[t].pc.index, DoStageSucceeds(c, s, t);
    TotalUpdate(c, InStage(i), s.threads, t, s'.threads[t]);
    TotalUpdate(c, Settling(i), s.threads, t, s'.threads[t]);
    TotalMember(c, InStage(i), s.threads, t);
  }

  lemma StageFailsLocal(c: Config, s: State, t: nat)
    requires CanStageFails(c, s, t) && ItemOk(c, s, s.threads[t].pc.index) && ThreadOk(s, s.threads[t])
    ensures var i, s' := s.threads[t].pc.index, DoStageFails(c, s, t);
            Own(c, s, s', t, i) && ItemOk(c, s', i) && ThreadOk(s', s'.threads[t])
  {
    var i, s' := s.threads[t].pc.index, DoStageFails(c, s, t);
    TotalUpdate(c, InStage(i), s.threads, t, s'.threads[t]);
    TotalUpdate(c, Settling(i), s.threads, t, s'.threads[t]);
  }

  lemma ClearStageLocal(c: Config, s: State, t: nat)
    requires CanClearStage(c, s, t) && ItemOk(c, s, s.threads[t].pc.index) && ThreadOk(s, s.threads[t])
    ensures var i, s' := s.threads[t].pc.index, DoClearStage(c, s, t);
            Own(c, s, s', t, i) && ItemOk(c, s', i) && ThreadOk(s', s'.threads[t])
  {
    var i, s' := s.threads[t].pc.index, DoClearStage(c, s, t);
    TotalUpdate(c, InStage(i), s.threads, t, s'.threads[t]);
    TotalUpdate(c, Settling(i), s.threads, t, s'.threads[t]);
    TotalMember(c, InStage(i), s.threads, t);
  }

  lemma InStageStatus(c: Config, s: State, step: Step)
    requires Conserved(c, s) && StatusOk(c, s) && Enabled(c, s, step)
    requires step.StageSucceeds? || step.StageFails? || step.ClearStage?
    ensures StatusOk(c, Apply(c, s, step))
  {
    var t := step.t;
    assert ThreadOk(s, s.threads[t]) && ItemOk(c, s, s.threads[t].pc.index);
    RunsAlone(c, s, t);
    match step {
      case StageSucceeds(_) => StageSucceedsLocal(c, s, t);
      case StageFails(_) => StageFailsLocal(c, s, t);
      case ClearStage(_) => ClearStageLocal(c, s, t);
      case _ =>
    }
    LoneOwn(c, s, Apply(c, s, step), t, s.threads[t].pc.index);
  }

  lemma FinishLlmLocal(c: Config, s: State, t: nat)
    requires CanFinishLlm(c, s, t) && Knows(s, s.threads[t].pc.index) && ItemOk(c, s, s.threads[t].pc.index)
    requires s.threads[t].pc.index !in s.sched.finished
    ensures var i, s' := s.threads[t].pc.index, DoFinishLlm(c, s, t);
            Own(c, s, s', t, i) && ItemOk(c, s', i) && ThreadOk(s', s'.threads[t]) && s'.results == s.results
  {
    var i, s' := s.threads[t].pc.index, DoFinishLlm(c, s, t);
    TotalUpdate(c, InStage(i), s.threads, t, s'.threads[t]);
    TotalUpdate(c, Settling(i), s.threads, t, s'.threads[t]);
  }

  lemma FinishLlmStatus(c: Config, s: State, t: nat)
    requires Invariant(c, s) && StatusOk(c, s) && CanFinishLlm(c, s, t)
    ensures StatusOk(c, DoFinishLlm(c, s, t))
  {
    var i := s.threads[t].pc.index;
    HandIsExclusive(c, s, t);
    assert ItemOk(c, s, i);
    FinishLlmLocal(c, s, t);
    QuietOwn(c, s, DoFinishLlm(c, s, t), t, i);
  }

  lemma ReadVerdictStatus(c: Config, s: State, t: nat)
    requires StatusOk(c, s) && CanReadVerdict(c, s, t)
    ensures StatusOk(c, DoReadVerdict(c, s, t))
  {
    var i, s' := s.threads[t].pc.index, DoReadVerdict(c, s, t);
    assert ItemOk(c, s, i);
    TotalUpdate(c, InStage(i), s.threads, t, s'.threads[t]);
    TotalUpdate(c, Settling(i), s.threads, t, s'.threads[t]);
    QuietOwn(c, s, s', t, i);
  }

  lemma WriteDoneLocal(c: Config, s: State, t: nat)
    requires CanWriteDone(c, s, t) && ItemOk(c, s, s.threads[t].pc.index)
    ensures var i, s' := s.threads[t].pc.index, DoWriteDone(c, s, t);
      && Own(c, s, s', t, i) && ItemOk(c, s', i) && ThreadOk(s', s'.threads[t]) && i in s.sched.finished
  {
    var i, s' := s.threads[t].pc.index, DoWriteDone(c, s, t);
    TotalMember(c, Settling(i), s.threads, t);
    TotalUpdate(c, InStage(i), s.threads, t, s'.threads[t]);
    TotalUpdate(c, Settling(i), s.threads, t, s'.threads[t]);
  }

  lemma WriteDoneStatus(c: Config, s: State, t: nat)
    requires Invariant(c, s) && StatusOk(c, s) && CanWriteDone(c, s, t)
    ensures StatusOk(c, DoWriteDone(c, s, t))
  {
    var i, s' := s.threads[t].pc.index, DoWriteDone(c, s, t);
    assert ItemOk(c, s, i);
    WriteDoneLocal(c, s, t);
    forall u | 0 <= u < |s.threads| && u != t ensures ThreadOk(s', s.threads[u]) {
      assert ThreadOk(s, s.threads[u]);
      if s.threads[u].pc.Run? { HandIsExclusive(c, s, u); }
    }
    AboutKeeps(c, s, s', t, i);
  }

  lemma DropWritesLocal(c: Config, s: State, t: nat)
    requires CanDropWrites(c, s, t) && ItemOk(c, s, s.threads[t].pc.index) && ThreadOk(s, s.threads[t])
    ensures var i, s' := s.threads[t].pc.index, DoDropWrites(c, s, t);
            Own(c, s, s', t, i) && ItemOk(c, s', i) && ThreadOk(s', s'.threads[t])
  {
    var i, s' := s.threads[t].pc.index, DoDropWrites(c, s, t);
    TotalUpdate(c, InStage(i), s.threads, t, s'.threads[t]);
    TotalUpdate(c, Settling(i), s.threads, t, s'.threads[t]);
  }

  lemma DropWritesStatus(c: Config, s: State, t: nat)
    requires Shape(c, s) && StatusOk(c, s) && CanDropWrites(c, s, t)
    ensures StatusOk(c, DoDropWrites(c, s, t))
  {
    var i := s.threads[t].pc.index;
    assert ThreadOk(s, s.threads[t]) && ItemOk(c, s, i);
    forall u | 0 <= u < |s.threads| && u != t ensures !Involves(s.threads[u].pc, i) {
      assert Placed(c, s, u) && Placed(c, s, t);
      TotalMember(c, InStage(i), s.threads, u);
    }
    DropWritesLocal(c, s, t);
    LoneOwn(c, s, DoDropWrites(c, s, t), t, i);
  }

  lemma DropReadsLocal(c: Config, s: State, t: nat)
    requires CanDropReads(c, s, t) && ThreadOk(s, s.threads[t])
    ensures var i, s' := s.threads[t].pc.index, DoDropReads(c, s, t);
            Own(c, s, s', t, i) && s'.results == s.results && ThreadOk(s', s'.threads[t])
  {
  }

  lemma DropReadsItem(c: Config, s: State, t: nat)
    requires CanDropReads(c, s, t) && ItemOk(c, s, s.threads[t].pc.index)
    ensures ItemOk(c, DoDropReads(c, s, t), s.threads[t].pc.index)
  {
    var i, s' := s.threads[t].pc.index, DoDropReads(c, s, t);
    TotalUpdate(c, InStage(i), s.threads, t, s'.threads[t]);
    TotalUpdate(c, Settling(i), s.threads, t, s'.threads[t]);
  }

  lemma DropReadsStatus(c: Config, s: State, t: nat)
    requires StatusOk(c, s) && CanDropReads(c, s, t)
    ensures StatusOk(c, DoDropReads(c, s, t))
  {
    var i := s.threads[t].pc.index;
    assert ThreadOk(s, s.threads[t]) && ItemOk(c, s, i);
    DropReadsLocal(c, s, t);
    DropReadsItem(c, s, t);
    QuietOwn(c, s, DoDropReads(c, s, t), t, i);
  }

  /** No thread has anything to do with an item still to come. */
  lemma NewcomerIsNowhere(c: Config, s: State)
    requires Shape(c, s) && Conserved(c, s)
    ensures Total(c, InStage(|s.items|), s.threads) == 0 && Total(c, Settling(|s.items|), s.threads) == 0
    ensures |s.items| !in s.sched.finished
  {
    var n := |s.items|;
    assert Places(c, s, n) == One(n < |s.items|);
    forall u | 0 <= u < |s.threads|
      ensures Weight(c, InStage(n), s.threads[u]) == 0 && Weight(c, Settling(n), s.threads[u]) == 0
    {
      assert Placed(c, s, u);
      TotalMember(c, Holds(n), s.threads, u);
    }
    TotalZero(c, InStage(n), s.threads);
    TotalZero(c, Settling(n), s.threads);
  }

  lemma AdmitRecord(c: Config, s: State, t: nat, item: Item, k: nat)
    requires Invariant(c, s) && StatusOk(c, s) && CanAdmit(c, s, t, item) && k <= |s.items|
    ensures ItemOk(c, DoAdmit(c, s, t, item), k)
  {
    var s' := DoAdmit(c, s, t, item);
    NewcomerIsNowhere(c, s);
    TotalUpdate(c, InStage(k), s.threads, t, s'.threads[t]);
    TotalUpdate(c, Settling(k), s.threads, t, s'.threads[t]);
    if k < |s.items| { assert ItemOk(c, s, k); }
  }

  lemma AdmitStatus(c: Config, s: State, t: nat, item: Item)
    requires Invariant(c, s) && StatusOk(c, s) && CanAdmit(c, s, t, item)
    ensures StatusOk(c, DoAdmit(c, s, t, item))
  {
    var s' := DoAdmit(c, s, t, item);
    forall k: nat | k < |s'.results| ensures ItemOk(c, s', k) { AdmitRecord(c, s, t, item, k); }
    forall u | 0 <= u < |s'.threads| ensures ThreadOk(s', s'.threads[u]) {
      if u != t { assert ThreadOk(s, s.threads[u]); }
    }
  }

  // ----- all the other steps leave records and verdicts alone -----

  predicate Busy(pc: Pc)
  {
    pc.Run? || pc.Failing? || pc.Settle? || pc.MarkDone? || pc.DropDispatch? || pc.DropWrite? || pc.DropMark?
  }

  ghost predicate Neutral(s: State, s': State, t: nat)
  {
    && OnlyMoves(s, s', t) && s'.threads[t].role == s.threads[t].role
    && s'.results == s.results && s'.sched.finished == s.sched.finished
    && |s'.items| == |s.items| && (forall k :: 0 <= k < |s.items| ==> s'.items[k].stages == s.items[k].stages)
    && !Busy(s.threads[t].pc) && !Busy(s'.threads[t].pc)
  }

  lemma NeutralKeeps(c: Config, s: State, s': State, t: nat)
    requires StatusOk(c, s) && Neutral(s, s', t)
    ensures StatusOk(c, s')
  {
    OthersUninvolved(c, s, s', t, |s.results|);
    AboutKeeps(c, s, s', t, |s.results|);
  }

  predicate IsDownloadNeutral(step: Step)
  {
    match step
    case TakeDownload(_) | DrawEntry(_) | PutEntry(_) | BlockOnPut(_) => true
    case _ => false
  }

  lemma DownloadNeutral(c: Config, s: State, step: Step)
    requires Enabled(c, s, step) && IsDownloadNeutral(step)
    ensures Neutral(s, Apply(c, s, step), step.t)
  {
    match step
    case TakeDownload(t) => assert Neutral(s, DoTakeDownload(c, s, t), t);
    case DrawEntry(t) => assert Neutral(s, DoDrawEntry(c, s, t), t);
    case PutEntry(t) => assert Neutral(s, DoPutEntry(c, s, t), t);
    case BlockOnPut(t) => assert Neutral(s, DoBlockOnPut(c, s, t), t);
    case _ =>
  }

  predicate IsMarkerNeutral(step: Step)
  {
    match step
    case CountForwarded(_) | DrawSentinel(_) | SendDone(_) => true
    case _ => false
  }

  lemma MarkerNeutral(c: Config, s: State, step: Step)
    requires Enabled(c, s, step) && IsMarkerNeutral(step)
    ensures Neutral(s, Apply(c, s, step), step.t)
  {
    match step
    case CountForwarded(t) => assert Neutral(s, DoCountForwarded(c, s, t), t);
    case DrawSentinel(t) => assert Neutral(s, DoDrawSentinel(c, s, t), t);
    case SendDone(t) => assert Neutral(s, DoSendDone(c, s, t), t);
    case _ =>
  }

  predicate IsWorkerNeutral(step: Step)
  {
    match step
    case TakeAsr(_, _) | SubmitReady(_, _) | Dispatch(_, _) | LeaveLlm(_) | CountCompleted(_) => true
    case _ => false
  }

  lemma WorkerNeutral(c: Config, s: State, step: Step)
    requires Enabled(c, s, step) && IsWorkerNeutral(step)
    ensures Neutral(s, Apply(c, s, step), step.t)
  {
    match step
    case TakeAsr(t, j) => assert Neutral(s, DoTakeAsr(c, s, t, j), t);
    case SubmitReady(t, cost) => assert Neutral(s, DoSubmitReady(c, s, t, cost), t);
    case Dispatch(t, i) => assert Neutral(s, DoDispatch(c, s, t, i), t);
    case LeaveLlm(t) => assert Neutral(s, DoLeaveLlm(c, s, t), t);
    case CountCompleted(t) => assert Neutral(s, DoCountCompleted(c, s, t), t);
    case _ =>
  }

  predicate IsActionNeutral(step: Step)
  {
    match step
    case RegisterItem(_) | Enqueue(_) | BeginDrop(_, _) | Reprioritise(_, _, _) => true
    case _ => false
  }

  lemma ActionNeutral(c: Config, s: State, step: Step)
    requires Enabled(c, s, step) && IsActionNeutral(step)
    ensures Neutral(s, Apply(c, s, step), step.t)
  {
    match step
    case RegisterItem(t) => assert Neutral(s, DoRegisterItem(c, s, t), t);
    case Enqueue(t) => assert Neutral(s, DoEnqueue(c, s, t), t);
    case BeginDrop(t, i) => assert Neutral(s, DoBeginDrop(c, s, t, i), t);
    case Reprioritise(t, i, p) => assert Neutral(s, DoReprioritise(c, s, t, i, p), t);
    case _ =>
  }

  predicate IsRekeyNeutral(step: Step)
  {
    match step
    case TellScheduler(_) | LockForRekey(_) | DrainOne(_, _) | RefillOne(_) | EndRekey(_) => true
    case _ => false
  }

  lemma DrainNeutral(c: Config, s: State, t: nat, j: nat)
    requires CanDrainOne(c, s, t, j)
    ensures Neutral(s, DoDrainOne(c, s, t, j), t)
  {
  }

  lemma RekeyNeutral(c: Config, s: State, step: Step)
    requires Enabled(c, s, step) && IsRekeyNeutral(step)
    ensures Neutral(s, Apply(c, s, step), step.t)
  {
    match step
    case TellScheduler(t) => assert Neutral(s, DoTellScheduler(c, s, t), t);
    case LockForRekey(t) => assert Neutral(s, DoLockForRekey(c, s, t), t);
    case DrainOne(t, j) => DrainNeutral(c, s, t, j);
    case RefillOne(t) => assert Neutral(s, DoRefillOne(c, s, t), t);
    case EndRekey(t) => assert Neutral(s, DoEndRekey(c, s, t), t);
    case _ =>
  }

  predicate IsClosingNeutral(step: Step)
  {
    match step
    case CloseIntake(_, _) | HaltOne(_) | CloseScheduler(_) => true
    case _ => false
  }

  lemma ClosingNeutral(c: Config, s: State, step: Step)
    requires Enabled(c, s, step) && IsClosingNeutral(step)
    ensures Neutral(s, Apply(c, s, step), step.t)
  {
    match step
    case CloseIntake(t, reason) => assert Neutral(s, DoCloseIntake(c, s, t, reason), t);
    case HaltOne(t) => assert Neutral(s, DoHaltOne(c, s, t), t);
    case CloseScheduler(t) => assert Neutral(s, DoCloseScheduler(c, s, t), t);
    case _ =>
  }

  predicate IsNeutral(step: Step)
  {
    IsDownloadNeutral(step) || IsMarkerNeutral(step) || IsWorkerNeutral(step) || IsActionNeutral(step)
    || IsRekeyNeutral(step) || IsClosingNeutral(step)
  }

  lemma NeutralStep(c: Config, s: State, step: Step)
    requires Enabled(c, s, step) && IsNeutral(step)
    ensures Neutral(s, Apply(c, s, step), step.t)
  {
    if IsDownloadNeutral(step) {
      DownloadNeutral(c, s, step);
    } else if IsMarkerNeutral(step) {
      MarkerNeutral(c, s, step);
    } else if IsWorkerNeutral(step) {
      WorkerNeutral(c, s, step);
    } else if IsActionNeutral(step) {
      ActionNeutral(c, s, step);
    } else if IsRekeyNeutral(step) {
      RekeyNeutral(c, s, step);
    } else {
      ClosingNeutral(c, s, step);
    }
  }

  /** Every step keeps records and threads in agreement. */
  lemma StepStatus(c: Config, s: State, step: Step)
    requires Invariant(c, s) && StatusOk(c, s) && Enabled(c, s, step)
    ensures StatusOk(c, Apply(c, s, step))
  {
    if IsNeutral(step) {
      NeutralStep(c, s, step);
      NeutralKeeps(c, s, Apply(c, s, step), step.t);
    } else if IsRecordStep(step) {
      RecordStep(c, s, step);
    } else {
      OtherStep(c, s, step);
    }
  }

  lemma OtherStep(c: Config, s: State, step: Step)
    requires Invariant(c, s) && StatusOk(c, s) && Enabled(c, s, step) && !IsNeutral(step) && !IsRecordStep(step)
    ensures StatusOk(c, Apply(c, s, step))
  {
    match step
    case Admit(t, item) => AdmitStatus(c, s, t, item);
    case Boot => StillStatus(c, s, DoBoot(c, s));
    case Stop => StillStatus(c, s, DoStop(c, s));
    case _ =>
  }

  predicate IsStageRecord(step: Step)
  {
    match step
    case ClaimStage(_) => true
    case StageSucceeds(_) => true
    case StageFails(_) => true
    case ClearStage(_) => true
    case _ => false
  }

  predicate IsVerdictRecord(step: Step)
  {
    match step
    case FinishLlm(_) => true
    case ReadVerdict(_) => true
    case WriteDone(_) => true
    case DropReads(_) => true
    case DropWrites(_) => true
    case _ => false
  }

  predicate IsRecordStep(step: Step)
  {
    IsStageRecord(step) || IsVerdictRecord(step)
  }

  lemma RecordStep(c: Config, s: State, step: Step)
    requires Invariant(c, s) && StatusOk(c, s) && Enabled(c, s, step) && IsRecordStep(step)
    ensures StatusOk(c, Apply(c, s, step))
  {
    if IsStageRecord(step) { StageRecordStep(c, s, step); } else { VerdictRecordStep(c, s, step); }
  }

  lemma StageRecordStep(c: Config, s: State, step: Step)
    requires Invariant(c, s) && StatusOk(c, s) && Enabled(c, s, step) && IsStageRecord(step)
    ensures StatusOk(c, Apply(c, s, step))
  {
    match step
    case ClaimStage(t) => ClaimStageStatus(c, s, t);
    case StageSucceeds(_) => InStageStatus(c, s, step);
    case StageFails(_) => InStageStatus(c, s, step);
    case ClearStage(_) => InStageStatus(c, s, step);
    case _ =>
  }

  lemma VerdictRecordStep(c: Config, s: State, step: Step)
    requires Invariant(c, s) && StatusOk(c, s) && Enabled(c, s, step) && IsVerdictRecord(step)
    ensures StatusOk(c, Apply(c, s, step))
  {
    match step
    case FinishLlm(t) => FinishLlmStatus(c, s, t);
    case ReadVerdict(t) => ReadVerdictStatus(c, s, t);
    case WriteDone(t) => WriteDoneStatus(c, s, t);
    case DropReads(t) => DropReadsStatus(c, s, t);
    case DropWrites(t) => DropWritesStatus(c, s, t);
    case _ =>
  }

  lemma StillStatus(c: Config, s: State, s': State)
    requires StatusOk(c, s) && Still(s, s')
    ensures StatusOk(c, s')
  {
    forall k: nat | k < |s'.results| ensures ItemOk(c, s', k) { assert ItemOk(c, s, k); }
    forall u | 0 <= u < |s'.threads| ensures ThreadOk(s', s'.threads[u]) { assert ThreadOk(s, s.threads[u]); }
  }

  lemma InitStatus(c: Config, items: seq<Item>)
    ensures StatusOk(c, Init(c, items))
  {
    InitTotals(c, items);
  }

  /** Records and threads agree in every state of every run. */
  lemma {:induction false} RunStatus(c: Config, items: seq<Item>, states: seq<State>, steps: seq<Step>, k: nat)
    requires Sound(c) && IsRun(c, items, states, steps) && k < |states|
    ensures StatusOk(c, states[k])
    decreases k
  {
    if k == 0 {
      InitStatus(c, items);
    } else {
      RunStatus(c, items, states, steps, k - 1);
      RunKeeps(c, items, states, steps, k - 1);
      StepStatus(c, states[k - 1], steps[k - 1]);
    }
  }
}
