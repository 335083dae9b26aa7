/** Exactly which items can have a verdict overwritten: concrete runs, and that there are no others. */
module BatchRaces {
  import opened Wrappers
  import opened BatchModel
  import opened BatchStatus
  import opened BatchVerdict
  import S = LlmScheduling

  /** A run under construction. */
  datatype Trace = Trace(states: seq<State>, steps: seq<Step>)

  /** In the run `tr`, an item with these stages has a verdict in state `m` and another in state `k`. */
  ghost predicate Overwrites(c: Config, items: seq<Item>, tr: Trace, stages: set<Bin>, i: nat, m: nat, k: nat)
  {
    && Sound(c) && IsRun(c, items, tr.states, tr.steps) && m <= k < |tr.states|
    && i < |tr.states[m].results| == |tr.states[m].items| && tr.states[m].items[i].stages == stages
    && tr.states[m].results[i].status != Pending
    && !(i < |tr.states[k].results| && tr.states[k].results[i].status == tr.states[m].results[i].status)
  }

  /** On every run of every batch, a verdict on an item with these stages is the last. */
  ghost predicate AlwaysFinal(stages: set<Bin>)
  {
    forall c, items, tr, i, m, k :: !Overwrites(c, items, tr, stages, i, m, k)
  }

  /** The stages of an item never change. */
  lemma StepKeepsStages(c: Config, s: State, step: Step, i: nat)
    requires Enabled(c, s, step) && i < |s.items|
    ensures i < |Apply(c, s, step).items| && Apply(c, s, step).items[i].stages == s.items[i].stages
  {
    if IsNeutral(step) { NeutralStep(c, s, step); }
  }

  lemma {:induction false} StagesStay(c: Config, items: seq<Item>, states: seq<State>, steps: seq<Step>, i: nat, m: nat, k: nat)
    requires IsRun(c, items, states, steps) && m <= k < |states| && i < |states[m].items|
    ensures i < |states[k].items| && states[k].items[i].stages == states[m].items[i].stages
    decreases k
  {
    if m < k {
      StagesStay(c, items, states, steps, i, m, k - 1);
      StepKeepsStages(c, states[k - 1], steps[k - 1], i);
    }
  }

  lemma LlmOnlyIsFinal(c: Config, items: seq<Item>, tr: Trace, i: nat, m: nat, k: nat)
    ensures !Overwrites(c, items, tr, {Llm}, i, m, k)
  {
    if Overwrites(c, items, tr, {Llm}, i, m, k) {
      forall j | 0 <= j < k ensures Undisturbed(c, tr.states[j], tr.steps[j], i) {
        if i < |tr.states[j].items| {
          StagesStay(c, items, tr.states, tr.steps, i, if j < m then j else m, if j < m then m else j);
        }
      }
      VerdictIsFinal(c, items, tr.states, tr.steps, i, m, k);
      assert false;
    }
  }

  // ----- runs that overwrite a verdict -----

  ghost predicate IsTrace(c: Config, items: seq<Item>, tr: Trace)
  {
    IsRun(c, items, tr.states, tr.steps)
  }

  function Last(tr: Trace): State
    requires tr.states != []
  {
    tr.states[|tr.states| - 1]
  }

  /** `tr'` continues `tr`. */
  ghost predicate Continues(c: Config, items: seq<Item>, tr: Trace, tr': Trace)
  {
    IsTrace(c, items, tr') && tr.states != [] && tr.states <= tr'.states
  }

  lemma Then(c: Config, items: seq<Item>, tr: Trace, step: Step) returns (tr': Trace)
    requires IsTrace(c, items, tr) && Enabled(c, Last(tr), step)
    ensures Continues(c, items, tr, tr') && Last(tr') == Apply(c, Last(tr), step)
    ensures |tr'.states| == |tr.states| + 1
  {
    tr' := Trace(tr.states + [Apply(c, Last(tr), step)], tr.steps + [step]);
  }

  /** One worker of each kind, room for one entry, no retries, and an intake. */
  const TINY := Config(1, 1, 1, 1, 1, true)

  function One3(stages: set<Bin>): seq<Item>
  {
    [Item(stages, "", 0)]
  }

  /** The batch consists of the one pending item, and the intake thread is idle. */
  predicate Calm(s: State, stages: set<Bin>)
  {
    && s.items == One3(stages) && |s.results| == 1 && |s.threads| == 4 && s.boot == 0 && !s.stop
    && s.threads[3] == Thread(IntakeThread, Idle) && s.asrOwner.None?
    && s.threads[0].role == DownloadWorker && s.threads[1].role == AsrWorker && s.threads[2].role == LlmWorker
    && s.sched.dispatched == {} && s.sched.finished == {} && s.sched.ready == map[]
    && s.sched.groups == [S.GroupKey("", 0)] && s.sched.priorities == [0] && s.sched.running == {} && s.sched.sequence == 0
    && !s.sched.closed
  }

  lemma Take(stages: set<Bin>) returns (tr: Trace)
    ensures IsTrace(TINY, One3(stages), tr) && Calm(Last(tr), stages)
    ensures Last(tr).threads[0].pc == Claim(0) && Last(tr).threads[1].pc == Idle && Last(tr).threads[2].pc == Idle
    ensures Last(tr).results == [Result(Pending, None, false)] && Last(tr).asrQ == []
  {
    var items := One3(stages);
    var s := Init(TINY, items);
    tr := Trace([s], []);
    assert s.sched.groups == [S.GroupKey("", 0)];
    assert s.sched.priorities == [0];
    assert s.results == [Result(Pending, None, false)];
    assert CanTakeDownload(TINY, s, 0);
    tr := Then(TINY, items, tr, TakeDownload(0));
  }

  /** The intake thread is at `pc`, with the one item in the batch. */
  predicate Dropping(s: State, stages: set<Bin>, pc: Pc)
  {
    && s.items == One3(stages) && |s.results| == 1 && s.boot == 0
    && |s.threads| == 4 && s.threads[3] == Thread(IntakeThread, pc)
  }

  /** What the drop reads lets it go on from `pc` to `next`. */
  predicate GoesOn(s: State, pc: Pc, next: Pc)
    requires |s.results| == 1
  {
    || (pc == DropStatus(0) && next == DropStage(0) && s.results[0].status == Pending)
    || (pc == DropStage(0) && next == DropDispatch(0) && s.results[0].stage.None?)
    || (pc == DropDispatch(0) && next == DropWrite(0) && 0 !in s.sched.dispatched)
  }

  lemma ReadOn(stages: set<Bin>, tr: Trace, pc: Pc, next: Pc) returns (tr': Trace)
    requires IsTrace(TINY, One3(stages), tr) && Dropping(Last(tr), stages, pc) && GoesOn(Last(tr), pc, next)
    ensures Continues(TINY, One3(stages), tr, tr') && Last(tr') == Move(Last(tr), 3, next)
  {
    assert CanDropReads(TINY, Last(tr), 3);
    tr' := Then(TINY, One3(stages), tr, DropReads(3));
  }

  /** The intake thread begins a drop and reads that the item is pending. */
  lemma AskStatus(stages: set<Bin>, tr: Trace) returns (tr': Trace)
    requires IsTrace(TINY, One3(stages), tr) && Dropping(Last(tr), stages, Idle) && Last(tr).results[0].status == Pending
    ensures Continues(TINY, One3(stages), tr, tr') && Last(tr') == Move(Last(tr), 3, DropStage(0))
  {
    assert CanBeginDrop(TINY, Last(tr), 3, 0);
    tr' := Then(TINY, One3(stages), tr, BeginDrop(3, 0));
    tr' := ReadOn(stages, tr', DropStatus(0), DropStage(0));
  }

  /** It goes on to read that the item is in no stage and not dispatched. */
  lemma AskRest(stages: set<Bin>, tr: Trace) returns (tr': Trace)
    requires IsTrace(TINY, One3(stages), tr) && Dropping(Last(tr), stages, DropStage(0))
    requires Last(tr).results[0].stage.None? && Last(tr).sched.dispatched == {}
    ensures Continues(TINY, One3(stages), tr, tr') && Last(tr') == Move(Last(tr), 3, DropWrite(0))
  {
    tr' := ReadOn(stages, tr, DropStage(0), DropDispatch(0));
    tr' := ReadOn(stages, tr', DropDispatch(0), DropWrite(0));
  }

  lemma WriteSkipped(stages: set<Bin>, tr: Trace) returns (tr': Trace)
    requires IsTrace(TINY, One3(stages), tr) && Dropping(Last(tr), stages, DropWrite(0))
    ensures Continues(TINY, One3(stages), tr, tr') && |Last(tr').results| == 1 && Last(tr').results[0].status == Skipped
  {
    assert CanDropWrites(TINY, Last(tr), 3);
    tr' := Then(TINY, One3(stages), tr, DropWrites(3));
  }

  /** Thread `t` fails in the stage of the one item and leaves the stage. */
  lemma Fail(stages: set<Bin>, tr: Trace, t: nat) returns (tr': Trace, m: nat)
    requires IsTrace(TINY, One3(stages), tr) && Dropping(Last(tr), stages, DropStage(0))
    requires t < 3 && Last(tr).threads[t].pc == Run(0, 1) && !Last(tr).threads[t].role.IntakeThread?
    ensures Continues(TINY, One3(stages), tr, tr') && Dropping(Last(tr'), stages, DropStage(0))
    ensures Last(tr').results[0].stage.None? && Last(tr').sched == Last(tr).sched
    ensures m < |tr'.states| && |tr'.states[m].results| == 1 && tr'.states[m].results[0].status == Failed
    ensures tr'.states[m].items == One3(stages)
  {
    assert CanStageFails(TINY, Last(tr), t);
    tr' := Then(TINY, One3(stages), tr, StageFails(t));
    m := |tr'.states| - 1;
    assert CanClearStage(TINY, Last(tr'), t);
    tr' := Then(TINY, One3(stages), tr', ClearStage(t));
  }

  /** A stage that fails between the reads of a drop: the drop turns `failed` into `skipped`. */
  lemma FailUnderDrop(stages: set<Bin>, tr: Trace, t: nat)
    requires IsTrace(TINY, One3(stages), tr) && Calm(Last(tr), stages)
    requires t < 3 && Last(tr).threads[t].pc == Run(0, 1) && Last(tr).results[0].status == Pending
    ensures !AlwaysFinal(stages)
  {
    var asked := AskStatus(stages, tr);
    var failed, m := Fail(stages, asked, t);
    var read := AskRest(stages, failed);
    var written := WriteSkipped(stages, read);
    assert Overwrites(TINY, One3(stages), written, stages, 0, m, |written.states| - 1);
  }

  lemma RaceInDownload(stages: set<Bin>)
    requires Download in stages
    ensures !AlwaysFinal(stages)
  {
    var tr := Take(stages);
    assert CanClaimStage(TINY, Last(tr), 0);
    var tr' := Then(TINY, One3(stages), tr, ClaimStage(0));
    FailUnderDrop(stages, tr', 0);
  }

  /** The item passes the download worker untouched. */
  lemma PassDownload(stages: set<Bin>) returns (tr: Trace)
    requires Download !in stages
    ensures IsTrace(TINY, One3(stages), tr) && Calm(Last(tr), stages)
    ensures Last(tr).threads[0].pc.Put? && Last(tr).threads[0].pc.entry.index == Some(0)
    ensures Last(tr).threads[1].pc == Idle && Last(tr).threads[2].pc == Idle
    ensures Last(tr).results == [Result(Pending, None, false)] && Last(tr).asrQ == []
  {
    tr := Take(stages);
    assert CanClaimStage(TINY, Last(tr), 0);
    tr := Then(TINY, One3(stages), tr, ClaimStage(0));
    assert CanDrawEntry(TINY, Last(tr), 0);
    tr := Then(TINY, One3(stages), tr, DrawEntry(0));
  }

  /** It reaches the asr worker. */
  lemma ReachAsr(stages: set<Bin>) returns (tr: Trace)
    requires Download !in stages
    ensures IsTrace(TINY, One3(stages), tr) && Calm(Last(tr), stages)
    ensures Last(tr).threads[1].pc == Claim(0) && Last(tr).threads[2].pc == Idle
    ensures Last(tr).results == [Result(Pending, None, false)]
  {
    tr := PassDownload(stages);
    assert CanPutEntry(TINY, Last(tr), 0);
    tr := Then(TINY, One3(stages), tr, PutEntry(0));
    assert CanTakeAsr(TINY, Last(tr), 1, 0);
    tr := Then(TINY, One3(stages), tr, TakeAsr(1, 0));
  }

  lemma RaceInAsr(stages: set<Bin>)
    requires Download !in stages && Asr in stages
    ensures !AlwaysFinal(stages)
  {
    var tr := ReachAsr(stages);
    assert CanClaimStage(TINY, Last(tr), 1);
    var tr' := Then(TINY, One3(stages), tr, ClaimStage(1));
    FailUnderDrop(stages, tr', 1);
  }

  /** The scheduler with the one item ready. */
  const ONE_READY := S.Sched([S.GroupKey("", 0)], [0], map[0 := 0.0], {}, {}, {}, 0, false)

  /** An item without stages reaches the llm bin. */
  lemma ReachReady() returns (tr: Trace)
    ensures IsTrace(TINY, One3({}), tr) && Dropping(Last(tr), {}, Idle)
    ensures Last(tr).results == [Result(Pending, None, false)]
    ensures Last(tr).threads[2] == Thread(LlmWorker, Idle) && Last(tr).sched == ONE_READY
  {
    tr := ReachAsr({});
    assert CanClaimStage(TINY, Last(tr), 1);
    tr := Then(TINY, One3({}), tr, ClaimStage(1));
    assert CanSubmitReady(TINY, Last(tr), 1, 0.0);
    tr := Then(TINY, One3({}), tr, SubmitReady(1, 0.0));
  }

  /** The llm worker takes the item, which has no stage to enter under the lock. */
  lemma TakeLlm(tr: Trace) returns (tr': Trace)
    requires IsTrace(TINY, One3({}), tr) && Dropping(Last(tr), {}, DropWrite(0))
    requires Last(tr).results == [Result(Pending, None, false)]
    requires Last(tr).threads[2] == Thread(LlmWorker, Idle) && Last(tr).sched == ONE_READY
    ensures Continues(TINY, One3({}), tr, tr') && Dropping(Last(tr'), {}, DropWrite(0))
    ensures Last(tr').results == [Result(Pending, None, false)]
    ensures Last(tr').threads[2] == Thread(LlmWorker, AfterStage(0)) && |Last(tr').sched.groups| == 1
  {
    assert S.Candidate(Last(tr).sched, 0) && !S.Over(Last(tr).sched);
    assert CanDispatch(TINY, Last(tr), 2, 0);
    tr' := Then(TINY, One3({}), tr, Dispatch(2, 0));
    assert CanClaimStage(TINY, Last(tr'), 2);
    tr' := Then(TINY, One3({}), tr', ClaimStage(2));
  }

  /** It reads `pending` as the verdict. */
  lemma Settled(tr: Trace) returns (tr': Trace)
    requires IsTrace(TINY, One3({}), tr) && Dropping(Last(tr), {}, DropWrite(0))
    requires Last(tr).results == [Result(Pending, None, false)]
    requires Last(tr).threads[2] == Thread(LlmWorker, AfterStage(0)) && |Last(tr).sched.groups| == 1
    ensures Continues(TINY, One3({}), tr, tr') && Dropping(Last(tr'), {}, DropWrite(0))
    ensures Last(tr').threads[2] == Thread(LlmWorker, MarkDone(0))
  {
    assert CanFinishLlm(TINY, Last(tr), 2);
    tr' := Then(TINY, One3({}), tr, FinishLlm(2));
    assert CanReadVerdict(TINY, Last(tr'), 2);
    tr' := Then(TINY, One3({}), tr', ReadVerdict(2));
  }

  /** It marks the item done; then the drop writes. */
  lemma DoneThenSkipped(tr: Trace)
    requires IsTrace(TINY, One3({}), tr) && Dropping(Last(tr), {}, DropWrite(0))
    requires Last(tr).threads[2] == Thread(LlmWorker, MarkDone(0))
    ensures !AlwaysFinal({})
  {
    assert CanWriteDone(TINY, Last(tr), 2);
    var done := Then(TINY, One3({}), tr, WriteDone(2));
    var m := |done.states| - 1;
    var written := WriteSkipped({}, done);
    assert written.states[m] == Last(done);
    assert Overwrites(TINY, One3({}), written, {}, 0, m, |written.states| - 1);
  }

  /** The llm worker finishes the item after the drop's last read: `done` becomes `skipped`. */
  lemma RaceWithoutStages()
    ensures !AlwaysFinal({})
  {
    var ready := ReachReady();
    var asked := AskStatus({}, ready);
    var read := AskRest({}, asked);
    var taken := TakeLlm(read);
    var settled := Settled(taken);
    DoneThenSkipped(settled);
  }

  /** A verdict is always final exactly for items that have an llm stage and no other. */
  lemma FinalIffLlmOnly(stages: set<Bin>)
    ensures AlwaysFinal(stages) <==> stages == {Llm}
  {
    if stages == {Llm} {
      forall c, items, tr, i: nat, m: nat, k: nat ensures !Overwrites(c, items, tr, {Llm}, i, m, k) {
        LlmOnlyIsFinal(c, items, tr, i, m, k);
      }
    } else if Download in stages {
      RaceInDownload(stages);
    } else if Asr in stages {
      RaceInAsr(stages);
    } else {
      assert Llm !in stages by {
        if Llm in stages { assert forall x :: x in stages <==> x == Llm; }
      }
      forall x: Bin ensures x !in stages { match x case Download => case Asr => case Llm => }
      assert stages == {};
      RaceWithoutStages();
    }
  }
}
