/** The three-bin runner (`run_batch`) as a transition system.

    Worker threads and the intake thread each have a program counter; a step is one section
    under a lock, or one unlocked read or write of shared state. What a stage does is not
    modelled: a stage call succeeds or fails, as the step says. Waiting (a full queue, a taken
    lock, an empty queue) is a step that is not enabled, so the polling loops of the source do
    not appear as steps. */
module BatchModel {
  import opened Wrappers
  import S = LlmScheduling

  datatype Bin = Download | Asr | Llm

  datatype Status = Pending | Done | Failed | Skipped

  /** `stages` are the bins the item has a callable for. */
  datatype Item = Item(stages: set<Bin>, group: string, priority: int)

  datatype Result = Result(status: Status, stage: Option<Bin>, dropped: bool)

  /** `attempts` is one more than the number of retries; `growing` says there is an intake. */
  datatype Config = Config(downloads: nat, asrs: nat, llms: nat, capacity: nat, attempts: nat, growing: bool)

  predicate Sound(c: Config)
  {
    c.downloads >= 1 && c.asrs >= 1 && c.llms >= 1 && c.capacity >= 1 && c.attempts >= 1
  }

  datatype Message = Job(index: nat) | Halt

  /** An entry of the asr queue; the stop marker has no index and a rank worse than any. */
  datatype Entry = Entry(index: Option<nat>, rank: int, arrival: nat)

  predicate Before(a: Entry, b: Entry)
  {
    || (a.index.Some? && b.index.None?)
    || (a.index.Some? == b.index.Some? && (a.rank < b.rank || (a.rank == b.rank && a.arrival < b.arrival)))
  }

  /** `j` is a position a priority queue may serve next. */
  predicate Head(q: seq<Entry>, j: nat)
  {
    j < |q| && forall k :: 0 <= k < |q| ==> !Before(q[k], q[j])
  }

  datatype Role = DownloadWorker | AsrWorker | LlmWorker | IntakeThread

  datatype Pc =
    | Idle
    | Claim(index: nat)              // holds an item, at the start of `_run_stage`
    | Run(index: nat, left: nat)     // inside the stage call, `left` attempts including this one
    | Failing(index: nat)            // status written, `stage` not yet cleared
    | AfterStage(index: nat)         // `_run_stage` has returned
    | Put(entry: Entry, more: nat)   // waiting for room; `more` stop markers follow
    | PutHeld(entry: Entry, more: nat) // stop is set: waiting for room with `asr_lock` held
    | CountForward                   // entry is queued, `forwarded_to_asr` not yet counted
    | Send(more: nat)                // about to send `more` stop markers
    | Settle(index: nat)             // `scheduler.finished` done, verdict not yet read
    | MarkDone(index: nat)           // read `pending`, about to write `done`
    | Tally                          // about to count the item as completed
    | Admitted(index: nat)           // appended to `items`, not yet to the scheduler
    | Registered(index: nat)         // in the scheduler, not yet in the download queue
    | DropStatus(index: nat)         // drop, holding `forward_lock`: about to read the status,
    | DropStage(index: nat)          //   the stage,
    | DropDispatch(index: nat)       //   the dispatch,
    | DropWrite(index: nat)          //   to write the status,
    | DropMark(index: nat)           //   to write `dropped`
    | Rerank(index: nat, priority: int) // `items[i].priority` written
    | RekeyWait                      // scheduler told; wants `asr_lock`
    | Drain(hand: seq<Entry>)
    | Refill(hand: seq<Entry>)
    | HaltDownloads(more: nat)
    | Exited

  datatype Thread = Thread(role: Role, pc: Pc)

  datatype State = State(
    items: seq<Item>,
    results: seq<Result>,
    downloadQ: seq<Message>,
    asrQ: seq<Entry>,
    asrOwner: Option<nat>,
    arrivals: nat,
    sched: S.Sched,
    forwarded: nat,
    completed: nat,
    intakeClosed: bool,
    sentinelsSent: bool,
    stop: bool,
    lost: Option<nat>,      // admitted, but the intake thread died before it was queued
    boot: nat,              // stop markers the main thread still puts before any thread starts
    threads: seq<Thread>)

  /** The position of the intake thread, when there is one. */
  function Keeper(c: Config): nat
  {
    c.downloads + c.asrs + c.llms
  }

  function ThreadCount(c: Config): nat
  {
    Keeper(c) + if c.growing then 1 else 0
  }

  function RoleAt(c: Config, t: nat): Role
  {
    if t < c.downloads then DownloadWorker
    else if t < c.downloads + c.asrs then AsrWorker
    else if t < Keeper(c) then LlmWorker
    else IntakeThread
  }

  function Jobs(n: nat): seq<Message>
  {
    seq(n, i requires 0 <= i < n => Job(i))
  }

  function Init(c: Config, items: seq<Item>): State
  {
    State(
      items,
      seq(|items|, _ => Result(Pending, None, false)),
      Jobs(|items|) + if c.growing then [] else seq(c.downloads, _ => Halt),
      [], None, 0,
      S.Init(seq(|items|, i requires 0 <= i < |items| => items[i].group),
             seq(|items|, i requires 0 <= i < |items| => items[i].priority),
             !c.growing),
      0, 0, !c.growing, false, false, None,
      if !c.growing && items == [] then c.asrs else 0,
      seq(ThreadCount(c), t requires 0 <= t < ThreadCount(c) => Thread(RoleAt(c, t), Idle)))
  }

  /** What the intake thread is doing; a batch without intake behaves as if it had left. */
  function KeeperPc(c: Config, s: State): Pc
  {
    if c.growing && Keeper(c) < |s.threads| then s.threads[Keeper(c)].pc else Exited
  }

  /** `forward_lock` is held over several steps only by a drop. */
  predicate ForwardHeld(c: Config, s: State)
  {
    var pc := KeeperPc(c, s);
    pc.DropStatus? || pc.DropStage? || pc.DropDispatch? || pc.DropWrite? || pc.DropMark?
  }

  function BinOf(role: Role): Bin
  {
    match role case DownloadWorker => Download case AsrWorker => Asr case _ => Llm
  }

  datatype Reason = Interrupted | Drained | Fault

  datatype Step =
    | Boot
    | Stop
    | TakeDownload(t: nat)
    | ClaimStage(t: nat)
    | StageSucceeds(t: nat)
    | StageFails(t: nat)
    | ClearStage(t: nat)
    | DrawEntry(t: nat)
    | PutEntry(t: nat)
    | BlockOnPut(t: nat)
    | CountForwarded(t: nat)
    | DrawSentinel(t: nat)
    | SendDone(t: nat)
    | TakeAsr(t: nat, j: nat)
    | SubmitReady(t: nat, cost: real)
    | Dispatch(t: nat, index: nat)
    | LeaveLlm(t: nat)
    | FinishLlm(t: nat)
    | ReadVerdict(t: nat)
    | WriteDone(t: nat)
    | CountCompleted(t: nat)
    | Admit(t: nat, item: Item)
    | RegisterItem(t: nat)
    | Enqueue(t: nat)
    | BeginDrop(t: nat, index: nat)
    | DropReads(t: nat)
    | DropWrites(t: nat)
    | Reprioritise(t: nat, index: nat, priority: int)
    | TellScheduler(t: nat)
    | LockForRekey(t: nat)
    | DrainOne(t: nat, j: nat)
    | RefillOne(t: nat)
    | EndRekey(t: nat)
    | CloseIntake(t: nat, reason: Reason)
    | HaltOne(t: nat)
    | CloseScheduler(t: nat)

  /** Thread `t` exists, has this role and the threads have been started. */
  predicate Acts(s: State, t: nat, role: Role)
  {
    s.boot == 0 && t < |s.threads| && s.threads[t].role == role
  }

  predicate Works(s: State, t: nat)
  {
    s.boot == 0 && t < |s.threads| && !s.threads[t].role.IntakeThread?
  }

  predicate Knows(s: State, i: nat)
  {
    i < |s.items| && i < |s.results|
  }

  function Move(s: State, t: nat, pc: Pc): State
    requires t < |s.threads|
  {
    s.(threads := s.threads[t := s.threads[t].(pc := pc)])
  }

  function WithStatus(s: State, i: nat, status: Status): State
    requires i < |s.results|
  {
    s.(results := s.results[i := s.results[i].(status := status)])
  }

  function WithStage(s: State, i: nat, stage: Option<Bin>): State
    requires i < |s.results|
  {
    s.(results := s.results[i := s.results[i].(stage := stage)])
  }

  function Removed(q: seq<Entry>, j: nat): seq<Entry>
    requires j < |q|
  {
    q[..j] + q[j + 1..]
  }

  /** `_maybe_close_asr_locked`: whether the stop markers must go out now. */
  predicate MustAnnounce(s: State)
  {
    s.intakeClosed && !s.sentinelsSent && s.forwarded == |s.items|
  }

  function Announce(c: Config, s: State, t: nat): State
    requires t < |s.threads|
  {
    if MustAnnounce(s) then Move(s.(sentinelsSent := true), t, Send(c.asrs)) else Move(s, t, Send(0))
  }

  /** The key an entry goes back with. */
  function Rekeyed(s: State, e: Entry): Entry
    requires e.index.Some? ==> e.index.value < |s.items|
  {
    if e.index.None? then e.(rank := 0) else e.(rank := -s.items[e.index.value].priority)
  }

  predicate CanBoot(c: Config, s: State)
  {
    s.boot > 0 && |s.asrQ| < c.capacity
  }

  function DoBoot(c: Config, s: State): State
    requires CanBoot(c, s)
  {
    s.(boot := s.boot - 1, asrQ := s.asrQ + [Entry(None, 0, s.arrivals)], arrivals := s.arrivals + 1)
  }

  predicate CanStop(c: Config, s: State)
  {
    !s.stop
  }

  function DoStop(c: Config, s: State): State
    requires CanStop(c, s)
  {
    s.(stop := true)
  }

  predicate CanTakeDownload(c: Config, s: State, t: nat)
  {
    Acts(s, t, DownloadWorker) && s.threads[t].pc.Idle? && s.downloadQ != []
  }

  function DoTakeDownload(c: Config, s: State, t: nat): State
    requires CanTakeDownload(c, s, t)
  {
    Move(s.(downloadQ := s.downloadQ[1..]), t,
         match s.downloadQ[0] case Job(i) => Claim(i) case Halt => Exited)
  }

  predicate CanClaimStage(c: Config, s: State, t: nat)
  {
    && Works(s, t) && s.threads[t].pc.Claim? && Knows(s, s.threads[t].pc.index)
    && (BinOf(s.threads[t].role) in s.items[s.threads[t].pc.index].stages ==> !ForwardHeld(c, s))
  }

  function DoClaimStage(c: Config, s: State, t: nat): State
    requires CanClaimStage(c, s, t)
  {
    var i := s.threads[t].pc.index;
    var bin := BinOf(s.threads[t].role);
    if bin !in s.items[i].stages || s.results[i].status in {Failed, Skipped} then Move(s, t, AfterStage(i))
    else if s.stop then Move(WithStatus(s, i, Skipped), t, AfterStage(i))
    else Move(WithStage(s, i, Some(bin)), t, Run(i, c.attempts))
  }

  predicate CanStageSucceeds(c: Config, s: State, t: nat)
  {
    Works(s, t) && s.threads[t].pc.Run? && Knows(s, s.threads[t].pc.index)
  }

  function DoStageSucceeds(c: Config, s: State, t: nat): State
    requires CanStageSucceeds(c, s, t)
  {
    Move(WithStage(s, s.threads[t].pc.index, None), t, AfterStage(s.threads[t].pc.index))
  }

  predicate CanStageFails(c: Config, s: State, t: nat)
  {
    Works(s, t) && s.threads[t].pc.Run? && Knows(s, s.threads[t].pc.index)
  }

  function DoStageFails(c: Config, s: State, t: nat): State
    requires CanStageFails(c, s, t)
  {
    var i, left := s.threads[t].pc.index, s.threads[t].pc.left;
    if left > 1 && !s.stop then Move(s, t, Run(i, left - 1))
    else Move(WithStatus(s, i, Failed), t, Failing(i))
  }

  predicate CanClearStage(c: Config, s: State, t: nat)
  {
    Works(s, t) && s.threads[t].pc.Failing? && Knows(s, s.threads[t].pc.index)
  }

  function DoClearStage(c: Config, s: State, t: nat): State
    requires CanClearStage(c, s, t)
  {
    Move(WithStage(s, s.threads[t].pc.index, None), t, AfterStage(s.threads[t].pc.index))
  }

  predicate CanDrawEntry(c: Config, s: State, t: nat)
  {
    Acts(s, t, DownloadWorker) && s.threads[t].pc.AfterStage? && Knows(s, s.threads[t].pc.index)
  }

  function DoDrawEntry(c: Config, s: State, t: nat): State
    requires CanDrawEntry(c, s, t)
  {
    var i := s.threads[t].pc.index;
    Move(s.(arrivals := s.arrivals + 1), t, Put(Entry(Some(i), -s.items[i].priority, s.arrivals), 0))
  }

  predicate CanPutEntry(c: Config, s: State, t: nat)
  {
    && s.boot == 0 && t < |s.threads| && |s.asrQ| < c.capacity
    && ((s.threads[t].pc.Put? && s.asrOwner.None?) || s.threads[t].pc.PutHeld?)
  }

  function DoPutEntry(c: Config, s: State, t: nat): State
    requires CanPutEntry(c, s, t)
  {
    var pc := s.threads[t].pc;
    Move(s.(asrQ := s.asrQ + [pc.entry], asrOwner := if pc.PutHeld? then None else s.asrOwner), t,
         if pc.entry.index.Some? then CountForward else Send(pc.more))
  }

  predicate CanBlockOnPut(c: Config, s: State, t: nat)
  {
    s.boot == 0 && t < |s.threads| && s.threads[t].pc.Put? && s.stop && s.asrOwner.None?
  }

  function DoBlockOnPut(c: Config, s: State, t: nat): State
    requires CanBlockOnPut(c, s, t)
  {
    Move(s.(asrOwner := Some(t)), t, PutHeld(s.threads[t].pc.entry, s.threads[t].pc.more))
  }

  predicate CanCountForwarded(c: Config, s: State, t: nat)
  {
    Acts(s, t, DownloadWorker) && s.threads[t].pc.CountForward? && !ForwardHeld(c, s)
  }

  function DoCountForwarded(c: Config, s: State, t: nat): State
    requires CanCountForwarded(c, s, t)
  {
    Announce(c, s.(forwarded := s.forwarded + 1), t)
  }

  predicate CanDrawSentinel(c: Config, s: State, t: nat)
  {
    s.boot == 0 && t < |s.threads| && s.threads[t].pc.Send? && s.threads[t].pc.more > 0
  }

  function DoDrawSentinel(c: Config, s: State, t: nat): State
    requires CanDrawSentinel(c, s, t)
  {
    Move(s.(arrivals := s.arrivals + 1), t, Put(Entry(None, 0, s.arrivals), s.threads[t].pc.more - 1))
  }

  predicate CanSendDone(c: Config, s: State, t: nat)
  {
    s.boot == 0 && t < |s.threads| && s.threads[t].pc.Send? && s.threads[t].pc.more == 0
  }

  function DoSendDone(c: Config, s: State, t: nat): State
    requires CanSendDone(c, s, t)
  {
    Move(s, t, if s.threads[t].role.IntakeThread? then HaltDownloads(c.downloads) else Idle)
  }

  predicate CanTakeAsr(c: Config, s: State, t: nat, j: nat)
  {
    Acts(s, t, AsrWorker) && s.threads[t].pc.Idle? && Head(s.asrQ, j)
  }

  function DoTakeAsr(c: Config, s: State, t: nat, j: nat): State
    requires CanTakeAsr(c, s, t, j)
  {
    Move(s.(asrQ := Removed(s.asrQ, j)), t,
         match s.asrQ[j].index case Some(i) => Claim(i) case None => Exited)
  }

  predicate CanSubmitReady(c: Config, s: State, t: nat, cost: real)
  {
    Acts(s, t, AsrWorker) && s.threads[t].pc.AfterStage?
  }

  function DoSubmitReady(c: Config, s: State, t: nat, cost: real): State
    requires CanSubmitReady(c, s, t, cost)
  {
    Move(s.(sched := S.Submitted(s.sched, s.threads[t].pc.index, cost)), t, Idle)
  }

  predicate CanDispatch(c: Config, s: State, t: nat, i: nat)
  {
    && Acts(s, t, LlmWorker) && s.threads[t].pc.Idle? && !S.Over(s.sched)
    && |s.sched.priorities| == |s.sched.groups| && S.Candidate(s.sched, i)
    && forall o: nat :: o < |s.sched.groups| && S.Candidate(s.sched, o) && o != i ==> S.Outranks(s.sched, i, o)
  }

  function DoDispatch(c: Config, s: State, t: nat, i: nat): State
    requires CanDispatch(c, s, t, i)
  {
    Move(s.(sched := S.Dispatched(s.sched, i)), t, Claim(i))
  }

  predicate CanLeaveLlm(c: Config, s: State, t: nat)
  {
    Acts(s, t, LlmWorker) && s.threads[t].pc.Idle? && S.Over(s.sched)
  }

  function DoLeaveLlm(c: Config, s: State, t: nat): State
    requires CanLeaveLlm(c, s, t)
  {
    Move(s, t, Exited)
  }

  predicate CanFinishLlm(c: Config, s: State, t: nat)
  {
    Acts(s, t, LlmWorker) && s.threads[t].pc.AfterStage? && s.threads[t].pc.index < |s.sched.groups|
  }

  function DoFinishLlm(c: Config, s: State, t: nat): State
    requires CanFinishLlm(c, s, t)
  {
    Move(s.(sched := S.Finished(s.sched, s.threads[t].pc.index)), t, Settle(s.threads[t].pc.index))
  }

  predicate CanReadVerdict(c: Config, s: State, t: nat)
  {
    Acts(s, t, LlmWorker) && s.threads[t].pc.Settle? && Knows(s, s.threads[t].pc.index)
  }

  function DoReadVerdict(c: Config, s: State, t: nat): State
    requires CanReadVerdict(c, s, t)
  {
    var i := s.threads[t].pc.index;
    Move(s, t, if s.results[i].status == Pending then MarkDone(i) else Tally)
  }

  predicate CanWriteDone(c: Config, s: State, t: nat)
  {
    Acts(s, t, LlmWorker) && s.threads[t].pc.MarkDone? && Knows(s, s.threads[t].pc.index)
  }

  function DoWriteDone(c: Config, s: State, t: nat): State
    requires CanWriteDone(c, s, t)
  {
    Move(WithStatus(s, s.threads[t].pc.index, Done), t, Tally)
  }

  predicate CanCountCompleted(c: Config, s: State, t: nat)
  {
    Acts(s, t, LlmWorker) && s.threads[t].pc.Tally? && !ForwardHeld(c, s)
  }

  function DoCountCompleted(c: Config, s: State, t: nat): State
    requires CanCountCompleted(c, s, t)
  {
    Move(s.(completed := s.completed + 1), t, Idle)
  }

  predicate CanAdmit(c: Config, s: State, t: nat, item: Item)
  {
    Acts(s, t, IntakeThread) && s.threads[t].pc.Idle?
  }

  function DoAdmit(c: Config, s: State, t: nat, item: Item): State
    requires CanAdmit(c, s, t, item)
  {
    Move(s.(items := s.items + [item], results := s.results + [Result(Pending, None, false)]), t,
         Admitted(|s.items|))
  }

  predicate CanRegisterItem(c: Config, s: State, t: nat)
  {
    Acts(s, t, IntakeThread) && s.threads[t].pc.Admitted? && Knows(s, s.threads[t].pc.index)
  }

  function DoRegisterItem(c: Config, s: State, t: nat): State
    requires CanRegisterItem(c, s, t)
  {
    var i := s.threads[t].pc.index;
    Move(s.(sched := S.Added(s.sched, s.items[i].group, s.items[i].priority)), t, Registered(i))
  }

  predicate CanEnqueue(c: Config, s: State, t: nat)
  {
    Acts(s, t, IntakeThread) && s.threads[t].pc.Registered?
  }

  function DoEnqueue(c: Config, s: State, t: nat): State
    requires CanEnqueue(c, s, t)
  {
    Move(s.(downloadQ := s.downloadQ + [Job(s.threads[t].pc.index)]), t, Idle)
  }

  predicate CanBeginDrop(c: Config, s: State, t: nat, i: nat)
  {
    Acts(s, t, IntakeThread) && s.threads[t].pc.Idle? && Knows(s, i)
  }

  function DoBeginDrop(c: Config, s: State, t: nat, i: nat): State
    requires CanBeginDrop(c, s, t, i)
  {
    Move(s, t, DropStatus(i))
  }

  predicate CanDropReads(c: Config, s: State, t: nat)
  {
    && Acts(s, t, IntakeThread)
    && (s.threads[t].pc.DropStatus? || s.threads[t].pc.DropStage? || s.threads[t].pc.DropDispatch?)
    && Knows(s, s.threads[t].pc.index)
  }

  function DoDropReads(c: Config, s: State, t: nat): State
    requires CanDropReads(c, s, t)
  {
    var pc := s.threads[t].pc;
    Move(s, t,
         match pc
         case DropStatus(i) => if s.results[i].status == Pending then DropStage(i) else Idle
         case DropStage(i) => if s.results[i].stage.None? then DropDispatch(i) else Idle
         case _ => if pc.index in s.sched.dispatched then Idle else DropWrite(pc.index))
  }

  predicate CanDropWrites(c: Config, s: State, t: nat)
  {
    && Acts(s, t, IntakeThread) && (s.threads[t].pc.DropWrite? || s.threads[t].pc.DropMark?)
    && Knows(s, s.threads[t].pc.index)
  }

  function DoDropWrites(c: Config, s: State, t: nat): State
    requires CanDropWrites(c, s, t)
  {
    var i := s.threads[t].pc.index;
    if s.threads[t].pc.DropWrite? then Move(WithStatus(s, i, Skipped), t, DropMark(i))
    else Move(s.(results := s.results[i := s.results[i].(dropped := true)]), t, Idle)
  }

  predicate CanReprioritise(c: Config, s: State, t: nat, i: nat, p: int)
  {
    Acts(s, t, IntakeThread) && s.threads[t].pc.Idle? && Knows(s, i)
  }

  function DoReprioritise(c: Config, s: State, t: nat, i: nat, p: int): State
    requires CanReprioritise(c, s, t, i, p)
  {
    Move(s.(items := s.items[i := s.items[i].(priority := p)]), t, Rerank(i, p))
  }

  predicate CanTellScheduler(c: Config, s: State, t: nat)
  {
    && Acts(s, t, IntakeThread) && s.threads[t].pc.Rerank?
    && s.threads[t].pc.index < |s.sched.priorities|
  }

  function DoTellScheduler(c: Config, s: State, t: nat): State
    requires CanTellScheduler(c, s, t)
  {
    Move(s.(sched := S.Reprioritised(s.sched, s.threads[t].pc.index, s.threads[t].pc.priority)), t, RekeyWait)
  }

  predicate CanLockForRekey(c: Config, s: State, t: nat)
  {
    Acts(s, t, IntakeThread) && s.threads[t].pc.RekeyWait? && s.asrOwner.None?
  }

  function DoLockForRekey(c: Config, s: State, t: nat): State
    requires CanLockForRekey(c, s, t)
  {
    Move(s.(asrOwner := Some(t)), t, Drain([]))
  }

  predicate CanDrainOne(c: Config, s: State, t: nat, j: nat)
  {
    Acts(s, t, IntakeThread) && s.threads[t].pc.Drain? && (s.asrQ == [] || Head(s.asrQ, j))
  }

  function DoDrainOne(c: Config, s: State, t: nat, j: nat): State
    requires CanDrainOne(c, s, t, j)
  {
    if s.asrQ == [] then Move(s, t, Refill(s.threads[t].pc.hand))
    else Move(s.(asrQ := Removed(s.asrQ, j)), t, Drain(s.threads[t].pc.hand + [s.asrQ[j]]))
  }

  predicate CanRefillOne(c: Config, s: State, t: nat)
  {
    && Acts(s, t, IntakeThread) && s.threads[t].pc.Refill? && s.threads[t].pc.hand != []
    && |s.asrQ| < c.capacity && (s.threads[t].pc.hand[0].index.Some? ==> s.threads[t].pc.hand[0].index.value < |s.items|)
  }

  function DoRefillOne(c: Config, s: State, t: nat): State
    requires CanRefillOne(c, s, t)
  {
    var hand := s.threads[t].pc.hand;
    Move(s.(asrQ := s.asrQ + [Rekeyed(s, hand[0])]), t, Refill(hand[1..]))
  }

  predicate CanEndRekey(c: Config, s: State, t: nat)
  {
    Acts(s, t, IntakeThread) && s.threads[t].pc.Refill? && s.threads[t].pc.hand == []
  }

  function DoEndRekey(c: Config, s: State, t: nat): State
    requires CanEndRekey(c, s, t)
  {
    Move(s.(asrOwner := None), t, Idle)
  }

  /** The intake thread dies between polls, or when the log cannot be written while it admits an item. */
  predicate CanCloseIntake(c: Config, s: State, t: nat, reason: Reason)
  {
    && Acts(s, t, IntakeThread) && (s.threads[t].pc.Idle? || (s.threads[t].pc.Registered? && reason.Fault?))
    && (reason.Interrupted? ==> s.stop) && (reason.Drained? ==> s.completed == |s.items|)
  }

  function DoCloseIntake(c: Config, s: State, t: nat, reason: Reason): State
    requires CanCloseIntake(c, s, t, reason)
  {
    var pc := s.threads[t].pc;
    Announce(c, s.(intakeClosed := true, lost := if pc.Registered? then Some(pc.index) else s.lost), t)
  }

  predicate CanHaltOne(c: Config, s: State, t: nat)
  {
    Acts(s, t, IntakeThread) && s.threads[t].pc.HaltDownloads? && s.threads[t].pc.more > 0
  }

  function DoHaltOne(c: Config, s: State, t: nat): State
    requires CanHaltOne(c, s, t)
  {
    Move(s.(downloadQ := s.downloadQ + [Halt]), t, HaltDownloads(s.threads[t].pc.more - 1))
  }

  predicate CanCloseScheduler(c: Config, s: State, t: nat)
  {
    Acts(s, t, IntakeThread) && s.threads[t].pc.HaltDownloads? && s.threads[t].pc.more == 0
  }

  function DoCloseScheduler(c: Config, s: State, t: nat): State
    requires CanCloseScheduler(c, s, t)
  {
    Move(s.(sched := s.sched.(closed := true)), t, Exited)
  }

  predicate Enabled(c: Config, s: State, step: Step)
  {
    match step
    case Boot => CanBoot(c, s)
    case Stop => CanStop(c, s)
    case TakeDownload(t) => CanTakeDownload(c, s, t)
    case ClaimStage(t) => CanClaimStage(c, s, t)
    case StageSucceeds(t) => CanStageSucceeds(c, s, t)
    case StageFails(t) => CanStageFails(c, s, t)
    case ClearStage(t) => CanClearStage(c, s, t)
    case DrawEntry(t) => CanDrawEntry(c, s, t)
    case PutEntry(t) => CanPutEntry(c, s, t)
    case BlockOnPut(t) => CanBlockOnPut(c, s, t)
    case CountForwarded(t) => CanCountForwarded(c, s, t)
    case DrawSentinel(t) => CanDrawSentinel(c, s, t)
    case SendDone(t) => CanSendDone(c, s, t)
    case TakeAsr(t, j) => CanTakeAsr(c, s, t, j)
    case SubmitReady(t, cost) => CanSubmitReady(c, s, t, cost)
    case Dispatch(t, i) => CanDispatch(c, s, t, i)
    case LeaveLlm(t) => CanLeaveLlm(c, s, t)
    case FinishLlm(t) => CanFinishLlm(c, s, t)
    case ReadVerdict(t) => CanReadVerdict(c, s, t)
    case WriteDone(t) => CanWriteDone(c, s, t)
    case CountCompleted(t) => CanCountCompleted(c, s, t)
    case Admit(t, item) => CanAdmit(c, s, t, item)
    case RegisterItem(t) => CanRegisterItem(c, s, t)
    case Enqueue(t) => CanEnqueue(c, s, t)
    case BeginDrop(t, i) => CanBeginDrop(c, s, t, i)
    case DropReads(t) => CanDropReads(c, s, t)
    case DropWrites(t) => CanDropWrites(c, s, t)
    case Reprioritise(t, i, p) => CanReprioritise(c, s, t, i, p)
    case TellScheduler(t) => CanTellScheduler(c, s, t)
    case LockForRekey(t) => CanLockForRekey(c, s, t)
    case DrainOne(t, j) => CanDrainOne(c, s, t, j)
    case RefillOne(t) => CanRefillOne(c, s, t)
    case EndRekey(t) => CanEndRekey(c, s, t)
    case CloseIntake(t, reason) => CanCloseIntake(c, s, t, reason)
    case HaltOne(t) => CanHaltOne(c, s, t)
    case CloseScheduler(t) => CanCloseScheduler(c, s, t)
  }

  function Apply(c: Config, s: State, step: Step): State
    requires Enabled(c, s, step)
  {
    match step
    case Boot => DoBoot(c, s)
    case Stop => DoStop(c, s)
    case TakeDownload(t) => DoTakeDownload(c, s, t)
    case ClaimStage(t) => DoClaimStage(c, s, t)
    case StageSucceeds(t) => DoStageSucceeds(c, s, t)
    case StageFails(t) => DoStageFails(c, s, t)
    case ClearStage(t) => DoClearStage(c, s, t)
    case DrawEntry(t) => DoDrawEntry(c, s, t)
    case PutEntry(t) => DoPutEntry(c, s, t)
    case BlockOnPut(t) => DoBlockOnPut(c, s, t)
    case CountForwarded(t) => DoCountForwarded(c, s, t)
    case DrawSentinel(t) => DoDrawSentinel(c, s, t)
    case SendDone(t) => DoSendDone(c, s, t)
    case TakeAsr(t, j) => DoTakeAsr(c, s, t, j)
    case SubmitReady(t, cost) => DoSubmitReady(c, s, t, cost)
    case Dispatch(t, i) => DoDispatch(c, s, t, i)
    case LeaveLlm(t) => DoLeaveLlm(c, s, t)
    case FinishLlm(t) => DoFinishLlm(c, s, t)
    case ReadVerdict(t) => DoReadVerdict(c, s, t)
    case WriteDone(t) => DoWriteDone(c, s, t)
    case CountCompleted(t) => DoCountCompleted(c, s, t)
    case _ => ApplyIntake(c, s, step)
  }

  /** What the intake thread does outside the steps it shares with the workers. */
  function ApplyIntake(c: Config, s: State, step: Step): State
    requires Enabled(c, s, step) && IsIntakeStep(step)
  {
    match step
    case Admit(t, item) => DoAdmit(c, s, t, item)
    case RegisterItem(t) => DoRegisterItem(c, s, t)
    case Enqueue(t) => DoEnqueue(c, s, t)
    case BeginDrop(t, i) => DoBeginDrop(c, s, t, i)
    case DropReads(t) => DoDropReads(c, s, t)
    case DropWrites(t) => DoDropWrites(c, s, t)
    case Reprioritise(t, i, p) => DoReprioritise(c, s, t, i, p)
    case TellScheduler(t) => DoTellScheduler(c, s, t)
    case LockForRekey(t) => DoLockForRekey(c, s, t)
    case DrainOne(t, j) => DoDrainOne(c, s, t, j)
    case RefillOne(t) => DoRefillOne(c, s, t)
    case EndRekey(t) => DoEndRekey(c, s, t)
    case CloseIntake(t, reason) => DoCloseIntake(c, s, t, reason)
    case HaltOne(t) => DoHaltOne(c, s, t)
    case CloseScheduler(t) => DoCloseScheduler(c, s, t)
  }

  predicate IsIntakeStep(step: Step)
  {
    match step
    case Admit(_, _) => true
    case RegisterItem(_) => true
    case Enqueue(_) => true
    case BeginDrop(_, _) => true
    case DropReads(_) => true
    case DropWrites(_) => true
    case Reprioritise(_, _, _) => true
    case TellScheduler(_) => true
    case LockForRekey(_) => true
    case DrainOne(_, _) => true
    case RefillOne(_) => true
    case EndRekey(_) => true
    case CloseIntake(_, _) => true
    case HaltOne(_) => true
    case CloseScheduler(_) => true
    case _ => false
  }

  /** A run: the states passed through and the steps taken between them. */
  ghost predicate IsRun(c: Config, items: seq<Item>, states: seq<State>, steps: seq<Step>)
  {
    && |states| == |steps| + 1
    && states[0] == Init(c, items)
    && forall k :: 0 <= k < |steps| ==> Enabled(c, states[k], steps[k]) && states[k + 1] == Apply(c, states[k], steps[k])
  }
}
