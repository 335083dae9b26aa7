/** The write-ahead protocol between the control channel, the cursor on disk and the published view. */
module ControlChannel {
  import opened Wrappers

  // A line is named by its number. A batch process reads lines, applies what they say, publishes the
  // view of its items and only then records its cursor; worker threads publish at any time; the
  // process can crash between any two of these steps, and a resumed one starts from what is on disk.

  /** What a line asks for: a task, or something else that leaves no item behind. */
  datatype Kind = Task | Other

  /** Of a poll, actions are applied before items are admitted. */
  datatype Phase = Between | Applying | Admitting | Committing

  /** The running process. `hand` are the tasks a poll returned that are not yet among the items. */
  datatype Process = Process(
    consumed: nat,
    recorded: nat,
    items: set<nat>,
    dropped: set<nat>,
    hand: set<nat>,
    offered: bool,
    phase: Phase)

  /** The files, the process, and for the record which task lines were refused as malformed or
      duplicate, and which were withdrawn in a view. */
  datatype State = State(
    lines: seq<Kind>,
    cursor: nat,
    view: set<nat>,
    viewDropped: set<nat>,
    process: Option<Process>,
    refused: set<nat>,
    withdrawn: set<nat>)

  datatype Step =
    | Append(kind: Kind)
    | Poll(accepted: set<nat>)
    | Inconclusive
    | Drop(line: nat)
    | Admit(line: nat)
    | NothingToRetire
    | Publish(written: bool)
    | Commit(written: bool)
    | WorkerPublish
    | Crash
    | Resume(readable: bool)

  /** The task lines a poll reads. */
  function Fresh(s: State, from: nat): set<nat>
  {
    set i: nat | i < |s.lines| && from <= i && s.lines[i].Task?
  }

  function Max(a: nat, b: nat): nat
  {
    if a < b then b else a
  }

  predicate Runs(s: State, phase: Phase)
  {
    s.process.Some? && s.process.value.phase == phase
  }

  predicate HasPolled(s: State)
  {
    Runs(s, Applying) || Runs(s, Admitting)
  }

  predicate Enabled(s: State, step: Step)
  {
    match step
    case Append(_) => true
    case Poll(accepted) =>
      Runs(s, Between) && accepted <= Fresh(s, s.process.value.consumed) && accepted !! s.process.value.items
    case Inconclusive => Runs(s, Between)
    case Drop(i) => Runs(s, Applying) && i in s.process.value.items
    case Admit(i) => HasPolled(s) && i in s.process.value.hand
    case NothingToRetire => HasPolled(s) && s.process.value.hand == {} && !s.process.value.offered
    case Publish(_) => HasPolled(s) && s.process.value.hand == {} && s.process.value.offered
    case Commit(_) => Runs(s, Committing)
    case WorkerPublish => s.process.Some?
    case Crash => s.process.Some?
    case Resume(_) => s.process.None?
  }

  /** The view of the items of process `p`. */
  function Published(s: State, p: Process): State
  {
    s.(view := p.items, viewDropped := p.dropped, withdrawn := s.withdrawn + p.dropped)
  }

  function Apply(s: State, step: Step): State
    requires Enabled(s, step)
  {
    match step
    case Append(kind) => s.(lines := s.lines + [kind])
    case Poll(accepted) =>
      var p := s.process.value;
      var consumed := Max(p.consumed, |s.lines|);
      s.(process := Some(p.(consumed := consumed, hand := accepted, offered := consumed != p.recorded, phase := Applying)),
         refused := s.refused + (Fresh(s, p.consumed) - accepted - p.items))
    case Inconclusive => s
    case Drop(i) => s.(process := Some(s.process.value.(dropped := s.process.value.dropped + {i})))
    case Admit(i) =>
      var p := s.process.value;
      s.(process := Some(p.(items := p.items + {i}, hand := p.hand - {i}, phase := Admitting)))
    case NothingToRetire => s.(process := Some(s.process.value.(phase := Between)))
    case Publish(written) =>
      if written then Published(s.(process := Some(s.process.value.(phase := Committing))), s.process.value)
      else s.(process := Some(s.process.value.(phase := Between)))
    case Commit(written) =>
      var p := s.process.value;
      if written then s.(cursor := p.consumed, process := Some(p.(recorded := p.consumed, phase := Between)))
      else s.(process := Some(p.(phase := Between)))
    case WorkerPublish => Published(s, s.process.value)
    case Crash => s.(process := None)
    case Resume(readable) =>
      var start := if readable then s.cursor else 0;
      s.(process := Some(Process(start, start, s.view - s.viewDropped, {}, {}, false, Between)))
  }

  // ----- what every run keeps -----

  /** Whatever line `i` asked for has been dealt with for good, or its task is in `kept`. */
  predicate Settled(s: State, i: nat, kept: set<nat>)
  {
    i < |s.lines| && (s.lines[i].Other? || i in s.refused || i in s.withdrawn || i in kept)
  }

  predicate TaskLines(s: State, lines: set<nat>)
  {
    forall i :: i in lines ==> i < |s.lines| && s.lines[i].Task?
  }

  ghost predicate ProcessOk(s: State, p: Process)
  {
    && p.recorded <= s.cursor && p.consumed <= |s.lines| && p.recorded <= p.consumed
    && (forall i: nat :: i < p.consumed ==> Settled(s, i, p.items + p.hand))
    && s.view <= p.items + s.withdrawn
    && p.dropped <= p.items
    && (p.phase.Between? || p.phase.Committing? ==> p.hand == {})
    && (p.phase.Committing? ==> p.items <= s.view)
    && (!p.phase.Between? ==> s.cursor <= p.consumed)
    && TaskLines(s, p.items) && TaskLines(s, p.hand)
  }

  /** The cursor on disk never passes a task line unless the line was refused or withdrawn, or its
      row is in the view on disk. */
  ghost predicate Safe(s: State)
  {
    && s.cursor <= |s.lines|
    && (forall i: nat :: i < s.cursor ==> Settled(s, i, s.view))
    && s.viewDropped <= s.withdrawn && s.viewDropped <= s.view
    && TaskLines(s, s.view)
    && (s.process.Some? ==> ProcessOk(s, s.process.value))
  }

  lemma AppendSafe(s: State, kind: Kind)
    requires Safe(s)
    ensures Safe(Apply(s, Append(kind)))
  {
    var s' := Apply(s, Append(kind));
    forall i: nat | i < s.cursor ensures Settled(s', i, s'.view) { assert Settled(s, i, s.view); }
    if s.process.Some? {
      var p := s.process.value;
      forall i: nat | i < p.consumed ensures Settled(s', i, p.items + p.hand) { assert Settled(s, i, p.items + p.hand); }
    }
  }

  lemma PollSafe(s: State, accepted: set<nat>)
    requires Safe(s) && Enabled(s, Poll(accepted))
    ensures Safe(Apply(s, Poll(accepted)))
  {
    var s', p := Apply(s, Poll(accepted)), s.process.value;
    var p' := s'.process.value;
    forall i: nat | i < s.cursor ensures Settled(s', i, s'.view) { assert Settled(s, i, s.view); }
    forall i: nat | i < p'.consumed ensures Settled(s', i, p'.items + p'.hand) {
      if i < p.consumed { assert Settled(s, i, p.items + p.hand); } else { assert s.lines[i].Task? ==> i in Fresh(s, p.consumed); }
    }
  }

  lemma PublishSafe(s: State, step: Step)
    requires Safe(s) && Enabled(s, step) && (step.Publish? || step.WorkerPublish?)
    ensures Safe(Apply(s, step))
  {
    var s', p := Apply(s, step), s.process.value;
    forall i: nat | i < s.cursor ensures Settled(s', i, s'.view) { assert Settled(s, i, s.view); }
    forall i: nat | i < p.consumed ensures Settled(s', i, p.items + p.hand) { assert Settled(s, i, p.items + p.hand); }
  }

  lemma CommitSafe(s: State, written: bool)
    requires Safe(s) && Enabled(s, Commit(written))
    ensures Safe(Apply(s, Commit(written)))
  {
    var s', p := Apply(s, Commit(written)), s.process.value;
    forall i: nat | i < s'.cursor ensures Settled(s', i, s'.view) {
      assert i < s.cursor ==> Settled(s, i, s.view);
      assert i < p.consumed ==> Settled(s, i, p.items + p.hand);
    }
    forall i: nat | i < p.consumed ensures Settled(s', i, p.items + p.hand) { assert Settled(s, i, p.items + p.hand); }
  }

  lemma ResumeSafe(s: State, readable: bool)
    requires Safe(s) && Enabled(s, Resume(readable))
    ensures Safe(Apply(s, Resume(readable)))
  {
    var s' := Apply(s, Resume(readable));
    var p := s'.process.value;
    forall i: nat | i < s.cursor ensures Settled(s', i, s'.view) && Settled(s', i, p.items + p.hand) {
      assert Settled(s, i, s.view);
    }
  }

  lemma ApplyingSafe(s: State, step: Step)
    requires Safe(s) && Enabled(s, step) && (step.Drop? || step.Admit? || step.NothingToRetire?)
    ensures Safe(Apply(s, step))
  {
    var s', p := Apply(s, step), s.process.value;
    var p' := s'.process.value;
    forall i: nat | i < s.cursor ensures Settled(s', i, s'.view) { assert Settled(s, i, s.view); }
    forall i: nat | i < p.consumed ensures Settled(s', i, p'.items + p'.hand) { assert Settled(s, i, p.items + p.hand); }
  }

  lemma CrashSafe(s: State)
    requires Safe(s) && Enabled(s, Crash)
    ensures Safe(Apply(s, Crash))
  {
    forall i: nat | i < s.cursor ensures Settled(Apply(s, Crash), i, s.view) { assert Settled(s, i, s.view); }
  }

  lemma StepSafe(s: State, step: Step)
    requires Safe(s) && Enabled(s, step)
    ensures Safe(Apply(s, step))
  {
    match step
    case Append(kind) => AppendSafe(s, kind);
    case Poll(accepted) => PollSafe(s, accepted);
    case Inconclusive =>
    case Drop(_) => ApplyingSafe(s, step);
    case Admit(_) => ApplyingSafe(s, step);
    case NothingToRetire => ApplyingSafe(s, step);
    case Publish(_) => PublishSafe(s, step);
    case Commit(written) => CommitSafe(s, written);
    case WorkerPublish => PublishSafe(s, step);
    case Crash => CrashSafe(s);
    case Resume(readable) => ResumeSafe(s, readable);
  }

  const START := State([], 0, {}, {}, None, {}, {})

  ghost predicate IsRun(states: seq<State>, steps: seq<Step>)
  {
    && |states| == |steps| + 1 && states[0] == START
    && forall k :: 0 <= k < |steps| ==> IsStep(states, steps, k)
  }

  ghost predicate IsStep(states: seq<State>, steps: seq<Step>, k: nat)
    requires k < |steps| && |states| == |steps| + 1
  {
    Enabled(states[k], steps[k]) && states[k + 1] == Apply(states[k], steps[k])
  }

  lemma {:induction false} RunSafe(states: seq<State>, steps: seq<Step>, k: nat)
    requires IsRun(states, steps) && k < |states|
    ensures Safe(states[k])
    decreases k
  {
    if k > 0 {
      RunSafe(states, steps, k - 1);
      assert IsStep(states, steps, k - 1);
      StepSafe(states[k - 1], steps[k - 1]);
    }
  }

  /** The cursor on disk never moves back, though a process that could not read it starts from none. */
  lemma CursorMovesForward(s: State, step: Step)
    requires Safe(s) && Enabled(s, step)
    ensures Apply(s, step).cursor >= s.cursor
  {
  }

  /** Crash safety: wherever a run is cut off, a process resumed from the files has every task line that
      was not refused and not withdrawn among its items, or will still read it. */
  lemma NoTaskIsLost(states: seq<State>, steps: seq<Step>, k: nat, readable: bool, i: nat)
    requires IsRun(states, steps) && k < |states|
    requires i < |states[k].lines| && states[k].lines[i].Task?
    requires i !in states[k].refused && i !in states[k].withdrawn
    ensures var down := if states[k].process.Some? then Apply(states[k], Crash) else states[k];
            var p := Apply(down, Resume(readable)).process.value;
            i in p.items || i >= p.consumed
  {
    RunSafe(states, steps, k);
    assert i < states[k].cursor ==> Settled(states[k], i, states[k].view);
  }

  /** Lines left unretired by a publish or a commit that failed are retired by the next poll that goes
      through, though it brings nothing of its own. */
  lemma NextPollRetires(s: State)
    requires Safe(s) && Runs(s, Between) && s.process.value.consumed == |s.lines| != s.process.value.recorded
    ensures Enabled(s, Poll({}))
    ensures var s1 := Apply(s, Poll({}));
      && Enabled(s1, Publish(true))
      && var s2 := Apply(s1, Publish(true));
      && Enabled(s2, Commit(true)) && Apply(s2, Commit(true)).cursor == |s.lines|
  {
  }

  /** With nothing in its way a process takes in every task line there is: each is among the rows of the view on
      disk, none is refused, and every line is retired. */
  lemma TasksGetIn(s: State) returns (steps: seq<Step>, to: State)
    requires Safe(s) && Runs(s, Between)
    ensures Leads(s, steps, to) && Runs(to, Between) && to.cursor == |to.lines| && to.lines == s.lines
    ensures Fresh(s, s.process.value.consumed) - s.process.value.items <= to.view && to.refused == s.refused
  {
    var p := s.process.value;
    var unread := Fresh(s, p.consumed) - p.items;
    var s1 := Apply(s, Poll(unread));
    PollSafe(s, unread);
    var more, s2 := AdmitAll(s1);
    assert Safe(s2);
    if s2.process.value.offered {
      var s3 := Apply(s2, Publish(true));
      to := Apply(s3, Commit(true));
      steps := [Publish(true), Commit(true)];
      assert steps[1..] == [Commit(true)] && [Commit(true)][1..] == [];
      assert Leads(to, [], to) && Leads(s3, [Commit(true)], to);
    } else {
      to := Apply(s2, NothingToRetire);
      steps := [NothingToRetire];
      assert steps[1..] == [] && Leads(to, [], to);
    }
    InTurn(s1, more, s2, steps, to);
    assert ([Poll(unread)] + (more + steps))[1..] == more + steps;
    steps := [Poll(unread)] + (more + steps);
  }

  /** Admitting all that a poll has returned. */
  lemma {:induction false} AdmitAll(s: State) returns (steps: seq<Step>, to: State)
    requires Safe(s) && HasPolled(s)
    ensures Leads(s, steps, to) && Safe(to) && HasPolled(to)
    ensures to == s.(process := to.process)
    ensures var p, q := s.process.value, to.process.value;
      && q.hand == {} && q.items == p.items + p.hand && q.consumed == p.consumed && q.recorded == p.recorded && q.offered == p.offered
    decreases |s.process.value.hand|
  {
    var hand := s.process.value.hand;
    if hand == {} {
      steps, to := [], s;
    } else {
      var i :| i in hand;
      var s1 := Apply(s, Admit(i));
      ApplyingSafe(s, Admit(i));
      steps, to := AdmitAll(s1);
      assert ([Admit(i)] + steps)[1..] == steps;
      steps := [Admit(i)] + steps;
      assert s.process.value.items + hand == s1.process.value.items + s1.process.value.hand;
    }
  }

  lemma {:induction false} InTurn(from: State, a: seq<Step>, between: State, b: seq<Step>, to: State)
    requires Leads(from, a, between) && Leads(between, b, to)
    ensures Leads(from, a + b, to)
    decreases |a|
  {
    if a == [] {
      assert a + b == b;
    } else {
      assert (a + b)[1..] == a[1..] + b;
      InTurn(Apply(from, a[0]), a[1..], between, b, to);
    }
  }

  // ----- withdrawn tasks -----

  /** Task `i` is behind the cursor, and neither the files nor the process would bring it back. */
  predicate Gone(s: State, i: nat)
  {
    && i < s.cursor && (i in s.view ==> i in s.viewDropped)
    && (s.process.Some? ==>
          && i < s.process.value.consumed && i !in s.process.value.hand
          && s.process.value.recorded == s.cursor
          && (i in s.process.value.items ==> i in s.process.value.dropped))
  }

  lemma GoneStep(s: State, step: Step, i: nat)
    requires Safe(s) && Gone(s, i) && Enabled(s, step) && step != Resume(false)
    ensures Gone(Apply(s, step), i)
  {
  }

  /** `to` is reached from `from` by these steps. */
  predicate Leads(from: State, steps: seq<Step>, to: State)
    decreases |steps|
  {
    if steps == [] then from == to else Enabled(from, steps[0]) && Leads(Apply(from, steps[0]), steps[1..], to)
  }

  lemma Then(from: State, steps: seq<Step>, to: State, step: Step)
    requires Leads(from, steps, to) && Enabled(to, step)
    ensures Leads(from, steps + [step], Apply(to, step))
    decreases |steps|
  {
    if steps == [] {
      assert steps + [step] == [step] && [step][1..] == [];
      assert Leads(Apply(to, step), [], Apply(to, step));
    } else {
      assert (steps + [step])[1..] == steps[1..] + [step];
      Then(Apply(from, steps[0]), steps[1..], to, step);
    }
  }

  /** A task withdrawn behind the cursor stays so, over crashes too, as long as the cursor is read. */
  lemma {:induction false} GoneForGood(s: State, steps: seq<Step>, to: State, i: nat)
    requires Safe(s) && Gone(s, i) && Leads(s, steps, to) && Resume(false) !in steps
    ensures Gone(to, i)
    decreases |steps|
  {
    if steps != [] {
      StepSafe(s, steps[0]);
      GoneStep(s, steps[0], i);
      GoneForGood(Apply(s, steps[0]), steps[1..], to, i);
    }
  }

  /** Task `i` is an item of the running process that it does not count as withdrawn. */
  predicate IsBack(s: State, i: nat)
  {
    s.process.Some? && i in s.process.value.items && i !in s.process.value.dropped
  }

  /** Some continuation brings task `i` back; `read` says that a process that starts can read the cursor. */
  ghost predicate ComesBack(s: State, i: nat, read: bool)
  {
    exists steps, to :: Leads(s, steps, to) && (read ==> Resume(false) !in steps) && IsBack(to, i)
  }

  /** What the files hold when the process is gone. */
  function Down(s: State): State
  {
    s.(process := None)
  }

  /** A crash after a task was withdrawn in the view: some continuation brings it back exactly when its
      line is not behind the cursor on disk; and one always does if the cursor cannot be read. */
  lemma WithdrawnComesBackIff(states: seq<State>, steps: seq<Step>, k: nat, i: nat)
    requires IsRun(states, steps) && k < |states| && i in states[k].viewDropped
    ensures ComesBack(Down(states[k]), i, true) <==> states[k].cursor <= i
    ensures ComesBack(Down(states[k]), i, false)
  {
    var s := Down(states[k]);
    RunSafe(states, steps, k);
    assert Safe(s) by { forall j: nat | j < s.cursor ensures Settled(s, j, s.view) { assert Settled(states[k], j, s.view); } }
    ReadAgain(s, i, false);
    if s.cursor <= i {
      ReadAgain(s, i, true);
    } else {
      forall more, to | Leads(s, more, to) && Resume(false) !in more ensures !IsBack(to, i) { GoneForGood(s, more, to, i); }
    }
  }

  /** A resumed process that accepts every line it reads has the task again. */
  lemma ReadAgain(s: State, i: nat, readable: bool)
    requires Safe(s) && s.process.None? && i in s.viewDropped && (readable ==> s.cursor <= i)
    ensures ComesBack(s, i, readable)
  {
    var s1 := Apply(s, Resume(readable));
    var p := s1.process.value;
    var poll := Poll(Fresh(s1, p.consumed) - p.items);
    var s2 := Apply(s1, poll);
    var s3 := Apply(s2, Admit(i));
    assert Leads(s, [], s);
    Then(s, [], s, Resume(readable));
    Then(s, [] + [Resume(readable)], s1, poll);
    Then(s, [] + [Resume(readable)] + [poll], s2, Admit(i));
    assert Leads(s, [] + [Resume(readable)] + [poll] + [Admit(i)], s3) && IsBack(s3, i);
  }

  /** A task published by a process that could not record its cursor. */
  lemma Unretired() returns (steps: seq<Step>, s: State)
    ensures Leads(START, steps, s)
    ensures s == State([Task], 0, {0}, {}, Some(Process(1, 0, {0}, {}, {}, true, Between)), {}, {})
  {
    steps, s := [], START;
    steps, s := Go(steps, s, Append(Task));
    steps, s := Go(steps, s, Resume(true));
    assert Fresh(s, 0) == {0};
    steps, s := Go(steps, s, Poll({0}));
    steps, s := Go(steps, s, Admit(0));
    assert s.process.value.items == {0} && s.process.value.hand == {} && s.refused == {};
    steps, s := Go(steps, s, Publish(true));
    assert s.withdrawn == {} && s.viewDropped == {};
    steps, s := Go(steps, s, Commit(false));
  }

  /** A task whose line is not retired comes back although it was withdrawn: of a task and its
      withdrawal read by the same poll, the withdrawal is applied first and finds nothing. */
  lemma WithdrawnTaskCanComeBack() returns (steps: seq<Step>, s: State)
    ensures Leads(START, steps, s) && s.process.Some? && 0 in s.withdrawn && 0 in s.process.value.items && 0 !in s.process.value.dropped
  {
    steps, s := Unretired();
    steps, s := Go(steps, s, Append(Other));
    steps, s := Go(steps, s, Poll({}));
    steps, s := Go(steps, s, Drop(0));
    steps, s := Go(steps, s, Publish(true));
    steps, s := Go(steps, s, Crash);
    steps, s := Go(steps, s, Resume(true));
    assert 0 in Fresh(s, 0) && s.process.value.items == {};
    steps, s := Go(steps, s, Poll({0}));
    steps, s := Go(steps, s, Admit(0));
  }

  lemma Go(steps: seq<Step>, s: State, step: Step) returns (steps': seq<Step>, s': State)
    requires Leads(START, steps, s) && Enabled(s, step)
    ensures steps' == steps + [step] && s' == Apply(s, step) && Leads(START, steps', s')
  {
    Then(START, steps, s, step);
    steps', s' := steps + [step], Apply(s, step);
  }
}
