/** Which ready item the llm bin runs next (`_LlmScheduler`). */
module LlmScheduling {
  import opened Wrappers
  import opened Decimal

  // The state and its operations are given as functions on a value; the class at the end keeps the
  // same state in fields, as the source does, and is proved against them.

  /** `ready` maps a submitted item to its cost; `running` holds the groups being worked on. */
  datatype Sched = Sched(
    groups: seq<string>,
    priorities: seq<int>,
    ready: map<nat, real>,
    dispatched: set<nat>,
    finished: set<nat>,
    running: set<string>,
    sequence: nat,
    closed: bool)

  const SOLO_PREFIX := "~solo-"

  /** The group an item belongs to: its own name, or one made up from its index. */
  function GroupKey(group: string, index: nat): string
  {
    if group == "" then SOLO_PREFIX + Numeral(index) else group
  }

  function Init(groups: seq<string>, priorities: seq<int>, closed: bool): Sched
  {
    Sched(seq(|groups|, i requires 0 <= i < |groups| => GroupKey(groups[i], i)),
          if priorities == [] then seq(|groups|, _ => 0) else priorities,
          map[], {}, {}, {}, 0, closed)
  }

  function Added(s: Sched, group: string, priority: int): Sched
  {
    s.(groups := s.groups + [GroupKey(group, |s.groups|)], priorities := s.priorities + [priority])
  }

  function Reprioritised(s: Sched, index: nat, priority: int): Sched
    requires index < |s.priorities|
  {
    s.(priorities := s.priorities[index := priority])
  }

  function Submitted(s: Sched, index: nat, cost: real): Sched
  {
    s.(ready := s.ready[index := cost])
  }

  function Finished(s: Sched, index: nat): Sched
    requires index < |s.groups|
  {
    s.(finished := s.finished + {index}, running := s.running - {s.groups[index]})
  }

  function Dispatched(s: Sched, index: nat): Sched
    requires index < |s.groups|
  {
    s.(dispatched := s.dispatched + {index}, running := s.running + {s.groups[index]}, sequence := s.sequence + 1)
  }

  /** Every item ever registered has been handed out and none can be added any more. */
  predicate Over(s: Sched)
  {
    s.closed && |s.dispatched| >= |s.groups|
  }

  /** No member of the group is running and every earlier member is through its llm stage. */
  predicate Eligible(s: Sched, index: nat)
    requires index < |s.groups|
  {
    && s.groups[index] !in s.running
    && forall other: nat :: other < index && s.groups[other] == s.groups[index] ==> other in s.finished
  }

  predicate Candidate(s: Sched, index: nat)
  {
    index < |s.groups| && index in s.ready && index !in s.dispatched && Eligible(s, index)
  }

  /** Higher priority, then longer, then earlier submitted. */
  predicate Outranks(s: Sched, a: nat, b: nat)
    requires a < |s.priorities| && b < |s.priorities| && a in s.ready && b in s.ready
  {
    || s.priorities[a] > s.priorities[b]
    || (s.priorities[a] == s.priorities[b] && s.ready[a] > s.ready[b])
    || (s.priorities[a] == s.priorities[b] && s.ready[a] == s.ready[b] && a < b)
  }

  ghost predicate IsBest(s: Sched, best: nat)
    requires |s.priorities| == |s.groups|
  {
    && Candidate(s, best)
    && forall c: nat :: Candidate(s, c) && c != best ==> Outranks(s, best, c)
  }

  /** A group is marked as running by one of its members. */
  ghost predicate Runner(s: Sched, g: string)
  {
    exists i :: i in s.dispatched && i < |s.groups| && i !in s.finished && s.groups[i] == g
  }

  /** What every state reached by the runner satisfies. */
  ghost predicate Valid(s: Sched)
  {
    && |s.priorities| == |s.groups|
    && (forall i :: i in s.ready ==> i < |s.groups|)
    && s.dispatched <= s.ready.Keys
    && s.finished <= s.dispatched
    && |s.dispatched| == s.sequence
    && (forall i: nat, j: nat :: i < j && j in s.dispatched && s.groups[i] == s.groups[j] ==> i in s.finished)
    && (forall i :: i in s.dispatched && i !in s.finished ==> s.groups[i] in s.running)
    && (forall g :: g in s.running ==> Runner(s, g))
  }

  /** Two members of one group are never in their llm stage together. */
  lemma OneRunnerPerGroup(s: Sched, i: nat, j: nat)
    requires Valid(s)
    requires i in s.dispatched - s.finished && j in s.dispatched - s.finished
    requires s.groups[i] == s.groups[j]
    ensures i == j
  {
    assert i < j ==> i in s.finished;
    assert j < i ==> j in s.finished;
  }

  /** Among a non-empty set of candidates there is a best one. */
  lemma {:induction false} BestExists(s: Sched, bound: nat, witness_: nat) returns (best: nat)
    requires Valid(s)
    requires Candidate(s, witness_) && witness_ < bound
    ensures Candidate(s, best) && best < bound
    ensures forall c: nat :: c < bound && Candidate(s, c) && c != best ==> Outranks(s, best, c)
    decreases bound
  {
    var top := bound - 1;
    if exists c: nat :: c < top && Candidate(s, c) {
      var c: nat :| c < top && Candidate(s, c);
      best := BestExists(s, top, c);
      if Candidate(s, top) && Outranks(s, top, best) {
        best := top;
      }
    } else {
      best := witness_;
    }
  }

  /** ... and only one. */
  lemma BestIsUnique(s: Sched, a: nat, b: nat)
    requires |s.priorities| == |s.groups| && IsBest(s, a) && IsBest(s, b)
    ensures a == b
  {
  }

  /** `a` comes before `b`: its priority is higher; or, that being equal, it costs more; or, that being equal
      too, it was submitted earlier. */
  lemma BestLeads(s: Sched, best: nat, c: nat)
    requires |s.priorities| == |s.groups| && IsBest(s, best) && Candidate(s, c) && c != best
    ensures s.priorities[best] >= s.priorities[c]
    ensures s.priorities[best] == s.priorities[c] ==> s.ready[best] >= s.ready[c]
    ensures s.priorities[best] == s.priorities[c] && s.ready[best] == s.ready[c] ==> best < c
  {
  }

  lemma InitValid(groups: seq<string>, priorities: seq<int>, closed: bool)
    requires priorities == [] || |priorities| == |groups|
    ensures Valid(Init(groups, priorities, closed))
  {
  }

  lemma AddedOrder(s: Sched, group: string, priority: int)
    requires Valid(s)
    ensures var s' := Added(s, group, priority);
            forall i: nat, j: nat :: i < j && j in s'.dispatched && s'.groups[i] == s'.groups[j] ==> i in s'.finished
  {
    var s' := Added(s, group, priority);
    forall i: nat, j: nat | i < j && j in s'.dispatched && s'.groups[i] == s'.groups[j] ensures i in s'.finished {
      assert s.groups[i] == s'.groups[i] && s.groups[j] == s'.groups[j];
    }
  }

  lemma AddedRunner(s: Sched, group: string, priority: int, g: string)
    requires Runner(s, g)
    ensures Runner(Added(s, group, priority), g)
  {
    var i :| i in s.dispatched && i < |s.groups| && i !in s.finished && s.groups[i] == g;
    assert Added(s, group, priority).groups[i] == g;
  }

  lemma AddedRunning(s: Sched, group: string, priority: int)
    requires Valid(s)
    ensures var s' := Added(s, group, priority); forall i :: i in s'.dispatched && i !in s'.finished ==> s'.groups[i] in s'.running
  {
    var s' := Added(s, group, priority);
    forall i | i in s'.dispatched && i !in s'.finished ensures s'.groups[i] in s'.running { assert s'.groups[i] == s.groups[i]; }
  }

  lemma AddedValid(s: Sched, group: string, priority: int)
    requires Valid(s)
    ensures Valid(Added(s, group, priority))
  {
    AddedOrder(s, group, priority);
    AddedRunning(s, group, priority);
    forall g | g in s.running ensures Runner(Added(s, group, priority), g) {
      assert Runner(s, g);
      AddedRunner(s, group, priority, g);
    }
  }

  lemma DispatchedValid(s: Sched, index: nat)
    requires Valid(s) && Candidate(s, index)
    ensures Valid(Dispatched(s, index))
  {
    var s' := Dispatched(s, index);
    forall g | g in s'.running ensures Runner(s', g) {
      if g == s.groups[index] {
        assert index in s'.dispatched && index !in s'.finished;
      } else {
        assert Runner(s, g);
        var i :| i in s.dispatched && i < |s.groups| && i !in s.finished && s.groups[i] == g;
        assert i in s'.dispatched;
      }
    }
    forall i: nat, j: nat | i < j && j in s'.dispatched && s'.groups[i] == s'.groups[j] ensures i in s'.finished {
      if j != index { assert j in s.dispatched; }
    }
  }

  lemma FinishedValid(s: Sched, index: nat)
    requires Valid(s) && index in s.dispatched - s.finished
    ensures Valid(Finished(s, index))
  {
    var s' := Finished(s, index);
    forall i | i in s'.dispatched && i !in s'.finished ensures s'.groups[i] in s'.running {
      assert i < index && s.groups[i] == s.groups[index] ==> i in s.finished;
      assert index < i && s.groups[i] == s.groups[index] ==> index in s.finished;
    }
    forall g | g in s'.running ensures Runner(s', g) {
      assert Runner(s, g);
      var i :| i in s.dispatched && i < |s.groups| && i !in s.finished && s.groups[i] == g;
      assert i != index && i in s'.dispatched;
    }
  }

  lemma SubmittedValid(s: Sched, index: nat, cost: real)
    requires Valid(s) && index < |s.groups|
    ensures Valid(Submitted(s, index, cost))
  {
    assert s.ready.Keys <= Submitted(s, index, cost).ready.Keys;
  }

  /** The one item of least index that was never handed out can be, once nothing runs. */
  lemma IdleSchedulerHasCandidate(s: Sched, index: nat)
    requires Valid(s) && s.dispatched == s.finished
    requires index < |s.groups| && index in s.ready && index !in s.dispatched
    requires forall other: nat :: other < index ==> other in s.dispatched
    ensures Candidate(s, index)
  {
    assert s.groups[index] in s.running ==> Runner(s, s.groups[index]);
  }

  /** An ungrouped item is alone in its group unless another item spells that made-up name out. */
  lemma SoloGroupIsPrivate(group: string, other: nat, solo: nat)
    requires other != solo
    ensures GroupKey(group, other) == GroupKey("", solo) <==> group == SOLO_PREFIX + Numeral(solo)
  {
    if group == "" && GroupKey(group, other) == GroupKey("", solo) {
      assert Numeral(other) == GroupKey("", other)[|SOLO_PREFIX|..];
      assert Numeral(solo) == GroupKey("", solo)[|SOLO_PREFIX|..];
      NumeralInjective(other, solo);
    }
  }

  // ----- whole runs of the scheduler -----

  /** One call on the scheduler. `Next(i)` is a call of `next` that hands out item `i`. */
  datatype Call =
    | Add(group: string, priority: int)
    | SetPriority(index: nat, priority: int)
    | Submit(index: nat, cost: real)
    | Finish(index: nat)
    | Close
    | Next(index: nat)

  /** The calls the runner makes: indices it was given, `finished` once per item it was handed. */
  ghost predicate Allowed(s: Sched, call: Call)
  {
    match call
    case Add(_, _) => true
    case SetPriority(i, _) => i < |s.priorities|
    case Submit(i, _) => i < |s.groups|
    case Finish(i) => i in s.dispatched && i !in s.finished && i < |s.groups|
    case Close => true
    case Next(i) => !Over(s) && |s.priorities| == |s.groups| && IsBest(s, i)
  }

  function After(s: Sched, call: Call): Sched
  {
    match call
    case Add(g, p) => Added(s, g, p)
    case SetPriority(i, p) => if i < |s.priorities| then Reprioritised(s, i, p) else s
    case Submit(i, c) => Submitted(s, i, c)
    case Finish(i) => if i < |s.groups| then Finished(s, i) else s
    case Close => s.(closed := true)
    case Next(i) => if i < |s.groups| then Dispatched(s, i) else s
  }

  function Replay(s: Sched, calls: seq<Call>): Sched
    decreases |calls|
  {
    if calls == [] then s else After(Replay(s, calls[..|calls| - 1]), calls[|calls| - 1])
  }

  ghost predicate AllowedRun(s: Sched, calls: seq<Call>)
  {
    forall k :: 0 <= k < |calls| ==> Allowed(Replay(s, calls[..k]), calls[k])
  }

  /** The items handed out, in order. */
  function Log(calls: seq<Call>): seq<nat>
    decreases |calls|
  {
    if calls == [] then []
    else Log(calls[..|calls| - 1]) + (match calls[|calls| - 1] case Next(i) => [i] case _ => [])
  }

  lemma AfterValid(s: Sched, call: Call)
    requires Valid(s) && Allowed(s, call)
    ensures Valid(After(s, call))
  {
    match call
    case Add(g, p) => AddedValid(s, g, p);
    case SetPriority(i, p) =>
    case Submit(i, c) => SubmittedValid(s, i, c);
    case Finish(i) => FinishedValid(s, i);
    case Close =>
    case Next(i) => DispatchedValid(s, i);
  }

  /** What a log of dispatches says about the state it led to. */
  ghost predicate LogOf(s: Sched, log: seq<nat>)
  {
    && |log| == s.sequence
    && (forall k :: 0 <= k < |log| ==> log[k] in s.dispatched && log[k] < |s.groups|)
    && (forall i :: i in s.dispatched ==> i in log)
    && (forall a, b :: 0 <= a < b < |log| ==> log[a] != log[b])
    && (forall a, b :: 0 <= a < b < |log| && s.groups[log[a]] == s.groups[log[b]] ==> log[a] < log[b])
  }

  /** Over every run of calls, with items added and re-ranked at any moment: nothing is handed
      out twice, the log holds exactly what was handed out, and inside a group the order of the
      log is the order of submission. */
  lemma {:induction false} DispatchOrder(s0: Sched, calls: seq<Call>)
    requires Valid(s0) && s0.dispatched == {} && AllowedRun(s0, calls)
    ensures Valid(Replay(s0, calls))
    ensures LogOf(Replay(s0, calls), Log(calls))
    decreases |calls|
  {
    if calls != [] {
      var n := |calls| - 1;
      var front := calls[..n];
      assert forall k :: 0 <= k < n ==> front[..k] == calls[..k] && front[k] == calls[k];
      DispatchOrder(s0, front);
      var s, s' := Replay(s0, front), Replay(s0, calls);
      assert calls[..n] == front && Allowed(s, calls[n]);
      AfterValid(s, calls[n]);
      LogGrows(s, calls[n], Log(front));
    }
  }

  lemma LogGrows(s: Sched, call: Call, log: seq<nat>)
    requires Valid(s) && LogOf(s, log) && Allowed(s, call)
    ensures LogOf(After(s, call), log + (match call case Next(i) => [i] case _ => []))
  {
    match call {
      case Next(i) => LogTakesNext(s, i, log);
      case Add(g, p) => LogIgnoresAdd(s, g, p, log);
      case _ => assert log + [] == log;
    }
  }

  lemma LogIgnoresAdd(s: Sched, group: string, priority: int, log: seq<nat>)
    requires Valid(s) && LogOf(s, log)
    ensures LogOf(Added(s, group, priority), log + [])
  {
    assert log + [] == log;
    assert forall k :: 0 <= k < |s.groups| ==> Added(s, group, priority).groups[k] == s.groups[k];
  }

  /** A candidate comes after every member of its group that was already handed out. */
  lemma CandidateIsLast(s: Sched, i: nat, j: nat)
    requires Valid(s) && Candidate(s, i)
    requires j in s.dispatched && s.groups[j] == s.groups[i]
    ensures j < i
  {
    assert i < j ==> i in s.finished;
  }

  lemma LogTakesNext(s: Sched, i: nat, log: seq<nat>)
    requires Valid(s) && LogOf(s, log) && Candidate(s, i)
    ensures LogOf(Dispatched(s, i), log + [i])
  {
    forall k | 0 <= k < |log| && s.groups[log[k]] == s.groups[i] ensures log[k] < i {
      CandidateIsLast(s, i, log[k]);
    }
    assert i !in log;
    LogExtends(s, i, log);
  }

  lemma LogExtends(s: Sched, i: nat, log: seq<nat>)
    requires LogOf(s, log) && i < |s.groups| && i !in log
    requires forall k :: 0 <= k < |log| && s.groups[log[k]] == s.groups[i] ==> log[k] < i
    ensures LogOf(Dispatched(s, i), log + [i])
  {
    var log' := log + [i];
    assert log'[|log|] == i;
    assert forall k :: k in log ==> k in log';
  }

  /** The class, with the fields of the source. One call of a method is one section under `_cond`. */
  class Scheduler {
    var groups: seq<string>
    var priorities: seq<int>
    var ready: map<nat, real>
    var dispatched: set<nat>
    var finished: set<nat>
    var running: set<string>
    var sequence: nat
    var closed: bool

    ghost function State(): Sched
      reads this
    {
      Sched(groups, priorities, ready, dispatched, finished, running, sequence, closed)
    }

    constructor (names: seq<string>, isClosed: bool, ranks: seq<int>)
      requires ranks == [] || |ranks| == |names|
      ensures State() == Init(names, ranks, isClosed) && Valid(State())
    {
      var keys: seq<string> := [];
      for i := 0 to |names|
        invariant |keys| == i
        invariant forall k :: 0 <= k < i ==> keys[k] == GroupKey(names[k], k)
      {
        keys := keys + [GroupKey(names[i], i)];
      }
      groups := keys;
      priorities := if ranks == [] then seq(|names|, _ => 0) else ranks;
      ready, dispatched, finished, running, sequence, closed := map[], {}, {}, {}, 0, isClosed;
      new;
      assert groups == Init(names, ranks, isClosed).groups;
      InitValid(names, ranks, isClosed);
    }

    method AddItem(group: string, priority: int) returns (index: nat)
      requires Valid(State())
      modifies this
      ensures State() == Added(old(State()), group, priority) && Valid(State())
      ensures index == old(|groups|) && groups[index] == GroupKey(group, index)
    {
      AddedValid(State(), group, priority);
      index := |groups|;
      groups := groups + [GroupKey(group, index)];
      priorities := priorities + [priority];
    }

    method Rerank(index: nat, priority: int)
      requires Valid(State()) && index < |groups|
      modifies this`priorities
      ensures State() == Reprioritised(old(State()), index, priority) && Valid(State())
    {
      priorities := priorities[index := priority];
    }

    method IsDispatched(index: nat) returns (answer: bool)
      ensures answer <==> index in dispatched
    {
      answer := index in dispatched;
    }

    method CloseDoor()
      requires Valid(State())
      modifies this`closed
      ensures State() == old(State()).(closed := true) && Valid(State())
    {
      closed := true;
    }

    method SubmitItem(index: nat, cost: real)
      requires Valid(State()) && index < |groups|
      modifies this`ready
      ensures State() == Submitted(old(State()), index, cost) && Valid(State()) && ready == old(ready)[index := cost]
    {
      SubmittedValid(State(), index, cost);
      ready := ready[index := cost];
    }

    method FinishItem(index: nat)
      requires Valid(State()) && index in dispatched - finished
      modifies this`finished, this`running
      ensures State() == Finished(old(State()), index) && Valid(State())
    {
      FinishedValid(State(), index);
      finished := finished + {index};
      running := running - {groups[index]};
    }

    method IsEligible(index: nat) returns (answer: bool)
      requires index < |groups|
      ensures answer <==> Eligible(State(), index)
    {
      if groups[index] in running {
        return false;
      }
      for other := 0 to index
        invariant forall k: nat :: k < other && groups[k] == groups[index] ==> k in finished
      {
        if groups[other] == groups[index] && other !in finished {
          return false;
        }
      }
      return true;
    }

    /** The candidates of `next` and the greatest of them. */
    method FindBest() returns (best: Option<nat>)
      requires Valid(State())
      ensures best.None? ==> forall i: nat :: !Candidate(State(), i)
      ensures best.Some? ==> IsBest(State(), best.value)
    {
      best := None;
      for index := 0 to |groups|
        invariant best.None? ==> forall c: nat :: c < index ==> !Candidate(State(), c)
        invariant best.Some? ==> best.value < index && Candidate(State(), best.value)
        invariant best.Some? ==> forall c: nat :: c < index && Candidate(State(), c) && c != best.value
                                              ==> Outranks(State(), best.value, c)
      {
        if index in ready && index !in dispatched {
          var eligible := IsEligible(index);
          if eligible && (best.None? || Beats(index, best.value)) {
            best := Some(index);
          }
        }
      }
    }

    /** One pass of `next`: the work is over (`None` and `over`), an item is handed out, or the
        caller goes back to waiting. */
    method NextItem() returns (over: bool, slot: Option<(nat, nat, real)>)
      requires Valid(State())
      modifies this`dispatched, this`running, this`sequence
      ensures over <==> Over(old(State()))
      ensures over ==> slot == None
      ensures slot.None? ==> State() == old(State())
      ensures slot.None? && !over ==> forall i: nat :: !Candidate(old(State()), i)
      ensures slot.Some? ==> slot.value.0 < |groups| && IsBest(old(State()), slot.value.0)
      ensures slot.Some? ==> State() == Dispatched(old(State()), slot.value.0)
      ensures slot.Some? ==> slot.value.1 == sequence && slot.value.2 == ready[slot.value.0]
      ensures Valid(State())
    {
      if closed && |dispatched| >= |groups| {
        return true, None;
      }
      var best := FindBest();
      assert State() == old(State());
      if best.None? {
        return false, None;
      }
      DispatchedValid(State(), best.value);
      dispatched := dispatched + {best.value};
      running := running + {groups[best.value]};
      sequence := sequence + 1;
      assert State() == Dispatched(old(State()), best.value);
      return false, Some((best.value, sequence, ready[best.value]));
    }

    /** The comparison of the `max` key. */
    predicate Beats(a: nat, b: nat)
      requires a < |priorities| && b < |priorities| && a in ready && b in ready
      reads this
    {
      || priorities[a] > priorities[b]
      || (priorities[a] == priorities[b] && (ready[a] > ready[b] || (ready[a] == ready[b] && a < b)))
    }
  }
}
