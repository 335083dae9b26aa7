/** Counting what the threads and the queues of a batch hold: sums over sequences, and what changing one
    member does to them. */
module BatchCounts {
  import opened Wrappers
  import opened BatchModel

  /** What is counted. */
  datatype Gauge =
    | Holds(i: nat)      // places holding item `i`
    | LlmHolds(i: nat)   // llm workers between dispatch and `scheduler.finished` of item `i`
    | InStage(i: nat)    // threads between writing and clearing `stage` of item `i`
    | Settling(i: nat)   // llm workers that may still write `done` for item `i`
    | PreForward         // items not yet counted in `forwarded_to_asr`
    | Uncounted          // finished items not yet counted in `completed_items`
    | Markers            // asr stop markers: queued, yet to be sent, or used up
    | Halts              // download stop markers: queued, yet to be sent, or used up
    | Reals              // entries of the asr queue that carry an item
    | AsrGone            // asr workers that have left
    | DownloadGone       // download workers that have left
    | AsrLeft            // asr workers that have not
    | DownloadLeft       // download workers that have not
    | Energy(attempts: nat, downloads: nat) // steps still to come, see `BatchLiveness`

  function One(b: bool): nat
  {
    if b then 1 else 0
  }

  function EntryWeight(g: Gauge, e: Entry): nat
  {
    match g
    case Holds(i) => One(e.index == Some(i))
    case Markers => One(e.index.None?)
    case Energy(a, _) => if e.index.None? then 1 else 13 + 2 * a
    case Reals => One(e.index.Some?)
    case _ => 0
  }

  function EntryTotal(g: Gauge, q: seq<Entry>): nat
  {
    if q == [] then 0 else EntryWeight(g, q[0]) + EntryTotal(g, q[1..])
  }

  function MessageWeight(g: Gauge, m: Message): nat
  {
    match g
    case Holds(i) => One(m == Job(i))
    case PreForward => One(m.Job?)
    case Halts => One(m.Halt?)
    case Energy(a, _) => if m.Halt? then 1 else 22 + 3 * a
    case _ => 0
  }

  function MessageTotal(g: Gauge, q: seq<Message>): nat
  {
    if q == [] then 0 else MessageWeight(g, q[0]) + MessageTotal(g, q[1..])
  }

  /** A program counter of a worker that has an item in hand and has not yet passed it on. */
  predicate InHand(pc: Pc)
  {
    pc.Claim? || pc.Run? || pc.Failing? || pc.AfterStage?
  }

  /** Bounds the steps a thread can still take on its own, worker by worker. */
  function PcEnergy(a: nat, d: nat, th: Thread): nat
  {
    var base :=
      match th.role
      case LlmWorker => 5
      case AsrWorker => 10 + a
      case DownloadWorker => 19 + 2 * a
      case IntakeThread => 0;
    var closing := if th.role.IntakeThread? then 2 * d + 1 else 0;
    match th.pc
    case Idle => 1
    case Claim(_) => base + 3 + a
    case Run(_, left) => base + 2 + left
    case Failing(_) => base + 1
    case AfterStage(_) => base
    case Put(e, more) => if e.index.Some? then 18 + 2 * a else 5 + 4 * more + closing
    case PutHeld(e, more) => if e.index.Some? then 17 + 2 * a else 4 + 4 * more + closing
    case CountForward => 3
    case Send(more) => 2 + 4 * more + closing
    case Settle(_) => 4
    case MarkDone(_) => 3
    case Tally => 2
    case HaltDownloads(more) => 1 + 2 * more
    case _ => 0
  }

  function Weight(c: Config, g: Gauge, th: Thread): nat
  {
    var pc := th.pc;
    match g
    case Holds(i) =>
      if InHand(pc) || pc.Admitted? || pc.Registered? then One(pc.index == i)
      else if pc.Put? || pc.PutHeld? then EntryWeight(g, pc.entry)
      else if pc.Drain? || pc.Refill? then EntryTotal(g, pc.hand)
      else 0
    case LlmHolds(i) => One(th.role.LlmWorker? && InHand(pc) && pc.index == i)
    case InStage(i) => One((pc.Run? || pc.Failing?) && pc.index == i)
    case Settling(i) => One((pc.Settle? || pc.MarkDone?) && pc.index == i)
    case PreForward =>
      if th.role.DownloadWorker? then
        One(InHand(pc) || pc.CountForward? || ((pc.Put? || pc.PutHeld?) && pc.entry.index.Some?))
      else One(pc.Admitted? || pc.Registered?)
    case Uncounted => One(pc.Settle? || pc.MarkDone? || pc.Tally?)
    case Markers =>
      if pc.Send? then pc.more
      else if pc.Put? || pc.PutHeld? then (if pc.entry.index.None? then pc.more + 1 else 0)
      else if pc.Drain? || pc.Refill? then EntryTotal(g, pc.hand)
      else One(th.role.AsrWorker? && pc.Exited?)
    case Halts =>
      if th.role.IntakeThread? && (pc.Send? || pc.Put? || pc.PutHeld?) then c.downloads
      else if pc.HaltDownloads? then pc.more
      else One(th.role.DownloadWorker? && pc.Exited?)
    case Reals => if pc.Drain? || pc.Refill? then EntryTotal(g, pc.hand) else 0
    case AsrGone => One(th.role.AsrWorker? && pc.Exited?)
    case DownloadGone => One(th.role.DownloadWorker? && pc.Exited?)
    case AsrLeft => One(th.role.AsrWorker? && !pc.Exited?)
    case DownloadLeft => One(th.role.DownloadWorker? && !pc.Exited?)
    case Energy(a, d) => PcEnergy(a, d, th)
  }

  function Total(c: Config, g: Gauge, ths: seq<Thread>): nat
  {
    if ths == [] then 0 else Weight(c, g, ths[0]) + Total(c, g, ths[1..])
  }

  // ----- sums and their parts -----

  lemma {:induction false} EntryConcat(g: Gauge, a: seq<Entry>, b: seq<Entry>)
    ensures EntryTotal(g, a + b) == EntryTotal(g, a) + EntryTotal(g, b)
  {
    if a == [] {
      assert a + b == b;
    } else {
      EntryConcat(g, a[1..], b);
      assert (a + b)[1..] == a[1..] + b;
    }
  }

  lemma EntryOne(g: Gauge, e: Entry)
    ensures EntryTotal(g, [e]) == EntryWeight(g, e)
  {
    assert [e][1..] == [];
  }

  lemma EntryAppended(g: Gauge, q: seq<Entry>, e: Entry)
    ensures EntryTotal(g, q + [e]) == EntryTotal(g, q) + EntryWeight(g, e)
  {
    EntryConcat(g, q, [e]);
    EntryOne(g, e);
  }

  lemma EntryRemoved(g: Gauge, q: seq<Entry>, j: nat)
    requires j < |q|
    ensures EntryTotal(g, q) == EntryTotal(g, Removed(q, j)) + EntryWeight(g, q[j])
  {
    assert q == q[..j] + ([q[j]] + q[j + 1..]);
    EntryConcat(g, q[..j], [q[j]] + q[j + 1..]);
    EntryConcat(g, [q[j]], q[j + 1..]);
    EntryOne(g, q[j]);
    EntryConcat(g, q[..j], q[j + 1..]);
  }

  lemma {:induction false} MessageConcat(g: Gauge, a: seq<Message>, b: seq<Message>)
    ensures MessageTotal(g, a + b) == MessageTotal(g, a) + MessageTotal(g, b)
  {
    if a == [] {
      assert a + b == b;
    } else {
      MessageConcat(g, a[1..], b);
      assert (a + b)[1..] == a[1..] + b;
    }
  }

  lemma MessageAppended(g: Gauge, q: seq<Message>, m: Message)
    ensures MessageTotal(g, q + [m]) == MessageTotal(g, q) + MessageWeight(g, m)
  {
    MessageConcat(g, q, [m]);
    assert [m][1..] == [];
  }

  lemma {:induction false} MessageMember(g: Gauge, q: seq<Message>, k: nat)
    requires k < |q|
    ensures MessageWeight(g, q[k]) <= MessageTotal(g, q)
  {
    if k > 0 { MessageMember(g, q[1..], k - 1); }
  }

  lemma {:induction false} EntryMember(g: Gauge, q: seq<Entry>, k: nat)
    requires k < |q|
    ensures EntryWeight(g, q[k]) <= EntryTotal(g, q)
  {
    if k > 0 { EntryMember(g, q[1..], k - 1); }
  }

  /** A sum of entries is positive only if some entry counts. */
  lemma {:induction false} EntryWitness(g: Gauge, q: seq<Entry>) returns (k: nat)
    requires EntryTotal(g, q) > 0
    ensures k < |q| && EntryWeight(g, q[k]) > 0
  {
    if EntryWeight(g, q[0]) > 0 {
      k := 0;
    } else {
      k := EntryWitness(g, q[1..]);
      k := k + 1;
    }
  }

  lemma {:induction false} EntriesSplit(q: seq<Entry>)
    ensures EntryTotal(Markers, q) + EntryTotal(Reals, q) == |q|
  {
    if q != [] { EntriesSplit(q[1..]); }
  }

  lemma {:induction false} TotalUpdate(c: Config, g: Gauge, ths: seq<Thread>, t: nat, th: Thread)
    requires t < |ths|
    ensures Total(c, g, ths[t := th]) + Weight(c, g, ths[t]) == Total(c, g, ths) + Weight(c, g, th)
  {
    if t == 0 {
      assert ths[0 := th][1..] == ths[1..];
    } else {
      TotalUpdate(c, g, ths[1..], t - 1, th);
      assert ths[t := th][1..] == ths[1..][t - 1 := th];
    }
  }

  lemma {:induction false} TotalMember(c: Config, g: Gauge, ths: seq<Thread>, t: nat)
    requires t < |ths|
    ensures Weight(c, g, ths[t]) <= Total(c, g, ths)
  {
    if t > 0 { TotalMember(c, g, ths[1..], t - 1); }
  }

  /** Two threads count together at most the total. */
  lemma {:induction false} TotalPair(c: Config, g: Gauge, ths: seq<Thread>, t: nat, u: nat)
    requires t < u < |ths|
    ensures Weight(c, g, ths[t]) + Weight(c, g, ths[u]) <= Total(c, g, ths)
  {
    if t == 0 {
      TotalMember(c, g, ths[1..], u - 1);
    } else {
      TotalPair(c, g, ths[1..], t - 1, u - 1);
    }
  }

  lemma {:induction false} TotalWitness(c: Config, g: Gauge, ths: seq<Thread>) returns (t: nat)
    requires Total(c, g, ths) > 0
    ensures t < |ths| && Weight(c, g, ths[t]) > 0
  {
    if Weight(c, g, ths[0]) > 0 {
      t := 0;
    } else {
      t := TotalWitness(c, g, ths[1..]);
      t := t + 1;
    }
  }

  lemma {:induction false} TotalZero(c: Config, g: Gauge, ths: seq<Thread>)
    requires forall t :: 0 <= t < |ths| ==> Weight(c, g, ths[t]) == 0
    ensures Total(c, g, ths) == 0
  {
    if ths != [] { TotalZero(c, g, ths[1..]); }
  }

  lemma {:induction false} MessagesSplit(q: seq<Message>)
    ensures MessageTotal(PreForward, q) + MessageTotal(Halts, q) == |q|
  {
    if q != [] { MessagesSplit(q[1..]); }
  }

  lemma {:induction false} TotalSame(c: Config, g: Gauge, h: Gauge, ths: seq<Thread>)
    requires forall t :: 0 <= t < |ths| ==> Weight(c, g, ths[t]) == Weight(c, h, ths[t])
    ensures Total(c, g, ths) == Total(c, h, ths)
  {
    if ths != [] { TotalSame(c, g, h, ths[1..]); }
  }

  lemma {:induction false} GoneAreMarkers(c: Config, ths: seq<Thread>)
    ensures Total(c, AsrGone, ths) <= Total(c, Markers, ths)
    ensures Total(c, DownloadGone, ths) <= Total(c, Halts, ths)
  {
    if ths != [] { GoneAreMarkers(c, ths[1..]); }
  }

  /** How many of the threads from position `k` on have the given role. */
  function Heads(c: Config, role: Role, k: nat): nat
    requires k <= ThreadCount(c)
    decreases ThreadCount(c) - k
  {
    if k == ThreadCount(c) then 0 else One(RoleAt(c, k) == role) + Heads(c, role, k + 1)
  }

  lemma {:induction false} HeadsAre(c: Config, k: nat)
    requires k <= ThreadCount(c)
    ensures Heads(c, DownloadWorker, k) == (if k < c.downloads then c.downloads - k else 0)
    ensures Heads(c, AsrWorker, k)
            == (if k < c.downloads then c.asrs else if k < c.downloads + c.asrs then c.downloads + c.asrs - k else 0)
    decreases ThreadCount(c) - k
  {
    if k < ThreadCount(c) { HeadsAre(c, k + 1); }
  }

  /** Workers are either here or gone. */
  lemma {:induction false} HereOrGone(c: Config, ths: seq<Thread>, k: nat)
    requires |ths| == ThreadCount(c) && k <= |ths|
    requires forall t :: 0 <= t < |ths| ==> ths[t].role == RoleAt(c, t)
    ensures Total(c, DownloadGone, ths[k..]) + Total(c, DownloadLeft, ths[k..]) == Heads(c, DownloadWorker, k)
    ensures Total(c, AsrGone, ths[k..]) + Total(c, AsrLeft, ths[k..]) == Heads(c, AsrWorker, k)
    decreases |ths| - k
  {
    if k < |ths| {
      HereOrGone(c, ths, k + 1);
      assert ths[k..][1..] == ths[k + 1..];
    }
  }

  lemma Headcount(c: Config, ths: seq<Thread>)
    requires |ths| == ThreadCount(c)
    requires forall t :: 0 <= t < |ths| ==> ths[t].role == RoleAt(c, t)
    ensures Total(c, DownloadGone, ths) + Total(c, DownloadLeft, ths) == c.downloads
    ensures Total(c, AsrGone, ths) + Total(c, AsrLeft, ths) == c.asrs
  {
    HereOrGone(c, ths, 0);
    assert ths[0..] == ths;
    HeadsAre(c, 0);
  }

  // ----- one step moves one thread, and appends or removes one entry -----

  /** The steps that belong to a thread. */
  predicate HasSubject(step: Step)
  {
    !step.Boot? && !step.Stop?
  }

  /** `s'` differs from `s` in no thread but `t`. */
  predicate OnlyMoves(s: State, s': State, t: nat)
  {
    t < |s.threads| == |s'.threads| && s'.threads == s.threads[t := s'.threads[t]]
  }

  lemma EntryJoins(q: seq<Entry>, e: Entry)
    ensures forall g :: EntryTotal(g, q + [e]) == EntryTotal(g, q) + EntryWeight(g, e)
  {
    forall g { EntryAppended(g, q, e); }
  }

  lemma EntryLeaves(q: seq<Entry>, j: nat)
    requires j < |q|
    ensures forall g :: EntryTotal(g, Removed(q, j)) == EntryTotal(g, q) - EntryWeight(g, q[j])
  {
    forall g ensures EntryTotal(g, Removed(q, j)) == EntryTotal(g, q) - EntryWeight(g, q[j]) {
      EntryRemoved(g, q, j);
    }
  }

  lemma MessageJoins(q: seq<Message>, m: Message)
    ensures forall g :: MessageTotal(g, q + [m]) == MessageTotal(g, q) + MessageWeight(g, m)
  {
    forall g { MessageAppended(g, q, m); }
  }
}
