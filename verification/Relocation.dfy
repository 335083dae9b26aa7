/** Moving the big data to another root, with a crash after any step that others can see. */
module Relocation {
  import opened Wrappers

  /** What stands at a place: nothing, or a directory. A copy is checked by the number of files and
      bytes only; `data` is everything else there is to a directory, so that one on its way in or out
      is a directory like any other. */
  datatype Content = Absent | Tree(entries: nat, files: nat, bytes: nat, data: nat)

  /** A data directory of a root, or its staging sibling. */
  datatype Place = Dir(root: nat, name: string) | Incoming(root: nat, name: string)

  /** A state of the disk: directories, the two fields of the location record, and the roots that carry
      the mark of a store. */
  datatype Disk = Disk(places: map<Place, Content>, big: Option<nat>, from: Option<nat>, stores: set<nat>)

  function At(d: Disk, p: Place): Content
  {
    if p in d.places then d.places[p] else Absent
  }

  function Put(d: Disk, p: Place, c: Content): Disk
  {
    d.(places := d.places[p := c])
  }

  predicate IsDir(c: Content)
  {
    !c.Absent?
  }

  /** A directory with something in it. */
  predicate HasData(c: Content)
  {
    c.Tree? && c.entries > 0
  }

  predicate IsCopy(c: Content, of: Content)
  {
    c.Tree? && of.Tree? && c.files == of.files && c.bytes == of.bytes
  }

  /** The two disks differ at `p` only. */
  ghost predicate SameBut(before: Disk, now: Disk, p: Place)
  {
    && now.big == before.big && now.from == before.from && now.stores == before.stores
    && forall q :: q != p ==> At(now, q) == At(before, q)
  }

  // ----- finding the data -----

  /** `resolve_big_data_root`, with all volumes present. */
  function ResolvedRoot(d: Disk, install: nat): nat
  {
    if d.big.Some? && d.big.value in d.stores then d.big.value else install
  }

  /** Where one data directory is looked for, an interrupted move taken into account. */
  function Found(d: Disk, install: nat, name: string): Place
  {
    var r := ResolvedRoot(d, install);
    if d.from.Some? && d.from.value != r && !IsDir(At(d, Dir(r, name))) && IsDir(At(d, Dir(d.from.value, name)))
    then Dir(d.from.value, name)
    else Dir(r, name)
  }

  // ----- one directory -----

  /** Between the disk before a move and a moment in it: nothing else has changed, the destination is as
      it was, gone, or a complete copy, and the source is whole until it is. */
  ghost predicate Midway(before: Disk, now: Disk, src: Place, dst: Place, staging: Place)
  {
    && now.big == before.big && now.from == before.from && now.stores == before.stores
    && (forall q :: q != src && q != dst && q != staging ==> At(now, q) == At(before, q))
    && (At(now, dst) == At(before, dst) || At(now, dst).Absent? || IsCopy(At(now, dst), At(before, src)))
    && (At(now, src) == At(before, src) || (IsCopy(At(now, dst), At(before, src)) && At(now, src).Absent?))
  }

  /** What can go wrong outside: whether the two places are on one volume, whether the copy fails on its
      way, and what it makes of the source when it does not. */
  datatype Luck = Luck(sameVolume: bool, copyFails: bool, copy: Content)

  /** The copy breaks off, or the two do not compare. */
  predicate CopyGoesWrong(luck: Luck, of: Content)
  {
    luck.copyFails || !IsCopy(luck.copy, of)
  }

  datatype Moved = Skipped | Placed(leftover: bool) | Failed

  class Mover {
    var disk: Disk
    const install: nat
    ghost var trace: seq<Disk>

    constructor (disk: Disk, install: nat)
      ensures this.disk == disk && this.install == install && trace == [disk]
    {
      this.disk, this.install, trace := disk, install, [disk];
    }

    /** One visible step. */
    method Become(next: Disk)
      modifies this`disk, this`trace
      ensures disk == next && trace == old(trace) + [next]
    {
      disk := next;
      trace := trace + [next];
    }

    /** `move_directory`. A directory that is empty, or whose destination holds something, stays. */
    method MoveDirectory(src: Place, dst: Place, staging: Place, luck: Luck) returns (moved: Moved)
      requires src != dst && staging != src && staging != dst
      modifies this`disk, this`trace
      ensures old(trace) <= trace && forall k :: |old(trace)| <= k < |trace| ==> Midway(old(disk), trace[k], src, dst, staging)
      ensures Midway(old(disk), disk, src, dst, staging)
      ensures moved.Skipped? <==> !HasData(At(old(disk), src)) || HasData(At(old(disk), dst))
      ensures moved.Skipped? ==> disk == old(disk) && trace == old(trace)
      ensures moved.Placed? ==> IsCopy(At(disk, dst), At(old(disk), src))
      ensures moved.Placed? ==> At(disk, src) == if moved.leftover then At(old(disk), src) else Absent
      ensures moved.Failed? ==> At(disk, src) == At(old(disk), src) && !HasData(At(disk, dst))
      ensures !moved.Skipped? && luck.sameVolume ==> moved == Placed(false)
      ensures !moved.Skipped? && !luck.sameVolume ==> moved == if CopyGoesWrong(luck, At(old(disk), src)) then Failed else Placed(true)
    {
      if !HasData(At(disk, src)) || HasData(At(disk, dst)) { return Skipped; }
      if IsDir(At(disk, dst)) { Become(Put(disk, dst, Absent)); }
      if luck.sameVolume {
        Become(Put(Put(disk, dst, At(disk, src)), src, Absent));
        return Placed(false);
      }
      moved := CopyIn(src, dst, staging, luck);
    }

    /** Across volumes: copy to the staging directory, compare, and rename into place. */
    method CopyIn(src: Place, dst: Place, staging: Place, luck: Luck) returns (moved: Moved)
      requires src != dst && staging != src && staging != dst && At(disk, src).Tree? && At(disk, dst).Absent?
      modifies this`disk, this`trace
      ensures old(trace) <= trace && forall k :: |old(trace)| <= k < |trace| ==> Midway(old(disk), trace[k], src, dst, staging)
      ensures Midway(old(disk), disk, src, dst, staging) && At(disk, src) == At(old(disk), src)
      ensures moved == if CopyGoesWrong(luck, At(old(disk), src)) then Failed else Placed(true)
      ensures if moved.Failed? then At(disk, dst).Absent? else IsCopy(At(disk, dst), At(old(disk), src))
    {
      var staged := Stage(src, staging, luck);
      if !staged { return Failed; }
      Become(Put(Put(disk, dst, luck.copy), staging, Absent));
      moved := Placed(true);
    }

    /** Copy to the staging directory and compare; what failed is removed again. */
    method Stage(src: Place, staging: Place, luck: Luck) returns (staged: bool)
      requires src != staging && At(disk, src).Tree?
      modifies this`disk, this`trace
      ensures old(trace) <= trace && forall k :: |old(trace)| <= k < |trace| ==> SameBut(old(disk), trace[k], staging)
      ensures SameBut(old(disk), disk, staging)
      ensures staged <==> !CopyGoesWrong(luck, At(old(disk), src))
    {
      if IsDir(At(disk, staging)) { RemoveTree(staging); }
      var onItsWay: Content := *;
      Become(Put(disk, staging, onItsWay));
      staged := !luck.copyFails;
      if staged {
        Become(Put(disk, staging, luck.copy));
        staged := IsCopy(luck.copy, At(disk, src));
      }
      if !staged { RemoveTree(staging); }
    }

    /** `remove_tree`: entry by entry. */
    method RemoveTree(p: Place)
      modifies this`disk, this`trace
      ensures disk == Put(old(disk), p, Absent) && |trace| == |old(trace)| + 2 && old(trace) <= trace
      ensures forall k :: |old(trace)| <= k < |trace| ==> SameBut(old(disk), trace[k], p)
    {
      var onItsWay: Content := *;
      ghost var before := disk;
      Become(Put(disk, p, onItsWay));
      Become(Put(disk, p, Absent));
      assert disk.places == before.places[p := Absent];
    }

    /** `move_tree`, of the migrations: the source goes last. */
    method MoveTree(src: Place, dst: Place, staging: Place, luck: Luck) returns (moved: bool)
      requires src != dst && staging != src && staging != dst && At(disk, src).Tree?
      modifies this`disk, this`trace
      ensures old(trace) <= trace && forall k :: |old(trace)| <= k < |trace| ==> NeverWithout(old(disk), trace[k], src, dst)
      ensures moved <==> !IsDir(At(old(disk), dst)) && !CopyGoesWrong(luck, At(old(disk), src))
      ensures moved ==> At(disk, src).Absent? && IsCopy(At(disk, dst), At(old(disk), src))
      ensures !moved ==> At(disk, src) == At(old(disk), src) && At(disk, dst) == At(old(disk), dst)
    {
      if IsDir(At(disk, dst)) { return false; }
      moved := Stage(src, staging, luck);
      if moved {
        Become(Put(Put(disk, dst, luck.copy), staging, Absent));
        RemoveTree(src);
      }
    }

    /** `ensure_store`: the mark, and the location record if there is no valid one. */
    method EnsureStore(dst: nat)
      modifies this`disk, this`trace
      ensures disk == Ensured(old(disk), dst)
      ensures trace == old(trace) + [Marked(old(disk), dst)]
                    || trace == old(trace) + [Marked(old(disk), dst), disk]
      ensures trace[|trace| - 1] == disk
    {
      Become(Marked(disk, dst));
      if disk.big == Some(dst) || (disk.big.Some? && disk.big.value in disk.stores) { return; }
      Become(disk.(big := Some(dst), from := None));
    }

    /** `relocate`: mark the destination, record it together with where the data comes from, move, remove
        what copies left behind, and only then forget where it came from. A directory with data is found
        complete at every moment exactly when it `Survives`. */
    method Relocate(dst: nat, names: seq<string>, lucks: seq<Luck>) returns (finished: bool)
      requires dst != ResolvedRoot(disk, install) && |lucks| == |names|
      requires forall i, j :: 0 <= i < j < |names| ==> names[i] != names[j]
      modifies this`disk, this`trace
      ensures old(trace) <= trace
      ensures forall n | n in names && HasData(Data(old(disk), install, n)) ::
        Survives(old(disk), install, dst, n) <==>
          forall k :: |old(trace)| <= k < |trace| ==> FoundWhole(old(disk), trace[k], install, n)
      ensures finished <==> NoneFails(old(disk), ResolvedRoot(old(disk), install), dst, names, lucks)
      ensures finished ==> disk.from.None? && disk.big == Some(dst) && SurvivorsFound(old(disk), disk, install, dst, names)
      ensures finished ==> forall n :: n in names ==> IsMoved(old(disk), disk, ResolvedRoot(old(disk), install), dst, n)
    {
      var src := ResolvedRoot(disk, install);
      ghost var before, first := disk, |trace|;
      EnsureStore(dst);
      Become(disk.(big := Some(dst), from := Some(src)));
      ghost var early := trace;
      EarlyTrace(before, install, dst, names, early[..first], early);
      BegunRecorded(before, install, dst, names);
      var leftovers: seq<string>;
      finished, leftovers := MoveStore(before, src, dst, names, lucks);
      assert forall k :: first <= k < |early| ==> trace[k] == early[k];
      if !finished { return; }
      RemoveLeftovers(before, src, dst, names, leftovers);
      ghost var done := disk;
      Become(disk.(from := None));
      ClearedFound(before, done, disk, install, dst, names);
      NothingLeft(before, done, disk, src, dst, names);
      assert forall k :: first <= k < |early| ==> trace[k] == early[k];
    }

    /** What was copied is removed at the source, once all of it has arrived. */
    method RemoveLeftovers(ghost before: Disk, src: nat, dst: nat, names: seq<string>, leftovers: seq<string>)
      requires src == ResolvedRoot(before, install) && src != dst && Done(before, disk, install, dst, names)
      requires AllMovedBut(before, disk, src, dst, names, leftovers)
      modifies this`disk, this`trace
      ensures old(trace) <= trace && forall k :: |old(trace)| <= k < |trace| ==> SurvivorsFound(before, trace[k], install, dst, names)
      ensures Done(before, disk, install, dst, names) && AllMovedBut(before, disk, src, dst, names, [])
    {
      var i := 0;
      while i < |leftovers|
        invariant 0 <= i <= |leftovers| && old(trace) <= trace
        invariant Done(before, disk, install, dst, names)
        invariant AllMovedBut(before, disk, src, dst, names, leftovers[i..])
        invariant forall k :: |old(trace)| <= k < |trace| ==> SurvivorsFound(before, trace[k], install, dst, names)
      {
        ghost var here, sofar := disk, trace;
        RemoveTree(Dir(src, leftovers[i]));
        LeftoverGone(before, here, disk, src, dst, names, leftovers[i..]);
        assert leftovers[i..][1..] == leftovers[i + 1..];
        forall k | |sofar| <= k < |trace| ensures SurvivorsFound(before, trace[k], install, dst, names) {
          assert SameBut(here, trace[k], Dir(src, leftovers[i]));
          DoneFound(before, trace[k], install, dst, names);
        }
        i := i + 1;
      }
      assert leftovers[i..] == [];
    }

    /** `move_store` over the names in turn; it stops at the first that fails. */
    method MoveStore(ghost before: Disk, src: nat, dst: nat, names: seq<string>, lucks: seq<Luck>)
      returns (finished: bool, leftovers: seq<string>)
      requires src != dst && |lucks| == |names| && ResolvedRoot(before, install) == src
      requires forall i, j :: 0 <= i < j < |names| ==> names[i] != names[j]
      requires Recorded(before, disk, install, dst, names) && SameData(before, disk, src, dst, names)
      modifies this`disk, this`trace
      ensures old(trace) <= trace && forall k :: |old(trace)| <= k < |trace| ==> SurvivorsFound(before, trace[k], install, dst, names)
      ensures finished ==> Done(before, disk, install, dst, names)
      ensures finished <==> NoneFails(before, src, dst, names, lucks)
      ensures finished ==> AllMovedBut(before, disk, src, dst, names, leftovers)
    {
      leftovers := [];
      var i := 0;
      while i < |names|
        invariant 0 <= i <= |names| && old(trace) <= trace
        invariant Recorded(before, disk, install, dst, names) && SameData(before, disk, src, dst, names[i..])
        invariant NoneFails(before, src, dst, names[..i], lucks[..i])
        invariant AllMovedBut(before, disk, src, dst, names[..i], leftovers)
        invariant forall j :: 0 <= j < i ==> Arrived(before, disk, install, dst, names[j])
        invariant forall k :: |old(trace)| <= k < |trace| ==> SurvivorsFound(before, trace[k], install, dst, names)
      {
        ghost var here, sofar := disk, trace;
        var name := names[i];
        assert names[i..][0] == name;
        var moved := MoveDirectory(Dir(src, name), Dir(dst, name), Incoming(dst, name), lucks[i]);
        forall k | |sofar| <= k < |trace| ensures SurvivorsFound(before, trace[k], install, dst, names) {
          MidwayRecorded(before, here, trace[k], install, dst, names, name);
          RecordedFound(before, trace[k], install, dst, names);
        }
        if !moved.Skipped? { MidwayRecorded(before, here, disk, install, dst, names, name); }
        if moved.Failed? { return false, leftovers; }
        ghost var earlier := leftovers;
        if moved == Placed(true) { leftovers := leftovers + [name]; }
        OthersStay(before, here, disk, install, dst, names, i);
        MovedOn(before, here, disk, src, dst, names, i, moved, earlier);
        i := i + 1;
      }
      assert names[..|names|] == names && lucks[..|names|] == lucks;
      finished := true;
    }
  }

  ghost predicate AllMovedBut(before: Disk, now: Disk, src: nat, dst: nat, names: seq<string>, leftovers: seq<string>)
  {
    && (forall n :: n in leftovers ==> n in names)
    && forall n :: n in names ==> IsMovedBut(before, now, src, dst, n, leftovers)
  }

  /** One more directory is dealt with. */
  lemma MovedOn(before: Disk, here: Disk, now: Disk, src: nat, dst: nat, names: seq<string>, i: nat, moved: Moved, leftovers: seq<string>)
    requires src != dst && i < |names| && forall a, b :: 0 <= a < b < |names| ==> names[a] != names[b]
    requires Midway(here, now, Dir(src, names[i]), Dir(dst, names[i]), Incoming(dst, names[i]))
    requires At(here, Dir(src, names[i])) == At(before, Dir(src, names[i])) && At(here, Dir(dst, names[i])) == At(before, Dir(dst, names[i]))
    requires AllMovedBut(before, here, src, dst, names[..i], leftovers)
    requires match moved
             case Skipped => !ToMove(before, src, dst, names[i]) && now == here
             case Placed(leftover) =>
               && ToMove(before, src, dst, names[i]) && IsCopy(At(now, Dir(dst, names[i])), At(here, Dir(src, names[i])))
               && (leftover || At(now, Dir(src, names[i])).Absent?)
             case Failed => false
    ensures AllMovedBut(before, now, src, dst, names[..i + 1], if moved == Placed(true) then leftovers + [names[i]] else leftovers)
  {
    var left := if moved == Placed(true) then leftovers + [names[i]] else leftovers;
    assert names[..i + 1] == names[..i] + [names[i]] && names[i] !in names[..i];
    forall n | n in names[..i + 1] ensures IsMovedBut(before, now, src, dst, n, left) {
      if n != names[i] { assert IsMovedBut(before, here, src, dst, n, leftovers); }
    }
  }

  lemma LeftoverGone(before: Disk, here: Disk, now: Disk, src: nat, dst: nat, names: seq<string>, leftovers: seq<string>)
    requires src != dst && leftovers != [] && AllMovedBut(before, here, src, dst, names, leftovers)
    requires now == Put(here, Dir(src, leftovers[0]), Absent)
    ensures AllMovedBut(before, now, src, dst, names, leftovers[1..])
  {
    assert leftovers == [leftovers[0]] + leftovers[1..];
    forall n | n in names ensures IsMovedBut(before, now, src, dst, n, leftovers[1..]) {
      assert IsMovedBut(before, here, src, dst, n, leftovers);
    }
  }

  /** When nothing is left to be removed, all is moved. */
  lemma NothingLeft(before: Disk, done: Disk, now: Disk, src: nat, dst: nat, names: seq<string>)
    requires AllMovedBut(before, done, src, dst, names, []) && now == done.(from := None)
    ensures forall n :: n in names ==> IsMoved(before, now, src, dst, n)
  {
    forall n | n in names ensures IsMoved(before, now, src, dst, n) { assert IsMovedBut(before, done, src, dst, n, []); }
  }

  ghost predicate NeverWithout(before: Disk, now: Disk, src: Place, dst: Place)
  {
    && (At(now, dst) == At(before, dst) || IsCopy(At(now, dst), At(before, src)))
    && (At(now, src) == At(before, src) || IsCopy(At(now, dst), At(before, src)))
  }

  function Marked(d: Disk, dst: nat): Disk
  {
    d.(stores := d.stores + {dst})
  }

  function Ensured(d: Disk, dst: nat): Disk
  {
    var m := Marked(d, dst);
    if m.big == Some(dst) || (m.big.Some? && m.big.value in m.stores) then m else m.(big := Some(dst), from := None)
  }

  /** The location record names a directory that carries the mark of a store. */
  predicate ValidRecord(d: Disk)
  {
    d.big.Some? && d.big.value in d.stores
  }

  /** A data directory as it is found before a move. */
  function Data(before: Disk, install: nat, n: string): Content
  {
    At(before, Found(before, install, n))
  }

  /** What is found is a complete copy of it. */
  predicate FoundWhole(before: Disk, now: Disk, install: nat, n: string)
  {
    IsCopy(At(now, Found(now, install, n)), Data(before, install, n))
  }

  /** Marking the destination leaves the record alone when it is valid; or it names the destination
      already, together with a root that holds the directory. */
  predicate RecordHolds(before: Disk, install: nat, dst: nat, n: string)
  {
    || ValidRecord(before)
    || (before.big == Some(dst) && before.from.Some? && IsCopy(At(before, Dir(before.from.value, n)), Data(before, install, n)))
  }

  /** The directory is at the destination already; or there is none of its name there, it is found at the
      root that the move takes from, and the record holds until the move is on it. */
  predicate Survives(before: Disk, install: nat, dst: nat, n: string)
  {
    if IsDir(At(before, Dir(dst, n))) then IsCopy(At(before, Dir(dst, n)), Data(before, install, n))
    else Found(before, install, n) == Dir(ResolvedRoot(before, install), n) && RecordHolds(before, install, dst, n)
  }

  predicate Survivor(before: Disk, install: nat, dst: nat, n: string)
  {
    HasData(Data(before, install, n)) && Survives(before, install, dst, n)
  }

  ghost predicate SurvivorsFound(before: Disk, now: Disk, install: nat, dst: nat, names: seq<string>)
  {
    forall n :: n in names && Survivor(before, install, dst, n) ==> FoundWhole(before, now, install, n)
  }

  /** The disk once the move is on record. */
  function Begun(d: Disk, install: nat, dst: nat): Disk
  {
    Ensured(d, dst).(big := Some(dst), from := Some(ResolvedRoot(d, install)))
  }

  predicate OnRecord(before: Disk, now: Disk, install: nat, dst: nat)
  {
    now.big == Some(dst) && now.from == Some(ResolvedRoot(before, install)) && dst in now.stores
  }

  /** The move is on record; each survivor is at the destination, or still where the move takes it from. */
  ghost predicate Recorded(before: Disk, now: Disk, install: nat, dst: nat, names: seq<string>)
  {
    OnRecord(before, now, install, dst) && forall n :: n in names && Survivor(before, install, dst, n) ==> Underway(before, now, install, dst, n)
  }

  ghost predicate Underway(before: Disk, now: Disk, install: nat, dst: nat, n: string)
  {
    || IsCopy(At(now, Dir(dst, n)), Data(before, install, n))
    || (At(now, Dir(dst, n)).Absent? && At(now, Dir(ResolvedRoot(before, install), n)) == Data(before, install, n))
  }

  ghost predicate Arrived(before: Disk, now: Disk, install: nat, dst: nat, n: string)
  {
    Survivor(before, install, dst, n) ==> IsCopy(At(now, Dir(dst, n)), Data(before, install, n))
  }

  ghost predicate Done(before: Disk, now: Disk, install: nat, dst: nat, names: seq<string>)
  {
    OnRecord(before, now, install, dst) && forall n :: n in names ==> Arrived(before, now, install, dst, n)
  }

  ghost predicate SameData(before: Disk, now: Disk, src: nat, dst: nat, names: seq<string>)
  {
    forall n :: n in names ==> At(now, Dir(src, n)) == At(before, Dir(src, n)) && At(now, Dir(dst, n)) == At(before, Dir(dst, n))
  }

  /** There is something to move, and room for it. */
  predicate ToMove(before: Disk, src: nat, dst: nat, n: string)
  {
    HasData(At(before, Dir(src, n))) && !HasData(At(before, Dir(dst, n)))
  }

  /** Only a copy to another volume can fail. */
  predicate Fails(before: Disk, src: nat, dst: nat, n: string, luck: Luck)
  {
    ToMove(before, src, dst, n) && !luck.sameVolume && CopyGoesWrong(luck, At(before, Dir(src, n)))
  }

  predicate NoneFails(before: Disk, src: nat, dst: nat, names: seq<string>, lucks: seq<Luck>)
    requires |lucks| == |names|
  {
    forall i :: 0 <= i < |names| ==> !Fails(before, src, dst, names[i], lucks[i])
  }

  /** What was to be moved is a copy at the destination and gone at the source; all else is as it was. */
  predicate IsMoved(before: Disk, now: Disk, src: nat, dst: nat, n: string)
  {
    if ToMove(before, src, dst, n) then IsCopy(At(now, Dir(dst, n)), At(before, Dir(src, n))) && At(now, Dir(src, n)).Absent?
    else At(now, Dir(src, n)) == At(before, Dir(src, n)) && At(now, Dir(dst, n)) == At(before, Dir(dst, n))
  }

  /** The same, but for sources that are still to be removed. */
  predicate IsMovedBut(before: Disk, now: Disk, src: nat, dst: nat, n: string, leftovers: seq<string>)
  {
    if ToMove(before, src, dst, n) then
      IsCopy(At(now, Dir(dst, n)), At(before, Dir(src, n))) && (n in leftovers || At(now, Dir(src, n)).Absent?)
    else
      n !in leftovers && At(now, Dir(src, n)) == At(before, Dir(src, n)) && At(now, Dir(dst, n)) == At(before, Dir(dst, n))
  }

  lemma RecordedFound(before: Disk, now: Disk, install: nat, dst: nat, names: seq<string>)
    requires Recorded(before, now, install, dst, names) && dst != ResolvedRoot(before, install)
    ensures SurvivorsFound(before, now, install, dst, names)
  {
    forall n | n in names && Survivor(before, install, dst, n) ensures FoundWhole(before, now, install, n) {
      assert Underway(before, now, install, dst, n);
    }
  }

  lemma BegunRecorded(before: Disk, install: nat, dst: nat, names: seq<string>)
    requires dst != ResolvedRoot(before, install)
    ensures Recorded(before, Begun(before, install, dst), install, dst, names)
    ensures SameData(before, Begun(before, install, dst), ResolvedRoot(before, install), dst, names)
  {
  }

  lemma DoneFound(before: Disk, now: Disk, install: nat, dst: nat, names: seq<string>)
    requires Done(before, now, install, dst, names) && dst != ResolvedRoot(before, install)
    ensures SurvivorsFound(before, now, install, dst, names)
  {
    forall n | n in names && Survivor(before, install, dst, n) ensures FoundWhole(before, now, install, n) {
      assert Arrived(before, now, install, dst, n);
    }
  }

  /** With the move forgotten, everything that survived is at the destination. */
  lemma ClearedFound(before: Disk, done: Disk, now: Disk, install: nat, dst: nat, names: seq<string>)
    requires Done(before, done, install, dst, names) && now == done.(from := None)
    ensures SurvivorsFound(before, now, install, dst, names)
    ensures forall n :: n in names && Survivor(before, install, dst, n) ==> Found(now, install, n) == Dir(dst, n)
  {
    forall n | n in names && Survivor(before, install, dst, n) ensures FoundWhole(before, now, install, n) {
      assert Arrived(before, done, install, dst, n);
    }
  }

  lemma MidwayRecorded(before: Disk, here: Disk, now: Disk, install: nat, dst: nat, names: seq<string>, name: string)
    requires Recorded(before, here, install, dst, names) && dst != ResolvedRoot(before, install)
    requires At(here, Dir(ResolvedRoot(before, install), name)) == At(before, Dir(ResolvedRoot(before, install), name))
    requires HasData(At(here, Dir(ResolvedRoot(before, install), name)))
    requires Midway(here, now, Dir(ResolvedRoot(before, install), name), Dir(dst, name), Incoming(dst, name))
    ensures Recorded(before, now, install, dst, names)
  {
    var src := ResolvedRoot(before, install);
    assert Found(before, install, name) == Dir(src, name);
    forall n | n in names && Survivor(before, install, dst, n) ensures Underway(before, now, install, dst, n) {
      assert Underway(before, here, install, dst, n);
    }
  }

  lemma OthersStay(before: Disk, here: Disk, now: Disk, install: nat, dst: nat, names: seq<string>, i: nat)
    requires i < |names| && forall a, b :: 0 <= a < b < |names| ==> names[a] != names[b]
    requires dst != ResolvedRoot(before, install)
    requires Midway(here, now, Dir(ResolvedRoot(before, install), names[i]), Dir(dst, names[i]), Incoming(dst, names[i]))
    requires SameData(before, here, ResolvedRoot(before, install), dst, names[i..])
    requires forall j :: 0 <= j < i ==> Arrived(before, here, install, dst, names[j])
    ensures SameData(before, now, ResolvedRoot(before, install), dst, names[i + 1..])
    ensures forall j :: 0 <= j < i ==> Arrived(before, now, install, dst, names[j])
  {
    var src := ResolvedRoot(before, install);
    forall n | n in names[i + 1..]
      ensures At(now, Dir(src, n)) == At(before, Dir(src, n)) && At(now, Dir(dst, n)) == At(before, Dir(dst, n))
    {
      var j :| i < j < |names| && names[j] == n;
      assert names[i..][j - i] == n;
    }
  }

  /** Up to the record of the move: what survives is found, and what does not is lost at one of the steps. */
  lemma EarlyTrace(before: Disk, install: nat, dst: nat, names: seq<string>, t: seq<Disk>, t': seq<Disk>)
    requires dst != ResolvedRoot(before, install)
    requires t' == t + [Marked(before, dst), Begun(before, install, dst)]
          || t' == t + [Marked(before, dst), Ensured(before, dst), Begun(before, install, dst)]
    requires t' == t + [Marked(before, dst), Begun(before, install, dst)] ==> Ensured(before, dst) == Marked(before, dst)
    ensures forall k :: |t| <= k < |t'| ==> SurvivorsFound(before, t'[k], install, dst, names)
    ensures forall n :: n in names && HasData(Data(before, install, n)) && !Survives(before, install, dst, n) ==>
              exists k :: |t| <= k < |t'| && !FoundWhole(before, t'[k], install, n)
  {
    MarkedFound(before, install, dst, names);
    BegunRecorded(before, install, dst, names);
    RecordedFound(before, Begun(before, install, dst), install, dst, names);
    forall n | n in names && HasData(Data(before, install, n)) && !Survives(before, install, dst, n)
      ensures exists k :: |t| <= k < |t'| && !FoundWhole(before, t'[k], install, n)
    {
      Lost(before, install, dst, n);
      assert t'[|t|] == Marked(before, dst) && t'[|t'| - 1] == Begun(before, install, dst);
      assert t'[|t'| - 2] == Ensured(before, dst);
      var k := if !FoundWhole(before, Begun(before, install, dst), install, n) then |t'| - 1 else |t'| - 2;
      assert !FoundWhole(before, t'[k], install, n);
    }
  }

  lemma MarkedFound(before: Disk, install: nat, dst: nat, names: seq<string>)
    requires dst != ResolvedRoot(before, install)
    ensures SurvivorsFound(before, Marked(before, dst), install, dst, names)
    ensures SurvivorsFound(before, Ensured(before, dst), install, dst, names)
  {
  }

  /** What does not survive is lost once the move is on record, or as soon as the destination is. */
  lemma Lost(before: Disk, install: nat, dst: nat, n: string)
    requires dst != ResolvedRoot(before, install) && HasData(Data(before, install, n)) && !Survives(before, install, dst, n)
    ensures !FoundWhole(before, Begun(before, install, dst), install, n) || !FoundWhole(before, Ensured(before, dst), install, n)
  {
  }

  /** After an interrupted move, a directory that is still at the source survives the next move to a root
      without one of its name exactly when that move goes back to the source. */
  lemma AfterInterruptedMove(before: Disk, now: Disk, install: nat, dst: nat, next: nat, n: string)
    requires OnRecord(before, now, install, dst) && dst != ResolvedRoot(before, install) && next != dst
    requires At(now, Dir(dst, n)).Absent? && HasData(At(now, Dir(ResolvedRoot(before, install), n)))
    requires next == ResolvedRoot(before, install) || At(now, Dir(next, n)).Absent?
    ensures HasData(Data(now, install, n))
    ensures Survives(now, install, next, n) <==> next == ResolvedRoot(before, install)
  {
    var src := ResolvedRoot(before, install);
    assert Found(now, install, n) == Dir(src, n);
    if next == src { assert IsCopy(At(now, Dir(src, n)), Data(now, install, n)); }
  }

  /** An interrupted move must not be followed by one to yet another root. The disk on which the first
      move was just put on record finds the directory at the old root; to put a second move on record
      forgets that root, and the directory is found nowhere. */
  lemma MoveAfterInterruptedMove(data: Content)
    requires HasData(data)
    ensures var first := Disk(map[Dir(0, "tasks") := data], Some(0), None, {0});
            var interrupted := Begun(first, 0, 1);
            var again := Begun(interrupted, 0, 2);
            && Survives(first, 0, 1, "tasks") && Found(interrupted, 0, "tasks") == Dir(0, "tasks")
            && ValidRecord(interrupted) && !Survives(interrupted, 0, 2, "tasks")
            && At(again, Found(again, 0, "tasks")).Absent? && again.from == Some(1)
  {
  }
}
