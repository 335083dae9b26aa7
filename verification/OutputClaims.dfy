/** The book of write roots and labels that the items of a run have been promised. */
module OutputClaims {
  import opened Wrappers
  import opened Decimal

  /** What the file system and the path library say of a source: the form sources are compared in,
      where its subtitles and its artifacts go, its name and the name of its directory. */
  datatype Places = Places(
    sourceKey: string -> string,
    subtitle: (string, Option<string>) -> string,
    artifacts: (string, Option<string>) -> string,
    rootKey: string -> string,
    name: string -> string,
    parent: string -> string)

  datatype Row = Row(source: string, isUrl: bool, output: Option<string>, artifactDir: Option<string>)

  /** How the building of a row goes on once its roots are claimed. */
  datatype Fate = Builds | FailsEarly | FailsLate

  /** An item that was built, and the roots it holds. */
  datatype Item = Item(source: string, title: string, roots: set<string>)

  predicate HeldBy(holders: map<string, string>, root: string, holder: string)
  {
    root in holders && holders[root] == holder
  }

  /** The book after `holder` has asked for `root`. */
  function Taken(holders: map<string, string>, root: string, holder: string): map<string, string>
  {
    if root in holders then holders else holders[root := holder]
  }

  /** The roots a row can be known to write before it runs: those of a URL without an output are not
      known until it is downloaded. */
  function RootsOf(p: Places, row: Row): seq<string>
  {
    if row.isUrl && row.output.None? then
      match row.artifactDir case Some(d) => [ArtifactRoot(p, d)] case None => []
    else
      var dir := match row.artifactDir case Some(d) => d case None => p.artifacts(row.source, row.output);
      [p.rootKey(p.subtitle(row.source, row.output)), ArtifactRoot(p, dir)]
  }

  /** The subtitle and the artifact directory a row writes are among the roots, as far as they are known. */
  predicate HoldsItsPaths(p: Places, row: Row, roots: set<string>)
  {
    && (row.artifactDir.Some? ==> p.rootKey(row.artifactDir.value) + "/artifacts" in roots)
    && (!row.isUrl || row.output.Some? ==>
          && p.rootKey(p.subtitle(row.source, row.output)) in roots
          && (row.artifactDir.None? ==> p.rootKey(p.artifacts(row.source, row.output)) + "/artifacts" in roots))
  }

  lemma RootsHoldPaths(p: Places, row: Row)
    ensures HoldsItsPaths(p, row, set r | r in RootsOf(p, row))
  {
    var roots := RootsOf(p, row);
    assert forall i :: 0 <= i < |roots| ==> roots[i] in roots;
  }

  function ArtifactRoot(p: Places, dir: string): string
  {
    p.rootKey(dir) + "/artifacts"
  }

  /** All of `roots` are free or held by `holder` itself. */
  predicate Available(holders: map<string, string>, roots: seq<string>, holder: string)
  {
    forall i :: 0 <= i < |roots| ==> roots[i] in holders ==> holders[roots[i]] == holder
  }

  function AllTaken(holders: map<string, string>, roots: seq<string>, holder: string): map<string, string>
    decreases |roots|
  {
    if roots == [] then holders else AllTaken(Taken(holders, roots[0], holder), roots[1..], holder)
  }

  /** Taking roots adds them for their holder and changes no one else's. */
  lemma {:induction false} TakenRoots(holders: map<string, string>, roots: seq<string>, holder: string)
    requires Available(holders, roots, holder)
    ensures var after := AllTaken(holders, roots, holder);
      && (forall r :: r in holders ==> HeldBy(after, r, holders[r]))
      && (forall i :: 0 <= i < |roots| ==> HeldBy(after, roots[i], holder))
      && (forall r :: r in after && r !in holders ==> r in roots && after[r] == holder)
    decreases |roots|
  {
    if roots != [] {
      var next := Taken(holders, roots[0], holder);
      assert forall i :: 0 <= i < |roots| - 1 ==> roots[1..][i] == roots[i + 1];
      TakenRoots(next, roots[1..], holder);
      var after := AllTaken(next, roots[1..], holder);
      forall r | r in holders ensures HeldBy(after, r, holders[r]) { assert HeldBy(after, r, next[r]); }
      forall i | 0 <= i < |roots| ensures HeldBy(after, roots[i], holder) {
        if i == 0 { assert HeldBy(after, roots[0], next[roots[0]]); } else { assert HeldBy(after, roots[1..][i - 1], holder); }
      }
      forall r | r in after && r !in holders ensures r in roots && after[r] == holder {
        if r in next { assert HeldBy(after, r, next[r]); }
      }
    }
  }

  // ----- labels -----

  function Candidate(p: Places, source: string): string
  {
    if p.parent(source) != "" then p.parent(source) + "/" + BaseName(p, source) else BaseName(p, source)
  }

  function BaseName(p: Places, source: string): string
  {
    if p.name(source) != "" then p.name(source) else source
  }

  function Numbered(candidate: string, n: nat): string
  {
    candidate + " (" + Numeral(n) + ")"
  }

  lemma NumberedDiffer(candidate: string, m: nat, n: nat)
    requires m != n
    ensures Numbered(candidate, m) != Numbered(candidate, n) && Numbered(candidate, m) != candidate
  {
    if Numbered(candidate, m) == Numbered(candidate, n) {
      var a, b := candidate + " (", ")";
      assert Numbered(candidate, m)[|a|..|Numbered(candidate, m)| - 1] == Numeral(m);
      assert Numbered(candidate, n)[|a|..|Numbered(candidate, n)| - 1] == Numeral(n);
      NumeralInjective(m, n);
    }
  }

  /** `title` is `candidate`, or `candidate` with the smallest number from 2 on, that is not taken. */
  ghost predicate IsFirstFree(taken: set<string>, candidate: string, title: string)
  {
    title !in taken && (title == candidate || (candidate in taken && exists n: nat :: IsFirstNumber(taken, candidate, title, n)))
  }

  ghost predicate IsFirstNumber(taken: set<string>, candidate: string, title: string, n: nat)
  {
    n >= 2 && title == Numbered(candidate, n) && forall m: nat :: 2 <= m < n ==> Numbered(candidate, m) in taken
  }

  /** The candidates with a number below `n`. */
  function Tried(candidate: string, n: nat): set<string>
  {
    if n <= 2 then {} else Tried(candidate, n - 1) + {Numbered(candidate, n - 1)}
  }

  lemma {:induction false} TriedAreMany(candidate: string, n: nat)
    requires n >= 2
    ensures |Tried(candidate, n)| == n - 2 && forall m: nat :: m >= n ==> Numbered(candidate, m) !in Tried(candidate, n)
  {
    if n > 2 {
      TriedAreMany(candidate, n - 1);
      forall m: nat | m >= n ensures Numbered(candidate, m) !in Tried(candidate, n) { NumberedDiffer(candidate, m, n - 1); }
    }
  }

  /** Numbers are tried until one is free; there are more of them than labels. */
  method FirstFree(taken: set<string>, candidate: string) returns (title: string)
    ensures IsFirstFree(taken, candidate, title)
  {
    if candidate !in taken { return candidate; }
    var suffix := 2;
    title := Numbered(candidate, suffix);
    while title in taken
      invariant 2 <= suffix <= |taken| + 2 && title == Numbered(candidate, suffix) && Tried(candidate, suffix) <= taken
      invariant forall m: nat :: 2 <= m < suffix ==> Numbered(candidate, m) in taken
      decreases |taken| + 2 - suffix
    {
      TriedAreMany(candidate, suffix + 1);
      SubsetSize(Tried(candidate, suffix + 1), taken);
      suffix := suffix + 1;
      title := Numbered(candidate, suffix);
    }
    assert IsFirstNumber(taken, candidate, title, suffix);
  }

  // ----- the book -----

  class Book {
    const places: Places
    var holders: map<string, string>
    var sources: set<string>
    var labels: set<string>
    ghost var items: seq<Item>

    constructor (places: Places)
      ensures this.places == places && Valid() && items == [] && holders == map[] && sources == {} && labels == {}
    {
      this.places := places;
      holders, sources, labels, items := map[], {}, {}, [];
    }

    /** Every item is booked, and no two items come from one source or share a label. */
    ghost predicate Valid()
      reads this
    {
      && (forall i :: 0 <= i < |items| ==> Booked(items[i]))
      && (forall i, j :: 0 <= i < j < |items| ==> places.sourceKey(items[i].source) != places.sourceKey(items[j].source))
      && (forall i, j :: 0 <= i < j < |items| ==> items[i].title != items[j].title)
    }

    ghost predicate Booked(item: Item)
      reads this
    {
      && places.sourceKey(item.source) in sources && item.title in labels
      && forall r :: r in item.roots ==> HeldBy(holders, r, item.source)
    }

    /** `claim_source`: a source runs once. */
    method ClaimSource(source: string) returns (ok: bool)
      modifies this`sources
      ensures ok <==> places.sourceKey(source) !in old(sources)
      ensures sources == old(sources) + {places.sourceKey(source)}
    {
      var key := places.sourceKey(source);
      ok := key !in sources;
      sources := sources + {key};
    }

    /** `claim_paths`: the roots are taken in turn, up to the first that another holds. */
    method ClaimPaths(holder: string, roots: seq<string>) returns (ok: bool)
      modifies this`holders
      ensures ok <==> Available(old(holders), roots, holder)
      ensures ok ==> holders == AllTaken(old(holders), roots, holder)
      ensures forall r :: r in old(holders) ==> HeldBy(holders, r, old(holders)[r])
      ensures forall r :: r in holders && r !in old(holders) ==> r in roots && holders[r] == holder
    {
      var i := 0;
      while i < |roots|
        invariant 0 <= i <= |roots| && Available(old(holders), roots[..i], holder)
        invariant AllTaken(old(holders), roots, holder) == AllTaken(holders, roots[i..], holder)
        invariant forall r :: r in old(holders) ==> HeldBy(holders, r, old(holders)[r])
        invariant forall r :: r in holders && r !in old(holders) ==> r in roots && holders[r] == holder
      {
        assert roots[i..][0] == roots[i] && roots[i..][1..] == roots[i + 1..];
        if roots[i] in holders && holders[roots[i]] != holder {
          assert roots[i] in old(holders);
          return false;
        }
        holders := Taken(holders, roots[i], holder);
        i := i + 1;
        assert roots[..i] == roots[..i - 1] + [roots[i - 1]];
      }
      assert roots[..i] == roots;
      ok := true;
    }

    /** A label no other item answers to: the name, the name with its directory, or that with the
        first number that makes it new. */
    method UniqueLabel(source: string) returns (title: string)
      modifies this`labels
      ensures title !in old(labels) && labels == old(labels) + {title}
      ensures BaseName(places, source) !in old(labels) ==> title == BaseName(places, source)
      ensures BaseName(places, source) in old(labels) ==> IsFirstFree(old(labels), Candidate(places, source), title)
      ensures places.name(source) != "" && places.name(source) !in old(labels) ==> title == places.name(source)
      ensures places.name(source) in old(labels) && places.name(source) != "" && places.parent(source) != "" ==>
                IsFirstFree(old(labels), places.parent(source) + "/" + places.name(source), title)
    {
      title := BaseName(places, source);
      if title in labels { title := FirstFree(labels, Candidate(places, source)); }
      labels := labels + {title};
    }

    /** `claiming`: a row's source and roots are claimed, and kept only if it builds. A label that was
        given is not taken back. */
    method Claim(row: Row, fate: Fate) returns (built: bool, title: string)
      modifies this`sources, this`holders, this`labels
      ensures built <==>
                && places.sourceKey(row.source) !in old(sources)
                && Available(old(holders), RootsOf(places, row), row.source) && fate.Builds?
      ensures !built ==> holders == old(holders) && sources == old(sources)
      ensures !built ==> old(labels) <= labels && (fate.FailsEarly? ==> labels == old(labels))
      ensures built ==> sources == old(sources) + {places.sourceKey(row.source)}
      ensures built ==> holders == AllTaken(old(holders), RootsOf(places, row), row.source)
      ensures built ==> labels == old(labels) + {title} && title !in old(labels)
    {
      var beforeHolders, beforeSource := holders.Keys, places.sourceKey(row.source) in sources;
      built := ClaimSource(row.source);
      if built { built := ClaimPaths(row.source, RootsOf(places, row)); }
      title := "";
      if built && !fate.FailsEarly? { title := UniqueLabel(row.source); }
      if !built || !fate.Builds? {
        if !beforeSource { sources := sources - {places.sourceKey(row.source)}; }
        holders := map r | r in holders && !(r !in beforeHolders && holders[r] == row.source) :: holders[r];
        assert holders == old(holders);
        built := false;
      }
    }

    /** `build_item`: a row is claimed and built, or leaves no trace among sources and roots. */
    method Build(row: Row, fate: Fate) returns (item: Option<Item>)
      requires Valid()
      modifies this
      ensures Valid()
      ensures item.Some? <==>
                && places.sourceKey(row.source) !in old(sources)
                && Available(old(holders), RootsOf(places, row), row.source) && fate.Builds?
      ensures item.None? ==> holders == old(holders) && sources == old(sources) && items == old(items)
      ensures item.Some? ==> sources == old(sources) + {places.sourceKey(row.source)}
      ensures item.Some? ==> holders == AllTaken(old(holders), RootsOf(places, row), row.source)
      ensures item.Some? ==> item.value.title !in old(labels) && items == old(items) + [item.value]
      ensures item.Some? ==> item.value.source == row.source && item.value.roots == (set r | r in RootsOf(places, row))
      ensures item.Some? ==> HoldsItsPaths(places, row, item.value.roots)
    {
      var built, title := Claim(row, fate);
      if !built { return None; }
      TakenRoots(old(holders), RootsOf(places, row), row.source);
      RootsHoldPaths(places, row);
      var made := Item(row.source, title, set r | r in RootsOf(places, row));
      items := items + [made];
      item := Some(made);
    }

    /** The claim a URL's download makes once the destination is known; it can fail and leave its first
        root booked, for the item itself. */
    method ClaimDownload(ghost i: nat, source: string, roots: seq<string>) returns (ok: bool)
      requires Valid() && i < |items| && items[i].source == source
      modifies this`holders, this`items
      ensures Valid() && |items| == |old(items)|
      ensures ok <==> Available(old(holders), roots, source)
      ensures forall j :: 0 <= j < |items| && j != i ==> items[j] == old(items)[j]
      ensures items[i].source == source && items[i].title == old(items)[i].title && old(items)[i].roots <= items[i].roots
      ensures ok ==> forall r :: r in roots ==> r in items[i].roots
    {
      ok := ClaimPaths(source, roots);
      if ok { TakenRoots(old(holders), roots, source); }
      ghost var held := set r | r in holders && holders[r] == source;
      items := items[i := items[i].(roots := items[i].roots + held)];
    }
  }

  /** No two items ever hold one root: neither a subtitle path nor an artifact directory is written by
      two of them, whichever door they came in by. */
  lemma NoSharedRoot(book: Book, i: nat, j: nat, r: string)
    requires book.Valid() && i < j < |book.items|
    ensures !(r in book.items[i].roots && r in book.items[j].roots)
    ensures book.items[i].title != book.items[j].title && book.items[i].source != book.items[j].source
  {
    assert book.Booked(book.items[i]) && book.Booked(book.items[j]);
  }
}
