/** Consecutive copies of a motif inside a longer word. */
module TandemRepeats {
  import opened WordPowers

  /** From `start`, `k` copies of the `l` letters that stand there follow each other. */
  predicate IsTandem<T(==)>(w: seq<T>, start: nat, l: nat, k: nat)
  {
    k >= 1 && start + k * l <= |w| && start + l <= |w| && w[start..start + k * l] == Power(w[start..start + l], k)
  }

  /** How many copies of `motif` follow each other from `cursor`. */
  function CopiesAt<T(==)>(w: seq<T>, cursor: nat, motif: seq<T>): (k: nat)
    requires motif != [] && cursor <= |w|
    ensures cursor + k * |motif| <= |w|
    decreases |w| - cursor
  {
    if cursor + |motif| <= |w| && w[cursor..cursor + |motif|] == motif then
      var k := CopiesAt(w, cursor + |motif|, motif);
      assert (k + 1) * |motif| == k * |motif| + |motif|;
      1 + k
    else 0
  }

  /** A power begins with its motif and goes on with the next smaller power. */
  lemma PowerCut<T>(here: seq<T>, motif: seq<T>, k: nat)
    requires k >= 1 && |motif| <= |here|
    ensures here == Power(motif, k) <==> here[..|motif|] == motif && here[|motif|..] == Power(motif, k - 1)
  {
    var l := |motif|;
    assert here == here[..l] + here[l..];
    assert Power(motif, k)[..l] == motif && Power(motif, k)[l..] == Power(motif, k - 1);
  }

  lemma CutInTwo<T>(w: seq<T>, a: nat, l: nat, m: nat)
    requires a + l + m <= |w|
    ensures w[a..a + l + m][..l] == w[a..a + l] && w[a..a + l + m][l..] == w[a + l..a + l + m]
  {
  }

  lemma {:induction false} CopiesArePower<T>(w: seq<T>, cursor: nat, motif: seq<T>, k: nat)
    requires motif != [] && cursor <= |w|
    ensures (cursor + k * |motif| <= |w| && w[cursor..cursor + k * |motif|] == Power(motif, k)) <==> k <= CopiesAt(w, cursor, motif)
    decreases k
  {
    var l := |motif|;
    if k == 0 {
      assert k * l == 0;
      assert w[cursor..cursor] == [];
    } else {
      var m := (k - 1) * l;
      assert k * l == l + m && m >= 0;
      if cursor + l <= |w| {
        CopiesArePower(w, cursor + l, motif, k - 1);
        if cursor + l + m <= |w| {
          CutInTwo(w, cursor, l, m);
          PowerCut(w[cursor..cursor + l + m], motif, k);
        }
      }
    }
  }

  /** The number of consecutive copies of the first `l` letters from `start`. */
  function Copies<T(==)>(w: seq<T>, start: nat, l: nat): (k: nat)
    requires l >= 1 && start + l <= |w|
    ensures k >= 1 && start + k * l <= |w|
  {
    CopiesAt(w, start, w[start..start + l])
  }

  /** It is the largest number there are. */
  lemma CopiesIsLargest<T>(w: seq<T>, start: nat, l: nat, k: nat)
    requires l >= 1 && start + l <= |w| && k >= 1
    ensures IsTandem(w, start, l, k) <==> k <= Copies(w, start, l)
  {
    CopiesArePower(w, start, w[start..start + l], k);
  }

  /** The source's way of counting: one copy is there, the next ones are compared in turn. */
  method CountCopies<T(==)>(w: seq<T>, start: nat, l: nat) returns (repeats: nat, cursor: nat)
    requires l >= 1 && start + l <= |w|
    ensures repeats == Copies(w, start, l) && cursor == start + repeats * l
  {
    var motif := w[start..start + l];
    repeats, cursor := 1, start + l;
    while cursor + l <= |w| && w[cursor..cursor + l] == motif
      invariant repeats >= 1 && cursor == start + repeats * l && cursor <= |w|
      invariant Copies(w, start, l) == repeats + CopiesAt(w, cursor, motif)
      decreases |w| - cursor
    {
      assert (repeats + 1) * l == repeats * l + l;
      repeats, cursor := repeats + 1, cursor + l;
    }
  }
}
