/** The fates that remote writes meet, one write after the other, until one is not acknowledged. */
module CallFates {
  import opened Wrappers

  /** Fate of the `i`th write; the listed fates are followed by successes. */
  function FateAt(f: seq<Outcome>, i: nat): Outcome {
    if i < |f| then f[i] else Applied
  }

  /** The writes from `a` to before `b` are acknowledged. */
  predicate Smooth(f: seq<Outcome>, a: int, b: int) {
    forall i: nat :: a <= i < b ==> FateAt(f, i).Applied?
  }

  /** The first of the writes from `a` to before `b` that is not acknowledged lands all the same. */
  predicate LosesWrite(f: seq<Outcome>, a: int, b: int) {
    exists i: nat :: a <= i < b && FateAt(f, i).Lost? && Smooth(f, a, i)
  }

  /** The writes from `a` to before `b` were made, all but the last acknowledged; `ok` and `lost` tell how that went. */
  predicate Went(f: seq<Outcome>, a: nat, b: int, ok: bool, lost: bool) {
    a <= b && if a == b then ok && !lost
      else Smooth(f, a, b - 1) && ok == FateAt(f, b - 1).Applied? && lost == FateAt(f, b - 1).Lost?
  }

  /** Two batches of writes are one, if the first one went well. */
  lemma WentOn(f: seq<Outcome>, a: nat, b: int, c: int, ok: bool, lost: bool)
    requires Went(f, a, b, true, false) && b >= 0 && Went(f, b, c, ok, lost)
    ensures Went(f, a, c, ok, lost)
  {
  }

  /**
   With work for `w` writes, all of which were made if none failed, the fates alone decide whether
   everything went well and whether a write landed that was reported as failed.
   */
  lemma WentDecides(f: seq<Outcome>, a: nat, b: int, w: nat, ok: bool, lost: bool)
    requires Went(f, a, b, ok, lost) && b <= a + w && (ok ==> b == a + w)
    ensures ok <==> Smooth(f, a, a + w)
    ensures lost <==> LosesWrite(f, a, a + w)
  {
    if !ok {
      assert !FateAt(f, b - 1).Applied? && a <= b - 1 < a + w;
    }
  }
}
