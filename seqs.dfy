/** Order-preserving selection from a sequence, the shape of the exporter's `for obj in ...: if ...` scans. */
module Seqs {

  /** The elements of `s` that satisfy `keep`, in their original order. */
  function Filter<T>(s: seq<T>, keep: T -> bool): (r: seq<T>)
    ensures |r| <= |s|
  {
    if s == [] then []
    else Filter(s[..|s| - 1], keep) + (if keep(s[|s| - 1]) then [s[|s| - 1]] else [])
  }

  /** Scanning one more element appends it exactly when it is kept. */
  lemma FilterSnoc<T>(s: seq<T>, t: nat, keep: T -> bool)
    requires t < |s|
    ensures Filter(s[..t + 1], keep) == Filter(s[..t], keep) + (if keep(s[t]) then [s[t]] else [])
  {
    assert s[..t + 1][..t] == s[..t];
  }

  /** Every kept element of `s` is in the selection. */
  lemma {:induction false} FilterKeeps<T>(s: seq<T>, k: nat, keep: T -> bool)
    requires k < |s| && keep(s[k])
    ensures s[k] in Filter(s, keep)
  {
    if k < |s| - 1 {
      FilterKeeps(s[..|s| - 1], k, keep);
    }
  }

  /** Only elements of `s` that satisfy `keep` are selected. */
  lemma {:induction false} FilterSound<T>(s: seq<T>, keep: T -> bool)
    ensures forall x :: x in Filter(s, keep) ==> x in s && keep(x)
  {
    if s != [] {
      FilterSound(s[..|s| - 1], keep);
    }
  }
}
