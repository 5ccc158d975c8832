/** Order-preserving selection from a sequence, shared by the buffer drain and the report join. */
module Seqs {

  /** The elements of `s` that satisfy `keep`, each transformed by `f`, in their original order. */
  function FilterMap<A, B>(s: seq<A>, keep: A -> bool, f: A -> B): (r: seq<B>)
    ensures |r| <= |s|
    decreases |s|
  {
    if |s| == 0 then []
    else FilterMap(s[..|s| - 1], keep, f) + (if keep(s[|s| - 1]) then [f(s[|s| - 1])] else [])
  }

  /** The positions of `s` whose element satisfies `keep`: each such position exactly once, ascending. */
  function KeptIndices<A>(s: seq<A>, keep: A -> bool): (idx: seq<nat>)
    ensures forall k :: 0 <= k < |idx| ==> idx[k] < |s| && keep(s[idx[k]])
    ensures forall k, l :: 0 <= k < l < |idx| ==> idx[k] < idx[l]
    ensures forall j :: 0 <= j < |s| && keep(s[j]) ==> j in idx
    decreases |s|
  {
    if |s| == 0 then []
    else
      var p := s[..|s| - 1];
      var last := if keep(s[|s| - 1]) then [|s| - 1] else [];
      assert forall j :: 0 <= j < |p| ==> p[j] == s[j];
      KeptIndices(p, keep) + last
  }

  /** Selecting from a concatenation is concatenating the selections. */
  lemma {:induction false} FilterMapAppend<A, B>(s: seq<A>, t: seq<A>, keep: A -> bool, f: A -> B)
    ensures FilterMap(s + t, keep, f) == FilterMap(s, keep, f) + FilterMap(t, keep, f)
    decreases |t|
  {
    if |t| == 0 {
      assert s + t == s;
    } else {
      var t' := t[..|t| - 1];
      assert (s + t)[..|s + t| - 1] == s + t';
      assert (s + t)[|s + t| - 1] == t[|t| - 1];
      FilterMapAppend(s, t', keep, f);
    }
  }

  /** Selecting from `[a] + s`: `a` contributes `f(a)` in front exactly when it is kept. */
  lemma FilterMapCons<A, B>(a: A, s: seq<A>, keep: A -> bool, f: A -> B)
    ensures FilterMap([a] + s, keep, f) == (if keep(a) then [f(a)] else []) + FilterMap(s, keep, f)
  {
    FilterMapAppend([a], s, keep, f);
    assert [a][..0] == [];
  }

  /** The k-th selected value is `f` of the element at the k-th kept position. */
  lemma {:induction false} FilterMapAtKept<A, B>(s: seq<A>, keep: A -> bool, f: A -> B)
    ensures |FilterMap(s, keep, f)| == |KeptIndices(s, keep)|
    ensures forall k :: 0 <= k < |KeptIndices(s, keep)| ==>
              FilterMap(s, keep, f)[k] == f(s[KeptIndices(s, keep)[k]])
    decreases |s|
  {
    if |s| > 0 {
      var p := s[..|s| - 1];
      FilterMapAtKept(p, keep, f);
      assert forall j :: 0 <= j < |p| ==> p[j] == s[j];
    }
  }
}
