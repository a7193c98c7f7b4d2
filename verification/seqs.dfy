/** Sequence helpers standing for the Kotlin collection operations the processors use. */
module Seqs {
  import opened Options

  /** Kotlin's `filter`: the elements satisfying `keep`, in their original order. */
  function Filter<T>(s: seq<T>, keep: T -> bool): (r: seq<T>)
    ensures |r| <= |s|
    ensures forall i :: 0 <= i < |r| ==> r[i] in s && keep(r[i])
    ensures forall i :: 0 <= i < |s| ==> (s[i] in r <==> keep(s[i]))
  {
    if |s| == 0 then []
    else (if keep(s[0]) then [s[0]] else []) + Filter(s[1..], keep)
  }

  /** Kotlin's `singleOrNull(predicate)`: the one matching element, or null
      when there is none or more than one. */
  function SingleOrNone<T>(s: seq<T>, keep: T -> bool): (r: Option<T>)
    ensures r.Some? <==> |Filter(s, keep)| == 1
    ensures r.Some? ==> r.value in s && keep(r.value)
  {
    var m := Filter(s, keep);
    if |m| == 1 then Some(m[0]) else None
  }

  /** No element occurs twice. */
  predicate NoDuplicates<T(==)>(s: seq<T>) {
    forall i, j :: 0 <= i < j < |s| ==> s[i] != s[j]
  }

  /** Appending keeps the elements distinct exactly when the new one is new. */
  lemma NoDuplicatesSnoc<T>(s: seq<T>, x: T)
    ensures NoDuplicates(s + [x]) <==> NoDuplicates(s) && x !in s
  {
    var t := s + [x];
    if NoDuplicates(t) {
      forall i, j | 0 <= i < j < |s|
        ensures s[i] != s[j]
      {
        assert t[i] == s[i] && t[j] == s[j];
      }
      assert forall i :: 0 <= i < |s| ==> t[i] == s[i] && t[i] != t[|s|];
    }
    if NoDuplicates(s) && x !in s {
      forall i, j | 0 <= i < j < |t|
        ensures t[i] != t[j]
      {
        if j < |s| {
          assert t[i] == s[i] && t[j] == s[j];
        } else {
          assert t[i] == s[i] && t[j] == x;
        }
      }
    }
  }

  /** The first occurrence of each element, in order: the iteration order of a
      Kotlin `LinkedHashSet` built from `s`. */
  function Distinct<T(==)>(s: seq<T>): (r: seq<T>)
    ensures NoDuplicates(r)
    ensures forall i :: 0 <= i < |s| ==> s[i] in r
    ensures forall i :: 0 <= i < |r| ==> r[i] in s
  {
    if |s| == 0 then []
    else
      var init := Distinct(s[..|s| - 1]);
      var last := s[|s| - 1];
      assert s == s[..|s| - 1] + [last];
      NoDuplicatesSnoc(init, last);
      if last in init then init else init + [last]
  }
}
