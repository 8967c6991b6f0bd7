/** The elements of a sequence, and sequences without repetitions. */
module Sequences {

  function Elements<T>(s: seq<T>): set<T> { set x | x in s }

  predicate Distinct<T(==)>(s: seq<T>) { forall i, j :: 0 <= i < j < |s| ==> s[i] != s[j] }

  lemma {:induction false} DistinctIsSetSize<T>(s: seq<T>)
    ensures |Elements(s)| <= |s|
    ensures |Elements(s)| == |s| <==> Distinct(s)
  {
    if s != [] {
      var n := |s| - 1;
      var init := s[..n];
      DistinctIsSetSize(init);
      assert s == init + [s[n]];
      assert Elements(s) == Elements(init) + {s[n]};
      if s[n] in init {
        assert Elements(s) == Elements(init);
        var i :| 0 <= i < n && init[i] == s[n];
        assert s[i] == s[n];
      } else {
        assert forall i :: 0 <= i < n ==> s[i] == init[i];
        assert |Elements(s)| == |Elements(init)| + 1;
        if |Elements(init)| == |init| {
          assert forall i, j :: 0 <= i < j < |s| ==> s[i] != s[j];
        } else {
          var i, j :| 0 <= i < j < |init| && init[i] == init[j];
          assert s[i] == s[j];
        }
      }
    }
  }
}
