/** Positions picked from a sequence by a test: the shape shared by the job's two filters. */
module Filtering {

  /** The positions of `s` whose element passes `keep`, in increasing order. */
  function Positions<T>(s: seq<T>, keep: T -> bool): seq<nat>
  {
    if s == [] then []
    else
      var n := |s| - 1;
      Positions(s[..n], keep) + (if keep(s[n]) then [n] else [])
  }

  /**
   * The positions picked are in range, strictly increasing, and a position
   * is picked if and only if its element passes the test.
   */
  lemma {:induction false} PositionsExact<T>(s: seq<T>, keep: T -> bool)
    ensures var pos := Positions(s, keep);
      && (forall k :: 0 <= k < |pos| ==> pos[k] < |s|)
      && (forall k, l :: 0 <= k < l < |pos| ==> pos[k] < pos[l])
      && (forall i :: 0 <= i < |s| ==> (i in pos <==> keep(s[i])))
  {
    if s != [] {
      var n := |s| - 1;
      var init := s[..n];
      var pos0, pos := Positions(init, keep), Positions(s, keep);
      PositionsExact(init, keep);
      assert pos == pos0 + (if keep(s[n]) then [n] else []);
      assert n !in pos0;
      forall i | 0 <= i < n
        ensures i in pos <==> keep(s[i])
      {
        assert s[i] == init[i];
      }
    }
  }
}
