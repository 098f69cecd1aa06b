/** Lists of strings as Python builds them from sets. */
module Collections {

  predicate NoDup(s: seq<string>)
  {
    forall i, j :: 0 <= i < j < |s| ==> s[i] != s[j]
  }

  function Elems(s: seq<string>): set<string>
  {
    set x | x in s
  }

  /** Python's list(some_set): every element once, in an order the
      language leaves unspecified (hence the choice with :|). */
  method ListOfSet(s: set<string>) returns (r: seq<string>)
    ensures NoDup(r)
    ensures Elems(r) == s
    ensures |r| == |s|
  {
    r := [];
    var rest := s;
    while rest != {}
      invariant rest <= s
      invariant NoDup(r)
      invariant Elems(r) !! rest
      invariant Elems(r) + rest == s
      invariant |r| + |rest| == |s|
      decreases rest
    {
      var x :| x in rest;
      r := r + [x];
      rest := rest - {x};
    }
  }
}
