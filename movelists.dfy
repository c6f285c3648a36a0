/** Sequence facts shared by the ranked-move merge, the rank lookups and the
    score table of the live selector. */
module MoveLists {

  predicate NoDup<T(==)>(s: seq<T>) {
    forall i, j :: 0 <= i < j < |s| ==> s[i] != s[j]
  }

  function Elements<T>(s: seq<T>): set<T> {
    set x | x in s
  }

  /** `prefix` followed by every element of `s` not already present, taken in
      the order of `s` and appended one at a time (so a repeated element of `s`
      is appended once). This is the list that `get_ranked_moves` builds, and
      the key order of a Python dict filled from `s`. */
  function AppendMissing<T(==)>(prefix: seq<T>, s: seq<T>): seq<T>
    decreases |s|
  {
    if s == [] then prefix
    else
      var r := AppendMissing(prefix, s[..|s| - 1]);
      if s[|s| - 1] in r then r else r + [s[|s| - 1]]
  }

  /** The elements of `s` that do not occur in `excluded`, in the order of `s`. */
  function Without<T(==)>(s: seq<T>, excluded: seq<T>): seq<T>
    decreases |s|
  {
    if s == [] then []
    else Without(s[..|s| - 1], excluded) + (if s[|s| - 1] in excluded then [] else [s[|s| - 1]])
  }

  /** The merge never reorders or drops the prefix. */
  lemma {:induction false} AppendMissingKeepsPrefix<T>(prefix: seq<T>, s: seq<T>)
    ensures |prefix| <= |AppendMissing(prefix, s)|
    ensures AppendMissing(prefix, s)[..|prefix|] == prefix
    decreases |s|
  {
    if s != [] {
      AppendMissingKeepsPrefix(prefix, s[..|s| - 1]);
      var r := AppendMissing(prefix, s[..|s| - 1]);
      assert (r + [s[|s| - 1]])[..|prefix|] == r[..|prefix|];
    }
  }

  /** The merge holds exactly the elements of the prefix and of `s`. */
  lemma {:induction false} AppendMissingElements<T>(prefix: seq<T>, s: seq<T>)
    ensures forall x :: x in AppendMissing(prefix, s) <==> x in prefix || x in s
    decreases |s|
  {
    if s != [] {
      var s' := s[..|s| - 1];
      AppendMissingElements(prefix, s');
      assert s == s' + [s[|s| - 1]];
      assert forall x :: x in s <==> x in s' || x == s[|s| - 1];
    }
  }

  /** A duplicate-free prefix stays duplicate-free: nothing is appended twice. */
  lemma {:induction false} AppendMissingNoDup<T>(prefix: seq<T>, s: seq<T>)
    requires NoDup(prefix)
    ensures NoDup(AppendMissing(prefix, s))
    decreases |s|
  {
    if s != [] {
      AppendMissingNoDup(prefix, s[..|s| - 1]);
    }
  }

  /** When `s` itself is duplicate-free (as a legal-move list is), the merge is
      the prefix followed by the elements of `s` missing from it, in order. */
  lemma {:induction false} AppendMissingIsPrefixThenMissing<T>(prefix: seq<T>, s: seq<T>)
    requires NoDup(s)
    ensures AppendMissing(prefix, s) == prefix + Without(s, prefix)
    decreases |s|
  {
    if s != [] {
      var s', x := s[..|s| - 1], s[|s| - 1];
      assert NoDup(s');
      AppendMissingIsPrefixThenMissing(prefix, s');
      AppendMissingElements(prefix, s');
      assert forall k :: 0 <= k < |s'| ==> s'[k] == s[k] != x;
    }
  }

  lemma {:induction false} NoDupElementsSize<T>(s: seq<T>)
    requires NoDup(s)
    ensures |Elements(s)| == |s|
    decreases |s|
  {
    if s != [] {
      var s', x := s[..|s| - 1], s[|s| - 1];
      assert NoDup(s');
      NoDupElementsSize(s');
      assert s == s' + [x];
      assert Elements(s) == Elements(s') + {x};
      assert forall k :: 0 <= k < |s'| ==> s'[k] == s[k] != x;
    }
  }

  /** With a duplicate-free prefix drawn from a duplicate-free `s`, the merge
      is a permutation of `s`: every element once, nothing else. */
  lemma MergedLength<T>(prefix: seq<T>, s: seq<T>)
    requires NoDup(prefix) && NoDup(s)
    requires forall x :: x in prefix ==> x in s
    ensures |AppendMissing(prefix, s)| == |s|
  {
    var r := AppendMissing(prefix, s);
    AppendMissingElements(prefix, s);
    AppendMissingNoDup(prefix, s);
    assert Elements(r) == Elements(s);
    NoDupElementsSize(r);
    NoDupElementsSize(s);
  }

  /** `list.index(x)`: the first position of `x`. */
  function IndexOf<T(==)>(s: seq<T>, x: T): (i: nat)
    requires x in s
    ensures i < |s| && s[i] == x && x !in s[..i]
    decreases |s|
  {
    if s[0] == x then 0
    else
      var j := IndexOf(s[1..], x);
      assert s[..j + 1] == [s[0]] + s[1..][..j];
      j + 1
  }

  /** The last position of `x`: the entry a Python dict keeps when the same key
      is assigned several times. */
  function LastIndex<T(==)>(s: seq<T>, x: T): (i: nat)
    requires x in s
    ensures i < |s| && s[i] == x && x !in s[i + 1..]
    decreases |s|
  {
    if s[|s| - 1] == x then |s| - 1
    else
      var s' := s[..|s| - 1];
      assert x in s' by {
        var k :| 0 <= k < |s| && s[k] == x;
        assert s'[k] == x;
      }
      var j := LastIndex(s', x);
      assert s[j + 1..] == s'[j + 1..] + [s[|s| - 1]];
      j
  }
}
