/** Error kinds and result wrappers shared by every part of the model.
    The Go code returns `error` values whose only distinction is their
    (Korean) message; the model keeps the kind of failure and drops the text. */
module Common {

  /** The kinds of failure the core reports. */
  datatype Error =
    | NotFound          // a prompt, tool descriptor or file that does not exist
    | ReadError         // a read that failed for a reason other than absence
    | WriteError        // a write that failed (a read-only file, say)
    | ParseError        // a stored tool descriptor that is not valid JSON
    | UnsupportedTool   // neither a built-in tool nor a loadable descriptor
    | NoPrompts         // `apply` was given no non-empty category

  /** A value or the kind of failure that prevented it. */
  datatype Result<T> = Ok(value: T) | Err(error: Error)

  /** Success or the kind of failure, for operations that return only `error`. */
  datatype Outcome = Pass | Fail(error: Error)

  /** No element occurs twice. */
  predicate Distinct<T(==)>(s: seq<T>) {
    forall i, j :: 0 <= i < j < |s| ==> s[i] != s[j]
  }

  /** `a` is `b` with some elements left out, the rest in their order. */
  predicate Subsequence<T(==)>(a: seq<T>, b: seq<T>)
    decreases |b|
  {
    if b == [] then a == []
    else
      || (a != [] && a[|a| - 1] == b[|b| - 1] && Subsequence(a[..|a| - 1], b[..|b| - 1]))
      || Subsequence(a, b[..|b| - 1])
  }

  /** A list without repetitions is as long as the set of its elements. */
  lemma {:induction false} DistinctCard<T>(s: seq<T>)
    requires Distinct(s)
    ensures |set x | x in s| == |s|
  {
    if s != [] {
      DistinctCard(s[1..]);
      assert (set x | x in s) == (set x | x in s[1..]) + {s[0]};
    }
  }

  /** The elements of `s` that satisfy `keep`, in their order; each is
      tested on its own, so repeated elements are kept as often as they
      occur. */
  function Filter<T>(s: seq<T>, keep: T -> bool): seq<T>
  {
    if s == [] then []
    else
      var last := s[|s| - 1];
      Filter(s[..|s| - 1], keep) + (if keep(last) then [last] else [])
  }

  /** What the filter keeps is a subsequence of its input. */
  lemma {:induction false} FilterOrdered<T>(s: seq<T>, keep: T -> bool)
    ensures Subsequence(Filter(s, keep), s)
  {
    if s != [] {
      var init := s[..|s| - 1];
      var last := s[|s| - 1];
      var kept := Filter(s, keep);
      FilterOrdered(init, keep);
      if keep(last) {
        assert kept == Filter(init, keep) + [last];
        assert kept[..|kept| - 1] == Filter(init, keep);
      } else {
        assert kept == Filter(init, keep);
      }
    }
  }

  /** The filter keeps every occurrence of a kept element and none of a
      rejected one. */
  lemma {:induction false} FilterCount<T>(s: seq<T>, keep: T -> bool, x: T)
    ensures multiset(Filter(s, keep))[x] == if keep(x) then multiset(s)[x] else 0
  {
    if s != [] {
      var init := s[..|s| - 1];
      var last := s[|s| - 1];
      var kept := Filter(init, keep);
      FilterCount(init, keep, x);
      assert s == init + [last];
      if keep(last) {
        assert Filter(s, keep) == kept + [last];
      } else {
        assert Filter(s, keep) == kept;
      }
    }
  }

  /** An element is kept exactly when it occurs and satisfies `keep`. */
  lemma FilterMember<T>(s: seq<T>, keep: T -> bool, x: T)
    ensures x in Filter(s, keep) <==> x in s && keep(x)
  {
    FilterCount(s, keep, x);
    assert x in Filter(s, keep) <==> multiset(Filter(s, keep))[x] > 0;
    assert x in s <==> multiset(s)[x] > 0;
  }
}
