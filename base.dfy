/** Small building blocks shared by every module of the storefront model:
    an optional value (JavaScript's `undefined`/`null` versus a value), the
    issue a form rule reports, and `Array.prototype.filter` with the facts every filter of the admin pages
    and the cart relies on. */
module Base {

  /** A value that may be absent: `undefined` or `null` in the source. */
  datatype Option<T> = None | Some(value: T)

  /** `r` can be obtained from `s` by deleting elements: the kept elements
      appear in `s` in the same order. */
  predicate IsSubsequence<T(==)>(r: seq<T>, s: seq<T>)
    decreases |s|
  {
    if s == [] then r == []
    else (r != [] && r[0] == s[0] && IsSubsequence(r[1..], s[1..])) || IsSubsequence(r, s[1..])
  }

  /** `s.filter(p)`: the elements of `s` that satisfy `p`, in their order. */
  function Filter<T(==)>(s: seq<T>, p: T -> bool): (r: seq<T>)
    ensures |r| <= |s|
    ensures forall i :: 0 <= i < |r| ==> r[i] in s && p(r[i])
    ensures forall i :: 0 <= i < |s| && p(s[i]) ==> s[i] in r
    ensures IsSubsequence(r, s)
  {
    if s == [] then []
    else
      var rest := Filter(s[1..], p);
      var r := if p(s[0]) then [s[0]] + rest else rest;
      assert forall i :: 0 <= i < |r| ==> r[i] in s && p(r[i]) by {
        assert forall i :: 0 <= i < |rest| ==> rest[i] in s[1..];
      }
      r
  }

  /** `filter` keeps every element that passes `p` as often as it occurs in
      `s`, and no copy of one that fails. */
  lemma {:induction false} FilterCounts<T>(s: seq<T>, p: T -> bool)
    ensures forall i :: 0 <= i < |s| ==>
      multiset(Filter(s, p))[s[i]] == (if p(s[i]) then multiset(s)[s[i]] else 0)
  {
    if s != [] {
      FilterCounts(s[1..], p);
      FilterCountsStep(s, Filter(s[1..], p), p);
    }
  }

  /** The multiplicity step of `filter`: if `rest` keeps the elements of
      `s[1..]` that pass `p` as often as they occur, then putting `s[0]` in
      front of `rest` exactly when it passes keeps that for `s`. */
  lemma FilterCountsStep<T>(s: seq<T>, rest: seq<T>, p: T -> bool)
    requires s != []
    requires forall j :: 1 <= j < |s| ==> multiset(rest)[s[j]] == (if p(s[j]) then multiset(s[1..])[s[j]] else 0)
    requires forall j :: 0 <= j < |rest| ==> rest[j] in s[1..]
    ensures var r := if p(s[0]) then [s[0]] + rest else rest;
      forall i :: 0 <= i < |s| ==> multiset(r)[s[i]] == (if p(s[i]) then multiset(s)[s[i]] else 0)
  {
    var x, t := s[0], s[1..];
    var r := if p(x) then [x] + rest else rest;
    assert s == [x] + t;
    assert multiset(s) == multiset{x} + multiset(t);
    assert multiset(r) == (if p(x) then multiset{x} else multiset{}) + multiset(rest);
    forall i | 0 <= i < |s|
      ensures multiset(r)[s[i]] == (if p(s[i]) then multiset(s)[s[i]] else 0)
    {
      if i > 0 {
        assert s[i] == t[i - 1];
      } else if x !in t {
        assert x !in rest;
      } else {
        var j :| 0 <= j < |t| && t[j] == x;
        assert s[j + 1] == x;
      }
    }
  }

  /** One failed form rule: the field it is reported under and the message
      shown there, as a zod issue carries them. */
  datatype FieldIssue<F> = FieldIssue(field: F, message: string)

  /** The issue of one rule: `[issue]` when the rule fails, else nothing. */
  function IssueIf<F>(failed: bool, field: F, message: string): (r: seq<FieldIssue<F>>)
    ensures |r| <= 1 && (r != [] <==> failed)
    ensures forall x :: x in r ==> x == FieldIssue(field, message)
  {
    if failed then [FieldIssue(field, message)] else []
  }

  /** A filter whose predicate holds of every element keeps the whole input. */
  lemma {:induction false} FilterKeepsAll<T>(s: seq<T>, p: T -> bool)
    requires forall i :: 0 <= i < |s| ==> p(s[i])
    ensures Filter(s, p) == s
  {
    if s != [] {
      FilterKeepsAll(s[1..], p);
    }
  }

  /** A filter whose predicate holds of no element keeps nothing. */
  lemma {:induction false} FilterDropsAll<T>(s: seq<T>, p: T -> bool)
    requires forall i :: 0 <= i < |s| ==> !p(s[i])
    ensures Filter(s, p) == []
  {
    if s != [] {
      FilterDropsAll(s[1..], p);
    }
  }
}
