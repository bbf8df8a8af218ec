/**
 * `std::set<int> labels(first, last)`: the distinct labels of a split.
 * A `std::set` keeps its elements in ascending order, so it is modelled
 * as a strictly increasing sequence; `std::advance(labels.begin(), k)`
 * is then the element at position k.
 */
module LabelSet {

  ghost predicate StrictlyIncreasing(s: seq<int>)
  {
    forall i, j :: 0 <= i < j < |s| ==> s[i] < s[j]
  }

  /** `s` is the label set of `labels`: ascending, duplicate-free, and holding exactly the labels that occur. */
  ghost predicate IsLabelSetOf(s: seq<int>, labels: seq<int>)
  {
    StrictlyIncreasing(s) && forall x :: x in s <==> x in labels
  }

  /** Every label that occurs is in the label set. */
  lemma MemberOfLabelSet(s: seq<int>, labels: seq<int>, k: nat)
    requires IsLabelSetOf(s, labels) && k < |labels|
    ensures labels[k] in s
  {
    var x := labels[k];
    assert x in labels;
    assert x in s <==> x in labels;
  }

  /** `std::set::insert`: adds `x` unless it is already there, keeping the order. */
  function Insert(s: seq<int>, x: int): (r: seq<int>)
    requires StrictlyIncreasing(s)
    ensures StrictlyIncreasing(r)
    ensures forall y :: y in r <==> y in s || y == x
    ensures |r| == if x in s then |s| else |s| + 1
  {
    if s == [] then [x]
    else if x < s[0] then [x] + s
    else if x == s[0] then s
    else
      var rest := Insert(s[1..], x);
      HeadBelowTail(s);
      assert forall k :: 0 <= k < |rest| ==> rest[k] in rest && s[0] < rest[k];
      assert forall k :: 0 < k < |[s[0]] + rest| ==> ([s[0]] + rest)[k] == rest[k - 1];
      [s[0]] + rest
  }

  lemma HeadBelowTail(s: seq<int>)
    requires StrictlyIncreasing(s) && |s| > 0
    ensures forall y :: y in s[1..] ==> s[0] < y
  {
    forall y | y in s[1..]
      ensures s[0] < y
    {
      var m :| 0 <= m < |s[1..]| && s[1..][m] == y;
      assert s[m + 1] == y;
    }
  }

  /** Two ascending duplicate-free sequences with the same members are equal. */
  lemma {:induction false} SameMembersEqual(a: seq<int>, b: seq<int>)
    requires StrictlyIncreasing(a) && StrictlyIncreasing(b)
    requires forall x :: x in a <==> x in b
    ensures a == b
    decreases |a|
  {
    if |a| > 0 {
      var x := a[0];
      assert x in a && (x in a <==> x in b);
    }
    if |b| > 0 {
      var y := b[0];
      assert y in b && (y in a <==> y in b);
    }
    if |a| > 0 && |b| > 0 {
      HeadBelowTail(a);
      HeadBelowTail(b);
      assert a == [a[0]] + a[1..] && b == [b[0]] + b[1..];
      assert a[0] == b[0];
      forall x
        ensures x in a[1..] <==> x in b[1..]
      {
        assert x in a[1..] <==> x in a && x != a[0];
        assert x in b[1..] <==> x in b && x != b[0];
      }
      assert StrictlyIncreasing(a[1..]) by {
        forall i, j | 0 <= i < j < |a[1..]|
          ensures a[1..][i] < a[1..][j]
        {
          assert a[1..][i] == a[i + 1] && a[1..][j] == a[j + 1];
        }
      }
      assert StrictlyIncreasing(b[1..]) by {
        forall i, j | 0 <= i < j < |b[1..]|
          ensures b[1..][i] < b[1..][j]
        {
          assert b[1..][i] == b[i + 1] && b[1..][j] == b[j + 1];
        }
      }
      SameMembersEqual(a[1..], b[1..]);
    }
  }

  /** The label set of a label vector is unique: `std::set` has one content for one range. */
  lemma LabelSetUnique(s1: seq<int>, s2: seq<int>, labels: seq<int>)
    requires IsLabelSetOf(s1, labels) && IsLabelSetOf(s2, labels)
    ensures s1 == s2
  {
    SameMembersEqual(s1, s2);
  }

  /** Builds the label set by inserting the labels one at a time, as the range constructor does. */
  method BuildLabelSet(labels: seq<int>) returns (s: seq<int>)
    ensures IsLabelSetOf(s, labels)
    ensures |s| <= |labels|
    ensures |labels| > 0 ==> |s| > 0
  {
    s := [];
    var k := 0;
    while k < |labels|
      invariant 0 <= k <= |labels|
      invariant StrictlyIncreasing(s)
      invariant forall x :: x in s <==> x in labels[..k]
      invariant |s| <= k
      invariant k > 0 ==> |s| > 0
    {
      s := Insert(s, labels[k]);
      assert labels[..k + 1] == labels[..k] + [labels[k]];
      k := k + 1;
    }
    assert labels[..k] == labels;
  }

  /** A strictly increasing sequence holding two different values has at least two elements. */
  lemma TwoDistinctMembers(s: seq<int>, x: int, y: int)
    requires x in s && y in s && x != y
    ensures |s| >= 2
  {
    var i :| 0 <= i < |s| && s[i] == x;
    var j :| 0 <= j < |s| && s[j] == y;
    assert i != j;
  }
}
