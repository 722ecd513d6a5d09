/** `sorted` over a set of distinct integers. */
module RoundOrder {

  predicate IsMin(m: int, s: set<int>) { m in s && forall x :: x in s ==> m <= x }

  lemma Pick<T>(s: set<T>) returns (x: T)
    requires s != {}
    ensures x in s
  {
    x :| x in s;
  }

  lemma {:induction false} FindMin(s: set<int>) returns (m: int)
    requires s != {}
    ensures IsMin(m, s)
  {
    m := Pick(s);
    var rest := s - {m};
    assert forall y :: y in s ==> y == m || y in rest;
    if rest != {} {
      var least := FindMin(rest);
      m := if m < least then m else least;
    }
  }

  lemma MinExists(s: set<int>)
    requires s != {}
    ensures exists m :: IsMin(m, s)
  {
    var m := FindMin(s);
  }

  ghost predicate Ascending(s: seq<int>) { forall i, j :: 0 <= i < j < |s| ==> s[i] < s[j] }

  /** `sorted` over distinct round numbers. */
  function SortedRounds(s: set<int>): (r: seq<int>)
    ensures Ascending(r)
    ensures forall x :: x in r <==> x in s
  {
    if s == {} then []
    else
      MinExists(s);
      var m :| IsMin(m, s);
      [m] + SortedRounds(s - {m})
  }

  /** 1..n is the only ascending sequence of the numbers 1 to n. */
  lemma {:induction false} CountingIsSorted(s: seq<int>, lo: int, n: nat)
    requires Ascending(s) && forall x :: x in s <==> lo <= x < lo + n
    ensures |s| == n && forall i :: 0 <= i < n ==> s[i] == lo + i
  {
    if n == 0 {
      assert forall i :: 0 <= i < |s| ==> s[i] in s;
    } else {
      assert lo in s;
      var k :| 0 <= k < |s| && s[k] == lo;
      assert s[0] in s;
      assert k == 0;
      forall x ensures x in s[1..] <==> lo + 1 <= x < lo + n {
        if x in s && x != lo {
          var i :| 0 <= i < |s| && s[i] == x;
          assert s[1..][i - 1] == x;
        }
      }
      CountingIsSorted(s[1..], lo + 1, n - 1);
    }
  }
}
