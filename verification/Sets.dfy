/** Sizes of finite sets, and of the members of lists. */
module Sets {
  lemma {:induction false} SubsetSize<T>(x: set<T>, y: set<T>)
    requires x <= y
    ensures |x| <= |y|
  {
    if x != {} {
      var t :| t in x;
      SubsetSize(x - {t}, y - {t});
    }
  }

  lemma SameSize<T>(x: set<T>, y: set<T>)
    requires x <= y && |x| == |y|
    ensures x == y
  {
    assert |y - x| == 0;
  }

  function Members<T>(s: seq<T>): set<T> {
    set x | x in s
  }

  /** A list has as many members as entries exactly if no two entries are alike. */
  lemma {:induction false} DistinctEntries<T>(s: seq<T>)
    ensures |Members(s)| <= |s|
    ensures |Members(s)| == |s| <==> forall i, j | 0 <= i < j < |s| :: s[i] != s[j]
  {
    var all := Members(s);
    if s == [] {
      assert all == {};
    } else {
      var rest := Members(s[1..]);
      DistinctEntries(s[1..]);
      assert s == [s[0]] + s[1..];
      assert all == rest + {s[0]};
      assert s[0] in rest <==> exists j | 0 < j < |s| :: s[0] == s[j] by {
        if s[0] in rest {
          var j :| 0 <= j < |s[1..]| && s[1..][j] == s[0];
          assert s[j + 1] == s[0];
        }
      }
      assert forall i | 0 < i < |s| :: s[i] == s[1..][i - 1];
    }
  }
}
