/** Version ordering and the stable sort that `sorted(…,
    key=cmp_to_key(version_compare))` performs. The comparison itself (the
    Debian version ordering of section 5.6.12 of the Debian Policy Manual)
    is a parameter: `le(a, b)` stands for `version_compare(a, b) <= 0`, and
    only its being a total preorder is used. A stable sort by a total
    preorder has a single possible result, so insertion sort describes
    Python's sort exactly. */
module Versions {

  /** `le` orders every pair and is transitive. */
  ghost predicate TotalPreorder(le: (string, string) -> bool)
  {
    (forall a, b :: le(a, b) || le(b, a)) &&
    (forall a, b, c :: le(a, b) && le(b, c) ==> le(a, c))
  }

  /** The reversed order, for `reverse=True`: Python keeps equal elements in
      their original order also when sorting in reverse. */
  function Flip(le: (string, string) -> bool): (string, string) -> bool
  {
    (a, b) => le(b, a)
  }

  ghost predicate SortedBy(s: seq<string>, le: (string, string) -> bool)
  {
    forall i, j :: 0 <= i < j < |s| ==> le(s[i], s[j])
  }

  /** Inserts `x` before the first element it is not above. */
  function Insert(x: string, s: seq<string>, le: (string, string) -> bool): seq<string>
  {
    if s == [] then [x]
    else if le(x, s[0]) then [x] + s
    else [s[0]] + Insert(x, s[1..], le)
  }

  function Sort(s: seq<string>, le: (string, string) -> bool): seq<string>
  {
    if s == [] then [] else Insert(s[0], Sort(s[1..], le), le)
  }

  lemma {:induction false} InsertPermutes(x: string, s: seq<string>, le: (string, string) -> bool)
    ensures multiset(Insert(x, s, le)) == multiset(s) + multiset{x}
  {
    if s != [] && !le(x, s[0]) {
      InsertPermutes(x, s[1..], le);
      assert s == [s[0]] + s[1..];
    }
  }

  /** The sorted sequence holds the same elements, as many times each. */
  lemma {:induction false} SortPermutes(s: seq<string>, le: (string, string) -> bool)
    ensures multiset(Sort(s, le)) == multiset(s)
  {
    if s != [] {
      SortPermutes(s[1..], le);
      InsertPermutes(s[0], Sort(s[1..], le), le);
      assert s == [s[0]] + s[1..];
    }
  }

  lemma {:induction false} InsertSorted(x: string, s: seq<string>, le: (string, string) -> bool)
    requires TotalPreorder(le) && SortedBy(s, le)
    ensures SortedBy(Insert(x, s, le), le)
  {
    if s != [] && !le(x, s[0]) {
      var rest := Insert(x, s[1..], le);
      InsertSorted(x, s[1..], le);
      InsertPermutes(x, s[1..], le);
      assert le(s[0], x);
      forall k | 0 <= k < |rest|
        ensures le(s[0], rest[k])
      {
        assert rest[k] in multiset(rest);
        if rest[k] != x {
          assert rest[k] in multiset(s[1..]);
          var j :| 0 <= j < |s[1..]| && s[1..][j] == rest[k];
          assert s[j + 1] == rest[k];
        }
      }
      var r := [s[0]] + rest;
      forall i, j | 0 <= i < j < |r|
        ensures le(r[i], r[j])
      {
        if i > 0 {
          assert r[i] == rest[i - 1] && r[j] == rest[j - 1];
        } else {
          assert r[j] == rest[j - 1];
        }
      }
    }
  }

  /** The sorted sequence is ordered by a total preorder. */
  lemma {:induction false} SortSorted(s: seq<string>, le: (string, string) -> bool)
    requires TotalPreorder(le)
    ensures SortedBy(Sort(s, le), le)
  {
    if s != [] {
      SortSorted(s[1..], le);
      InsertSorted(s[0], Sort(s[1..], le), le);
    }
  }

  lemma FlipIsTotalPreorder(le: (string, string) -> bool)
    requires TotalPreorder(le)
    ensures TotalPreorder(Flip(le))
  {
    var f := Flip(le);
    forall a, b, c | f(a, b) && f(b, c)
      ensures f(a, c)
    {
      assert le(c, b) && le(b, a);
    }
  }

  /** The first element of the descending sort is a greatest element and
      the last of the ascending sort too. */
  lemma SortedExtremes(s: seq<string>, le: (string, string) -> bool)
    requires TotalPreorder(le) && s != []
    ensures |Sort(s, Flip(le))| == |s| && |Sort(s, le)| == |s|
    ensures Sort(s, Flip(le))[0] in s && forall x :: x in s ==> le(x, Sort(s, Flip(le))[0])
    ensures Sort(s, le)[|s| - 1] in s && forall x :: x in s ==> le(x, Sort(s, le)[|s| - 1])
  {
    var down, up := Sort(s, Flip(le)), Sort(s, le);
    FlipIsTotalPreorder(le);
    SortPermutes(s, Flip(le));
    SortPermutes(s, le);
    SortSorted(s, Flip(le));
    SortSorted(s, le);
    assert |multiset(down)| == |multiset(s)| && |multiset(up)| == |multiset(s)|;
    assert down[0] in multiset(down) && up[|up| - 1] in multiset(up);
    forall x | x in s
      ensures le(x, down[0]) && le(x, up[|s| - 1])
    {
      assert x in multiset(down) && x in multiset(up);
      var i :| 0 <= i < |down| && down[i] == x;
      var j :| 0 <= j < |up| && up[j] == x;
      assert le(x, x);
      if i > 0 {
        assert Flip(le)(down[0], down[i]);
      }
      if j < |up| - 1 {
        assert le(up[j], up[|up| - 1]);
      }
    }
  }
}
