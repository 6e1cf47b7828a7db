/** Python's `sorted(..., key=score, reverse=...)` over score-table rows:
    a stable sort on the score alone, ascending or, with `reverse`,
    descending. Rows with equal scores keep the order they came in. */
module Ranking {
  import opened Scoring

  /** x may stand before y in the sorted output. */
  predicate Precedes(x: Entry, y: Entry, reverse: bool)
  {
    if reverse then x.1 >= y.1 else x.1 <= y.1
  }

  /** Non-decreasing scores, or non-increasing ones when `reverse` holds. */
  predicate Ordered(s: seq<Entry>, reverse: bool)
  {
    forall i, j :: 0 <= i < j < |s| ==> Precedes(s[i], s[j], reverse)
  }

  /** Puts x in front of the first row it may precede, so that x lands
      before every row of equal score. */
  function Insert(x: Entry, s: seq<Entry>, reverse: bool): (r: seq<Entry>)
    ensures |r| == |s| + 1
  {
    if s == [] || Precedes(x, s[0], reverse) then [x] + s
    else [s[0]] + Insert(x, s[1..], reverse)
  }

  /** The stable sort: every row is inserted in front of the sorted rows
      that followed it in the input. It keeps the number of rows;
      SortPermutes, SortOrdered and SortStable say which rows and in what
      order. */
  function SortByScore(s: seq<Entry>, reverse: bool): (r: seq<Entry>)
    ensures |r| == |s|
  {
    if s == [] then [] else Insert(s[0], SortByScore(s[1..], reverse), reverse)
  }

  /** The rows of s that have score v, in the order of s. */
  function WithScore(s: seq<Entry>, v: int): seq<Entry>
  {
    if s == [] then []
    else (if s[0].1 == v then [s[0]] else []) + WithScore(s[1..], v)
  }

  lemma {:induction false} InsertPermutes(x: Entry, s: seq<Entry>, reverse: bool)
    ensures multiset(Insert(x, s, reverse)) == multiset(s) + multiset{x}
  {
    if s != [] && !Precedes(x, s[0], reverse) {
      InsertPermutes(x, s[1..], reverse);
      assert s == [s[0]] + s[1..];
    }
  }

  lemma {:induction false} InsertOrdered(x: Entry, s: seq<Entry>, reverse: bool)
    requires Ordered(s, reverse)
    ensures Ordered(Insert(x, s, reverse), reverse)
  {
    if s != [] && !Precedes(x, s[0], reverse) {
      var rest := Insert(x, s[1..], reverse);
      InsertOrdered(x, s[1..], reverse);
      InsertPermutes(x, s[1..], reverse);
      forall j | 0 <= j < |rest|
        ensures Precedes(s[0], rest[j], reverse)
      {
        assert rest[j] in multiset(rest);
        if rest[j] != x {
          assert rest[j] in multiset(s[1..]);
          var k :| 0 <= k < |s[1..]| && s[1..][k] == rest[j];
          assert s[k + 1] == rest[j];
        }
      }
    }
  }

  /** The sort returns the same rows, each as often as in the input. */
  lemma {:induction false} SortPermutes(s: seq<Entry>, reverse: bool)
    ensures multiset(SortByScore(s, reverse)) == multiset(s)
  {
    if s != [] {
      SortPermutes(s[1..], reverse);
      InsertPermutes(s[0], SortByScore(s[1..], reverse), reverse);
      assert s == [s[0]] + s[1..];
    }
  }

  /** The sort returns its rows in score order. */
  lemma {:induction false} SortOrdered(s: seq<Entry>, reverse: bool)
    ensures Ordered(SortByScore(s, reverse), reverse)
  {
    if s != [] {
      SortOrdered(s[1..], reverse);
      InsertOrdered(s[0], SortByScore(s[1..], reverse), reverse);
    }
  }

  /** Inserting x adds it in front of the rows of its own score and
      leaves the rows of every other score as they were. */
  lemma {:induction false} InsertWithScore(x: Entry, s: seq<Entry>, reverse: bool, v: int)
    ensures WithScore(Insert(x, s, reverse), v)
         == if x.1 == v then [x] + WithScore(s, v) else WithScore(s, v)
  {
    if s == [] || Precedes(x, s[0], reverse) {
      assert ([x] + s)[1..] == s;
    } else {
      InsertWithScore(x, s[1..], reverse, v);
      assert ([s[0]] + Insert(x, s[1..], reverse))[1..] == Insert(x, s[1..], reverse);
    }
  }

  /** Stability: for every score, the rows that have it come out in the
      order they went in. */
  lemma {:induction false} SortStable(s: seq<Entry>, reverse: bool, v: int)
    ensures WithScore(SortByScore(s, reverse), v) == WithScore(s, v)
  {
    if s != [] {
      SortStable(s[1..], reverse, v);
      InsertWithScore(s[0], SortByScore(s[1..], reverse), reverse, v);
    }
  }

  /** Keeping the rows of one score removes nothing when every row has it. */
  lemma {:induction false} WithScoreAll(s: seq<Entry>, v: int)
    requires forall i :: 0 <= i < |s| ==> s[i].1 == v
    ensures WithScore(s, v) == s
  {
    if s != [] {
      WithScoreAll(s[1..], v);
    }
  }

  /** Keeping the rows of one score distributes over concatenation. */
  lemma {:induction false} WithScoreAppend(a: seq<Entry>, b: seq<Entry>, v: int)
    ensures WithScore(a + b, v) == WithScore(a, v) + WithScore(b, v)
  {
    if a != [] {
      WithScoreAppend(a[1..], b, v);
      assert (a + b)[1..] == a[1..] + b;
    } else {
      assert a + b == b;
    }
  }

  /** When every score is the same, the sort changes nothing. */
  lemma SortUniform(s: seq<Entry>, reverse: bool, v: int)
    requires forall i :: 0 <= i < |s| ==> s[i].1 == v
    ensures SortByScore(s, reverse) == s
  {
    var r := SortByScore(s, reverse);
    SortPermutes(s, reverse);
    forall i | 0 <= i < |r|
      ensures r[i].1 == v
    {
      assert r[i] in multiset(s);
    }
    WithScoreAll(s, v);
    WithScoreAll(r, v);
    SortStable(s, reverse, v);
  }

  /** Rows already in order come out of the sort unchanged. */
  lemma {:induction false} SortOfOrdered(s: seq<Entry>, reverse: bool)
    requires Ordered(s, reverse)
    ensures SortByScore(s, reverse) == s
  {
    if s != [] {
      SortOfOrdered(s[1..], reverse);
      assert s == [s[0]] + s[1..];
    }
  }

  /** Sorting twice is sorting once. */
  lemma SortIdempotent(s: seq<Entry>, reverse: bool)
    ensures SortByScore(SortByScore(s, reverse), reverse) == SortByScore(s, reverse)
  {
    SortOrdered(s, reverse);
    SortOfOrdered(SortByScore(s, reverse), reverse);
  }
}
