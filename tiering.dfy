/** The tier partition: each score-table row goes to the first tier whose
    cut it reaches (S, A, B, C, else D), each tier is then sorted by score
    from high to low, and a hero-to-tier dictionary is filled from the
    sorted tiers. */
module Tiering {
  import opened Scoring
  import opened Ranking
  import opened Statistics

  datatype Tier = S | A | B | C | D

  /** The order in which the tier dictionary is created and iterated. */
  const TierOrder: seq<Tier> := [S, A, B, C, D]

  /** The position of t in TierOrder: 0 for S up to 4 for D. */
  function Rank(t: Tier): (k: nat)
    ensures k < |TierOrder| && TierOrder[k] == t
  {
    match t
    case S => 0
    case A => 1
    case B => 2
    case C => 3
    case D => 4
  }

  /** First match wins: each test is `score >= cut`, tried from S down. */
  function Classify(score: int, th: Thresholds): (t: Tier)
    ensures t == S <==> score as real >= th.s
    ensures t == A <==> th.a <= score as real < th.s
    ensures Descending(th) ==> (t == B <==> th.bLower <= score as real < th.a)
    ensures Descending(th) ==> (t == C <==> th.c <= score as real < th.bLower)
    ensures Descending(th) ==> (t == D <==> score as real < th.c)
  {
    var x := score as real;
    if x >= th.s then S
    else if x >= th.a then A
    else if x >= th.bLower then B
    else if x >= th.c then C
    else D
  }

  /** A better score never lands in a lower tier. */
  lemma ClassifyMonotone(x: int, y: int, th: Thresholds)
    requires Descending(th) && x <= y
    ensures Rank(Classify(y, th)) <= Rank(Classify(x, th))
  {
  }

  /** The same tier, decided without a square root: the signed distance
      d from the mean is compared, through its square, with the variance
      (d >= 1.5·std exactly when d >= 0 and d·d >= 2.25·variance, and so
      on for the other cuts). */
  function ClassifyExact(score: int, mean: real, variance: real): Tier
  {
    var d := score as real - mean;
    if d >= 0.0 && d * d >= 2.25 * variance then S
    else if d >= 0.0 && d * d >= 0.25 * variance then A
    else if d >= 0.0 || d * d <= 0.25 * variance then B
    else if d * d <= 2.25 * variance then C
    else D
  }

  /** d >= k·std, for k >= 0, read through squares. */
  lemma AtLeastMultiple(d: real, k: real, std: real)
    requires k >= 0.0 && std >= 0.0
    ensures d >= k * std <==> d >= 0.0 && d * d >= (k * k) * (std * std)
  {
    assert (k * std) * (k * std) == (k * k) * (std * std);
    if d >= 0.0 {
      CompareBySquares(d, k * std);
    }
  }

  /** d >= -k·std, for k >= 0, read through squares. */
  lemma AtLeastNegativeMultiple(d: real, k: real, std: real)
    requires k >= 0.0 && std >= 0.0
    ensures d >= -(k * std) <==> d >= 0.0 || d * d <= (k * k) * (std * std)
  {
    assert (k * std) * (k * std) == (k * k) * (std * std);
    assert (-d) * (-d) == d * d;
    if d < 0.0 {
      CompareBySquares(k * std, -d);
    }
  }

  /** The cuts at mean ± 0.5·std and mean ± 1.5·std classify exactly as
      the square-root-free reference does, for the one std >= 0 whose
      square is the variance. */
  lemma ClassifyWithoutSquareRoot(score: int, mean: real, std: real, variance: real)
    requires std >= 0.0 && std * std == variance
    ensures Classify(score, ThresholdsFrom(mean, std)) == ClassifyExact(score, mean, variance)
  {
    var d := score as real - mean;
    AtLeastMultiple(d, 1.5, std);
    AtLeastMultiple(d, 0.5, std);
    AtLeastNegativeMultiple(d, 0.5, std);
    AtLeastNegativeMultiple(d, 1.5, std);
  }

  /** The rows the tier loop appends to tier t, in the order it appends
      them (the order of the score table). */
  function Members(s: seq<Entry>, th: Thresholds, t: Tier): (r: seq<Entry>)
    ensures |r| <= |s|
    ensures forall i :: 0 <= i < |r| ==> Classify(r[i].1, th) == t
  {
    if s == [] then []
    else
      var last := s[|s| - 1];
      Members(s[..|s| - 1], th, t) + (if Classify(last.1, th) == t then [last] else [])
  }

  /** The five tier lists the loop builds, one after the other, S first. */
  function Partition(s: seq<Entry>, th: Thresholds): seq<Entry>
  {
    Members(s, th, S) + Members(s, th, A) + Members(s, th, B) + Members(s, th, C) + Members(s, th, D)
  }

  lemma TierCases(t: Tier)
    ensures t == S || t == A || t == B || t == C || t == D
  {
  }

  /** The names that occur in a tier list. */
  function NameSet(s: seq<Entry>): set<string>
  {
    set e | e in s :: e.0
  }

  /** Appending a row to the table appends it to its own tier only. */
  lemma MembersAppend(s: seq<Entry>, e: Entry, th: Thresholds, t: Tier)
    ensures Members(s + [e], th, t)
         == Members(s, th, t) + (if Classify(e.1, th) == t then [e] else [])
  {
    assert (s + [e])[..|s + [e]| - 1] == s;
  }

  /** A row is in tier t exactly when it is in the table and classifies
      as t: every row lands in one tier and in no other. */
  lemma {:induction false} MembersIn(s: seq<Entry>, th: Thresholds, t: Tier, e: Entry)
    ensures e in Members(s, th, t) <==> e in s && Classify(e.1, th) == t
  {
    if s != [] {
      MembersIn(s[..|s| - 1], th, t, e);
      assert s == s[..|s| - 1] + [s[|s| - 1]];
    }
  }

  /** Nothing lost, nothing duplicated: the five tier lists together hold
      each row of the table exactly as often as the table does. */
  lemma {:induction false} PartitionPermutes(s: seq<Entry>, th: Thresholds)
    ensures multiset(Partition(s, th)) == multiset(s)
  {
    if s != [] {
      var init, last := s[..|s| - 1], s[|s| - 1];
      PartitionPermutes(init, th);
      assert s == init + [last];
      PartitionStep(init, last, th);
    }
  }

  /** One more row adds that row to exactly one of the five tier lists. */
  lemma PartitionStep(init: seq<Entry>, last: Entry, th: Thresholds)
    ensures multiset(Partition(init + [last], th)) == multiset(Partition(init, th)) + multiset{last}
  {
    var s := init + [last];
    var bS, bA, bB := multiset(Members(init, th, S)), multiset(Members(init, th, A)), multiset(Members(init, th, B));
    var bC, bD := multiset(Members(init, th, C)), multiset(Members(init, th, D));
    var xS, xA, xB := Landing(last, th, S), Landing(last, th, A), Landing(last, th, B);
    var xC, xD := Landing(last, th, C), Landing(last, th, D);
    assert multiset(Members(s, th, S)) == bS + xS by { MembersAppend(init, last, th, S); }
    assert multiset(Members(s, th, A)) == bA + xA by { MembersAppend(init, last, th, A); }
    assert multiset(Members(s, th, B)) == bB + xB by { MembersAppend(init, last, th, B); }
    assert multiset(Members(s, th, C)) == bC + xC by { MembersAppend(init, last, th, C); }
    assert multiset(Members(s, th, D)) == bD + xD by { MembersAppend(init, last, th, D); }
    LandsOnce(last, th);
    PartitionBag(s, th);
    PartitionBag(init, th);
    UnionRegroup(bS, bA, bB, bC, bD, xS, xA, xB, xC, xD);
  }

  /** What the row e adds to tier t: itself if it classifies there, else nothing. */
  function Landing(e: Entry, th: Thresholds, t: Tier): multiset<Entry>
  {
    if Classify(e.1, th) == t then multiset{e} else multiset{}
  }

  /** Every row lands in exactly one tier. */
  lemma LandsOnce(e: Entry, th: Thresholds)
    ensures Landing(e, th, S) + Landing(e, th, A) + Landing(e, th, B) + Landing(e, th, C)
          + Landing(e, th, D) == multiset{e}
  {
    match Classify(e.1, th)
    case S => case A => case B => case C => case D =>
  }

  /** Five bags, each with an addition, regrouped: the bags first, then the additions. */
  lemma UnionRegroup<T>(a: multiset<T>, b: multiset<T>, c: multiset<T>, d: multiset<T>, e: multiset<T>,
                        a': multiset<T>, b': multiset<T>, c': multiset<T>, d': multiset<T>, e': multiset<T>)
    ensures (a + a') + (b + b') + (c + c') + (d + d') + (e + e')
         == (a + b + c + d + e) + (a' + b' + c' + d' + e')
  {
  }

  /** The rows of the five tier lists, counted tier by tier. */
  lemma PartitionBag(s: seq<Entry>, th: Thresholds)
    ensures multiset(Partition(s, th))
         == multiset(Members(s, th, S)) + multiset(Members(s, th, A)) + multiset(Members(s, th, B))
          + multiset(Members(s, th, C)) + multiset(Members(s, th, D))
  {
  }

  /** Within a tier, the rows of one score come in table order, and they
      are all the rows of that score when the score belongs to the tier. */
  lemma {:induction false} MembersWithScore(s: seq<Entry>, th: Thresholds, t: Tier, v: int)
    ensures WithScore(Members(s, th, t), v)
         == if Classify(v, th) == t then WithScore(s, v) else []
  {
    if s != [] {
      var init, last := s[..|s| - 1], s[|s| - 1];
      var tail := if Classify(last.1, th) == t then [last] else [];
      MembersWithScore(init, th, t, v);
      assert s == init + [last];
      WithScoreAppend(Members(init, th, t), tail, v);
      WithScoreAppend(init, [last], v);
      assert WithScore([last], v) == if last.1 == v then [last] else [];
      assert WithScore(tail, v) == if last.1 == v && Classify(last.1, th) == t then [last] else [];
    }
  }

  /** Every row of a higher tier outscores every row of a lower one. */
  lemma TiersSeparated(s: seq<Entry>, th: Thresholds, t1: Tier, t2: Tier, e1: Entry, e2: Entry)
    requires Descending(th) && Rank(t1) < Rank(t2)
    requires e1 in Members(s, th, t1) && e2 in Members(s, th, t2)
    ensures e1.1 > e2.1
  {
    MembersIn(s, th, t1, e1);
    MembersIn(s, th, t2, e2);
    if e1.1 <= e2.1 {
      ClassifyMonotone(e1.1, e2.1, th);
    }
  }

  /** The tier loop: every row is appended to the list of the first tier
      whose cut its score reaches. */
  method ClassifyAll(scores: seq<Entry>, th: Thresholds) returns (tiers: map<Tier, seq<Entry>>)
    ensures forall t: Tier :: t in tiers && tiers[t] == Members(scores, th, t)
  {
    tiers := map[S := [], A := [], B := [], C := [], D := []];
    forall t: Tier
      ensures t in tiers && tiers[t] == Members(scores[..0], th, t)
    {
      TierCases(t);
    }
    for i := 0 to |scores|
      invariant forall t: Tier :: t in tiers && tiers[t] == Members(scores[..i], th, t)
    {
      var (hero, score) := scores[i];
      assert scores[..i + 1] == scores[..i] + [(hero, score)];
      forall t: Tier
        ensures Members(scores[..i + 1], th, t)
             == Members(scores[..i], th, t) + (if Classify(score, th) == t then [(hero, score)] else [])
      {
        MembersAppend(scores[..i], (hero, score), th, t);
      }
      if score as real >= th.s {
        tiers := tiers[S := tiers[S] + [(hero, score)]];
      } else if score as real >= th.a {
        tiers := tiers[A := tiers[A] + [(hero, score)]];
      } else if score as real >= th.bLower {
        tiers := tiers[B := tiers[B] + [(hero, score)]];
      } else if score as real >= th.c {
        tiers := tiers[C := tiers[C] + [(hero, score)]];
      } else {
        tiers := tiers[D := tiers[D] + [(hero, score)]];
      }
    }
    assert scores[..|scores|] == scores;
  }

  /** The per-tier sort: each tier list, in dictionary order, is replaced
      by its rows sorted by score from high to low. */
  method SortTiers(tiers: map<Tier, seq<Entry>>) returns (sorted: map<Tier, seq<Entry>>)
    requires forall t: Tier :: t in tiers
    ensures forall t: Tier :: t in sorted && sorted[t] == SortByScore(tiers[t], true)
    ensures sorted.Keys == tiers.Keys
  {
    sorted := tiers;
    for k := 0 to |TierOrder|
      invariant sorted.Keys == tiers.Keys
      invariant forall t: Tier :: Rank(t) < k ==> sorted[t] == SortByScore(tiers[t], true)
      invariant forall t: Tier :: Rank(t) >= k ==> sorted[t] == tiers[t]
    {
      var t := TierOrder[k];
      sorted := sorted[t := SortByScore(sorted[t], true)];
    }
  }

  lemma NameSetAppend(s: seq<Entry>, e: Entry)
    ensures NameSet(s + [e]) == NameSet(s) + {e.0}
  {
    forall h | h in NameSet(s + [e])
      ensures h in NameSet(s) + {e.0}
    {
      var x :| x in s + [e] && x.0 == h;
    }
  }

  /** h occurs in one of the tiers before position k of TierOrder. */
  ghost predicate InEarlierTier(tiers: map<Tier, seq<Entry>>, h: string, k: nat)
    requires forall t: Tier :: t in tiers
  {
    exists t: Tier :: Rank(t) < k && h in NameSet(tiers[t])
  }

  /** The inner loop of `hero_to_tier`: every hero of one tier list is
      mapped to that tier; every other entry stays as it was. */
  method MapTierHeroes(m: map<string, Tier>, list: seq<Entry>, tier: Tier)
    returns (m': map<string, Tier>)
    ensures forall h :: h in m' <==> h in m || h in NameSet(list)
    ensures forall h :: h in NameSet(list) ==> m'[h] == tier
    ensures forall h :: h in m && h !in NameSet(list) ==> m'[h] == m[h]
  {
    m' := m;
    for i := 0 to |list|
      invariant forall h :: h in m' <==> h in m || h in NameSet(list[..i])
      invariant forall h :: h in NameSet(list[..i]) ==> m'[h] == tier
      invariant forall h :: h in m && h !in NameSet(list[..i]) ==> m'[h] == m[h]
    {
      var (hero, _) := list[i];
      assert list[..i + 1] == list[..i] + [list[i]];
      NameSetAppend(list[..i], list[i]);
      m' := m'[hero := tier];
    }
    assert list[..|list|] == list;
  }

  /** `hero_to_tier`: the tiers are visited in dictionary order and every
      hero of each list is mapped to that tier, so a hero listed twice
      keeps the last tier it was seen in. */
  method HeroToTier(tiers: map<Tier, seq<Entry>>) returns (m: map<string, Tier>)
    requires forall t: Tier :: t in tiers
    ensures forall h :: h in m <==> exists t: Tier :: h in NameSet(tiers[t])
    ensures forall h :: h in m ==> h in NameSet(tiers[m[h]])
    ensures forall h, t: Tier :: h in m && Rank(m[h]) < Rank(t) ==> h !in NameSet(tiers[t])
  {
    m := map[];
    for k := 0 to |TierOrder|
      invariant forall h :: h in m <==> InEarlierTier(tiers, h, k)
      invariant forall h :: h in m ==> Rank(m[h]) < k && h in NameSet(tiers[m[h]])
      invariant forall h, t: Tier :: h in m && Rank(m[h]) < Rank(t) < k ==> h !in NameSet(tiers[t])
    {
      var tier := TierOrder[k];
      assert Rank(tier) == k;
      ghost var before := m;
      m := MapTierHeroes(m, tiers[tier], tier);
      forall h | h in m
        ensures Rank(m[h]) < k + 1 && h in NameSet(tiers[m[h]])
      {
        if h !in NameSet(tiers[tier]) {
          assert h in before && m[h] == before[h];
        }
      }
      forall h, t: Tier | h in m && Rank(m[h]) < Rank(t) < k + 1
        ensures h !in NameSet(tiers[t])
      {
        if h !in NameSet(tiers[tier]) {
          assert h in before && m[h] == before[h];
        }
      }
      forall h
        ensures h in m <==> InEarlierTier(tiers, h, k + 1)
      {
        if InEarlierTier(tiers, h, k + 1) {
          var t: Tier :| Rank(t) < k + 1 && h in NameSet(tiers[t]);
          if Rank(t) < k {
            assert InEarlierTier(tiers, h, k);
          }
        }
        if h in NameSet(tiers[tier]) {
          assert Rank(tier) < k + 1;
        }
        if InEarlierTier(tiers, h, k) {
          var t: Tier :| Rank(t) < k && h in NameSet(tiers[t]);
          assert Rank(t) < k + 1;
        }
      }
    }
  }

  /** The tier loop over two tables one after the other appends to each
      tier what it would append for each table on its own. */
  lemma {:induction false} MembersConcat(a: seq<Entry>, b: seq<Entry>, th: Thresholds, t: Tier)
    ensures Members(a + b, th, t) == Members(a, th, t) + Members(b, th, t)
  {
    if b == [] {
      assert a + b == a;
    } else {
      var init, last := b[..|b| - 1], b[|b| - 1];
      var tail := if Classify(last.1, th) == t then [last] else [];
      assert a + b == (a + init) + [last];
      assert b == init + [last];
      MembersAppend(a + init, last, th, t);
      MembersConcat(a, init, th, t);
      MembersAppend(init, last, th, t);
      assert Members(a + b, th, t) == (Members(a, th, t) + Members(init, th, t)) + tail;
    }
  }

  /** Every row classified into t is in tier t. */
  lemma {:induction false} MembersAll(s: seq<Entry>, th: Thresholds, t: Tier)
    requires forall i :: 0 <= i < |s| ==> Classify(s[i].1, th) == t
    ensures Members(s, th, t) == s
  {
    if s != [] {
      MembersAll(s[..|s| - 1], th, t);
      assert s == s[..|s| - 1] + [s[|s| - 1]];
    }
  }

  /** A tier into which no row classifies stays empty. */
  lemma {:induction false} MembersNone(s: seq<Entry>, th: Thresholds, t: Tier)
    requires forall i :: 0 <= i < |s| ==> Classify(s[i].1, th) != t
    ensures Members(s, th, t) == []
  {
    if s != [] {
      MembersNone(s[..|s| - 1], th, t);
    }
  }

  /** The sorted tier t: the tier list after `sorted(..., reverse=True)`. */
  function SortedTier(s: seq<Entry>, th: Thresholds, t: Tier): seq<Entry>
  {
    SortByScore(Members(s, th, t), true)
  }

  /** Sorting the tiers loses and duplicates nothing either: the five
      sorted lists together still hold exactly the rows of the table. */
  lemma SortedTiersPermute(s: seq<Entry>, th: Thresholds)
    ensures multiset(SortedTier(s, th, S) + SortedTier(s, th, A) + SortedTier(s, th, B)
                     + SortedTier(s, th, C) + SortedTier(s, th, D)) == multiset(s)
  {
    PartitionPermutes(s, th);
    SortPermutes(Members(s, th, S), true);
    SortPermutes(Members(s, th, A), true);
    SortPermutes(Members(s, th, B), true);
    SortPermutes(Members(s, th, C), true);
    SortPermutes(Members(s, th, D), true);
  }

  /** A row is in the sorted tier t exactly when it is in the table and
      classifies as t. */
  lemma SortedTierIn(s: seq<Entry>, th: Thresholds, t: Tier, e: Entry)
    ensures e in SortedTier(s, th, t) <==> e in s && Classify(e.1, th) == t
  {
    SortPermutes(Members(s, th, t), true);
    MembersIn(s, th, t, e);
    assert e in SortedTier(s, th, t) <==> e in multiset(SortedTier(s, th, t));
    assert e in Members(s, th, t) <==> e in multiset(Members(s, th, t));
  }

  /** Each sorted tier runs from its highest score down, and rows of equal
      score stand in table order (the sort is stable and the tier loop
      appends in table order). */
  lemma SortedTierOrder(s: seq<Entry>, th: Thresholds, t: Tier, v: int)
    ensures Ordered(SortedTier(s, th, t), true)
    ensures WithScore(SortedTier(s, th, t), v)
         == if Classify(v, th) == t then WithScore(s, v) else []
  {
    SortOrdered(Members(s, th, t), true);
    SortStable(Members(s, th, t), true, v);
    MembersWithScore(s, th, t, v);
  }

  /** Every row of a higher sorted tier outscores every row of a lower one. */
  lemma SortedTiersSeparated(s: seq<Entry>, th: Thresholds, t1: Tier, t2: Tier, e1: Entry, e2: Entry)
    requires Descending(th) && Rank(t1) < Rank(t2)
    requires e1 in SortedTier(s, th, t1) && e2 in SortedTier(s, th, t2)
    ensures e1.1 > e2.1
  {
    SortedTierIn(s, th, t1, e1);
    SortedTierIn(s, th, t2, e2);
    MembersIn(s, th, t1, e1);
    MembersIn(s, th, t2, e2);
    TiersSeparated(s, th, t1, t2, e1, e2);
  }

  /** With y = k·x and c' = k·c for some k > 0, y >= c' is x >= c. */
  lemma ScaledCompare(x: real, y: real, c: real, c': real, k: real)
    requires k > 0.0 && y == k * x && c' == k * c
    ensures y >= c' <==> x >= c
  {
    if x >= c {
      assert y - c' == k * (x - c);
    } else {
      assert c' - y == k * (c - x);
    }
  }

  /** Scaling the mean and std by k scales every cut by k. */
  lemma ScaledCuts(mean: real, std: real, k: real)
    ensures ThresholdsFrom(k * mean, k * std)
         == Thresholds(k * ThresholdsFrom(mean, std).s, k * ThresholdsFrom(mean, std).a,
                       k * ThresholdsFrom(mean, std).bLower, k * ThresholdsFrom(mean, std).c)
  {
    assert k * (mean + 1.5 * std) == k * mean + 1.5 * (k * std);
    assert k * (mean + 0.5 * std) == k * mean + 0.5 * (k * std);
    assert k * (mean - 0.5 * std) == k * mean - 0.5 * (k * std);
    assert k * (mean - 1.5 * std) == k * mean - 1.5 * (k * std);
  }

  /** A score and cuts all scaled by the same k > 0 give the same tier. */
  lemma ClassifyScaled(x: int, y: int, th: Thresholds, th': Thresholds, k: real)
    requires k > 0.0 && y as real == k * x as real
    requires th'.s == k * th.s && th'.a == k * th.a
    requires th'.bLower == k * th.bLower && th'.c == k * th.c
    ensures Classify(y, th') == Classify(x, th)
  {
    ScaledCompare(x as real, y as real, th.s, th'.s, k);
    ScaledCompare(x as real, y as real, th.a, th'.a, k);
    ScaledCompare(x as real, y as real, th.bLower, th'.bLower, k);
    ScaledCompare(x as real, y as real, th.c, th'.c, k);
  }

  /** Every row of tier S or D lies at squared distance at least
      2.25·variance from the mean, so those two tiers together hold no
      more rows than there are scores that far out. */
  lemma OuterTiersAreFar(s: seq<Entry>, mean: real, std: real, variance: real)
    requires std >= 0.0 && std * std == variance
    ensures forall e :: e in s && Classify(e.1, ThresholdsFrom(mean, std)) in {S, D} ==>
              (e.1 as real - mean) * (e.1 as real - mean) >= 2.25 * variance
    ensures |Members(s, ThresholdsFrom(mean, std), S)| + |Members(s, ThresholdsFrom(mean, std), D)|
         <= FarCount(Values(s), mean, 2.25 * variance)
  {
    forall e | e in s && Classify(e.1, ThresholdsFrom(mean, std)) in {S, D}
      ensures (e.1 as real - mean) * (e.1 as real - mean) >= 2.25 * variance
    {
      ClassifyWithoutSquareRoot(e.1, mean, std, variance);
    }
    OuterTiersCount(s, mean, std, variance);
  }

  /** The count half of OuterTiersAreFar, by induction on the table. */
  lemma {:induction false} OuterTiersCount(s: seq<Entry>, mean: real, std: real, variance: real)
    requires std >= 0.0 && std * std == variance
    ensures |Members(s, ThresholdsFrom(mean, std), S)| + |Members(s, ThresholdsFrom(mean, std), D)|
         <= FarCount(Values(s), mean, 2.25 * variance)
  {
    if s != [] {
      var th := ThresholdsFrom(mean, std);
      var init, last := s[..|s| - 1], s[|s| - 1];
      OuterTiersCount(init, mean, std, variance);
      assert s == init + [last];
      MembersAppend(init, last, th, S);
      MembersAppend(init, last, th, D);
      assert Values(s) == Values(init) + [last.1];
      FarCountAppend(Values(init), last.1, mean, 2.25 * variance);
      ClassifyWithoutSquareRoot(last.1, mean, std, variance);
    }
  }
}
