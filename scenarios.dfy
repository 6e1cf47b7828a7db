/** Worked examples: the default sliders on two heroes of the hero table,
    a vector of the wrong length, a table of one hero, and a symmetric
    table of five heroes whose tiers can be computed by hand. */
module Scenarios {
  import opened Scoring
  import opened Ranking
  import opened Statistics
  import opened Tiering
  import opened TierList

  /** The sliders at their initial values, followed by the four weights
      that are fixed at 0. */
  const DefaultWeighting: seq<int> := [4, 2, 2, 2, 1, 2, 3, 1, 2, 2, 1, 0, 0, 0, 0]

  const CaptainMarvel: seq<int> := [4, 3, -1, 3, 4, 2, 4, 1, 1, 2, 0, 0, 5, 1, 0]
  const IronMan: seq<int> := [4, -5, 4, 2, 5, 2, 0, 3, 0, 0, 1, 4, -5, 0, 5]

  /** The default sliders score Captain Marvel 53. */
  lemma CaptainMarvelScore()
    ensures Weight(CaptainMarvel, DefaultWeighting) == Ok(53)
  {
    var a, w := CaptainMarvel, DefaultWeighting;
    DefaultWeightingEntries();
    assert a[0] == 4 && a[1] == 3 && a[2] == -1 && a[3] == 3 && a[4] == 4 && a[5] == 2;
    assert a[6] == 4 && a[7] == 1 && a[8] == 1 && a[9] == 2 && a[10] == 0;
    assert 4 * a[0] + 2 * a[1] + 2 * a[2] + 2 * a[3] + a[4] + 2 * a[5]
         + 3 * a[6] + a[7] + 2 * a[8] + 2 * a[9] + a[10] == 53;
    DefaultScore(a, w);
  }

  /** The default sliders score Iron Man 31. */
  lemma IronManScore()
    ensures Weight(IronMan, DefaultWeighting) == Ok(31)
  {
    var a, w := IronMan, DefaultWeighting;
    DefaultWeightingEntries();
    assert a[0] == 4 && a[1] == -5 && a[2] == 4 && a[3] == 2 && a[4] == 5 && a[5] == 2;
    assert a[6] == 0 && a[7] == 3 && a[8] == 0 && a[9] == 0 && a[10] == 1;
    assert 4 * a[0] + 2 * a[1] + 2 * a[2] + 2 * a[3] + a[4] + 2 * a[5]
         + 3 * a[6] + a[7] + 2 * a[8] + 2 * a[9] + a[10] == 31;
    DefaultScore(a, w);
  }

  /** The default weighting, entry by entry. */
  lemma DefaultWeightingEntries()
    ensures var w := DefaultWeighting;
      |w| == 15 && w[0] == 4 && w[1] == 2 && w[2] == 2 && w[3] == 2 && w[4] == 1 && w[5] == 2 &&
      w[6] == 3 && w[7] == 1 && w[8] == 2 && w[9] == 2 && w[10] == 1 &&
      forall i :: 11 <= i < 15 ==> w[i] == 0
  {
  }

  /** Under the default sliders a hero scores 4·economy + 2·tempo +
      2·card value + 2·survivability + villain damage + 2·threat removal +
      3·reliability + minion control + 2·control + 2·support + unique
      builds; the last four attributes do not count. */
  lemma DefaultScore(a: seq<int>, w: seq<int>)
    requires |a| == |w| == 15
    requires w[0] == 4 && w[1] == 2 && w[2] == 2 && w[3] == 2 && w[4] == 1 && w[5] == 2
    requires w[6] == 3 && w[7] == 1 && w[8] == 2 && w[9] == 2 && w[10] == 1
    requires forall i :: 11 <= i < 15 ==> w[i] == 0
    ensures Dot(a, w)
         == 4 * a[0] + 2 * a[1] + 2 * a[2] + 2 * a[3] + a[4] + 2 * a[5]
          + 3 * a[6] + a[7] + 2 * a[8] + 2 * a[9] + a[10]
  {
    DotZeroWeights(a[11..], w[11..]);
    DotFrom(a, w, 10); DotFrom(a, w, 9); DotFrom(a, w, 8); DotFrom(a, w, 7);
    DotFrom(a, w, 6); DotFrom(a, w, 5); DotFrom(a, w, 4); DotFrom(a, w, 3);
    DotFrom(a, w, 2); DotFrom(a, w, 1); DotFrom(a, w, 0);
    assert a[0..] == a && w[0..] == w;
  }

  /** One step of the dot product, from position k onwards. */
  lemma DotFrom(a: seq<int>, b: seq<int>, k: nat)
    requires |a| == |b| && k < |a|
    ensures Dot(a[k..], b[k..]) == a[k] * b[k] + Dot(a[k + 1..], b[k + 1..])
  {
    assert a[k..][1..] == a[k + 1..];
    assert b[k..][1..] == b[k + 1..];
  }

  /** A hero whose vector lost its last attribute stops the whole score
      table: the error names both lengths and no table comes out, even
      though the hero before it scores fine. */
  lemma ShortVectorStopsTheTable()
    ensures ScoreAll([("Captain Marvel", CaptainMarvel), ("Iron Man", IronMan[..14])], DefaultWeighting)
         == Err(DimensionMismatch(14, 15))
  {
    var heroes := [("Captain Marvel", CaptainMarvel), ("Iron Man", IronMan[..14])];
    assert heroes[1..] == [("Iron Man", IronMan[..14])];
    assert ScoreAll(heroes[1..], DefaultWeighting) == Err(DimensionMismatch(14, 15)) by {
      assert heroes[1..][1..] == [];
    }
  }

  /** A table of one hero: the deviation is 0 and the hero is in S. */
  lemma SingleHeroInS(e: Entry, std: real)
    requires IsPopulationStd([e.1], std)
    ensures SortedTier([e], Cuts([e], std), S) == [e]
    ensures forall t: Tier :: t != S ==> SortedTier([e], Cuts([e], std), t) == []
  {
    assert Values([e]) == [e.1];
    UniformScoresAllInS([e], std, e.1);
  }

  /** Five heroes scoring 10, 5, 0, -5 and -10. */
  const Five: seq<Entry> := [("A", 10), ("B", 5), ("C", 0), ("D", -5), ("E", -10)]

  /** Mean 0 and variance 50 (std about 7.07): the cuts are about 10.61,
      3.54, -3.54 and -10.61, so S and D stay empty (10 and -10 fall just
      inside the outer cuts), 10 and 5 are in A, 0 in B, -5 and -10 in C. */
  lemma FiveHeroTiers(std: real)
    requires IsPopulationStd(Values(Five), std)
    ensures SortedTier(Five, Cuts(Five, std), S) == []
    ensures SortedTier(Five, Cuts(Five, std), A) == [("A", 10), ("B", 5)]
    ensures SortedTier(Five, Cuts(Five, std), B) == [("C", 0)]
    ensures SortedTier(Five, Cuts(Five, std), C) == [("D", -5), ("E", -10)]
    ensures SortedTier(Five, Cuts(Five, std), D) == []
  {
    FivePopulation();
    var th := Cuts(Five, std);
    assert th == ThresholdsFrom(0.0, std);
    FiveClassified(std);
    FiveMembers(Five, th);
    SortOfOrdered([("A", 10), ("B", 5)], true);
    SortOfOrdered([("C", 0)], true);
    SortOfOrdered([("D", -5), ("E", -10)], true);
  }

  /** The five scores have mean 0 and variance 250 / 5 = 50. */
  lemma FivePopulation()
    ensures Mean(Values(Five)) == 0.0 && Variance(Values(Five)) == 50.0
  {
    var xs := Values(Five);
    assert xs == [10, 5, 0, -5, -10];
    SumFrom(xs, 0); SumFrom(xs, 1); SumFrom(xs, 2); SumFrom(xs, 3); SumFrom(xs, 4);
    assert xs[0..] == xs && xs[5..] == [];
    assert Mean(xs) == 0.0;
    DeviationsFrom(xs, 0.0, 0); DeviationsFrom(xs, 0.0, 1); DeviationsFrom(xs, 0.0, 2);
    DeviationsFrom(xs, 0.0, 3); DeviationsFrom(xs, 0.0, 4);
  }

  /** The tier of each of the five scores, for the std whose square is 50. */
  lemma FiveClassified(std: real)
    requires std >= 0.0 && std * std == 50.0
    ensures Classify(10, ThresholdsFrom(0.0, std)) == A && Classify(5, ThresholdsFrom(0.0, std)) == A
    ensures Classify(0, ThresholdsFrom(0.0, std)) == B
    ensures Classify(-5, ThresholdsFrom(0.0, std)) == C && Classify(-10, ThresholdsFrom(0.0, std)) == C
  {
    ClassifyWithoutSquareRoot(10, 0.0, std, 50.0);
    ClassifyWithoutSquareRoot(5, 0.0, std, 50.0);
    ClassifyWithoutSquareRoot(0, 0.0, std, 50.0);
    ClassifyWithoutSquareRoot(-5, 0.0, std, 50.0);
    ClassifyWithoutSquareRoot(-10, 0.0, std, 50.0);
  }

  /** The tier loop on a table of five heroes whose scores classify into
      A, A, B, C and C. */
  lemma FiveMembers(s: seq<Entry>, th: Thresholds)
    requires |s| == 5
    requires Classify(s[0].1, th) == A && Classify(s[1].1, th) == A && Classify(s[2].1, th) == B
    requires Classify(s[3].1, th) == C && Classify(s[4].1, th) == C
    ensures Members(s, th, S) == [] && Members(s, th, D) == []
    ensures Members(s, th, A) == [s[0], s[1]]
    ensures Members(s, th, B) == [s[2]]
    ensures Members(s, th, C) == [s[3], s[4]]
  {
    var top, mid, low := s[..2], s[2..3], s[3..];
    assert s == top + mid + low;
    forall t: Tier
      ensures Members(s, th, t) == Members(top, th, t) + Members(mid, th, t) + Members(low, th, t)
    {
      MembersConcat(top + mid, low, th, t);
      MembersConcat(top, mid, th, t);
    }
    forall t: Tier | t != A
      ensures Members(top, th, t) == []
    {
      MembersNone(top, th, t);
    }
    forall t: Tier | t != B
      ensures Members(mid, th, t) == []
    {
      MembersNone(mid, th, t);
    }
    forall t: Tier | t != C
      ensures Members(low, th, t) == []
    {
      MembersNone(low, th, t);
    }
    MembersAll(top, th, A);
    MembersAll(mid, th, B);
    MembersAll(low, th, C);
  }

  /** One step of the sum, from position k onwards. */
  lemma SumFrom(xs: seq<int>, k: nat)
    requires k < |xs|
    ensures Sum(xs[k..]) == xs[k] + Sum(xs[k + 1..])
  {
    assert xs[k..][1..] == xs[k + 1..];
  }

  /** One step of the squared deviations, from position k onwards. */
  lemma DeviationsFrom(xs: seq<int>, m: real, k: nat)
    requires k < |xs|
    ensures SquaredDeviations(xs[k..], m)
         == (xs[k] as real - m) * (xs[k] as real - m) + SquaredDeviations(xs[k + 1..], m)
  {
    assert xs[k..][1..] == xs[k + 1..];
  }
}
