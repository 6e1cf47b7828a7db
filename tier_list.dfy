/** The dashboard's computation from start to end: score every hero, rank
    the scores, cut the population into five tiers, sort each tier, build
    the hero-to-tier dictionary and colour every bar of the ranking chart
    by its hero's tier. The sliders, the hero table and the chart itself
    stay outside: the weighting vector and the hero table are inputs, and
    the output is what the chart is drawn from. */
module TierList {
  import opened Scoring
  import opened Ranking
  import opened Statistics
  import opened Tiering

  datatype Colour = Red | Orange | Green | Blue | Purple

  /** `tier_colors`. */
  function TierColour(t: Tier): Colour
  {
    match t
    case S => Red
    case A => Orange
    case B => Green
    case C => Blue
    case D => Purple
  }

  /** `list(sorted_scores.keys())`. */
  function Names(s: seq<Entry>): (names: seq<string>)
    ensures |names| == |s| && forall i :: 0 <= i < |s| ==> names[i] == s[i].0
  {
    seq(|s|, i requires 0 <= i < |s| => s[i].0)
  }

  /** The four cuts of a non-empty score table, for the std the caller
      supplies. */
  function Cuts(s: seq<Entry>, std: real): Thresholds
    requires |s| > 0
  {
    ThresholdsFrom(Mean(Values(s)), std)
  }

  /** std is `np.std` of the scores whenever there are scores to take it of. */
  predicate StdFits(heroes: seq<Hero>, weighting: seq<int>, std: real)
  {
    var r := ScoreAll(heroes, weighting);
    r.Ok? && |r.value| > 0 ==> IsPopulationStd(Values(r.value), std)
  }

  /** Each tier has a colour of its own, so a bar's colour tells its tier. */
  lemma TierColoursDistinct(t: Tier, u: Tier)
    ensures TierColour(t) == TierColour(u) <==> t == u
  {
  }

  /** `bar_colors`: the names of the rows, in their order, each looked up
      in the dictionary and coloured by its tier. When the dictionary
      holds every row's name with the tier its score classifies into under
      the cuts th, every bar gets the colour of its own score's tier. */
  function BarColours(rows: seq<Entry>, heroToTier: map<string, Tier>, th: Thresholds): (r: seq<Colour>)
    requires forall j :: 0 <= j < |rows| ==>
               rows[j].0 in heroToTier && heroToTier[rows[j].0] == Classify(rows[j].1, th)
    ensures |r| == |rows|
    ensures forall i :: 0 <= i < |rows| ==> r[i] == TierColour(Classify(rows[i].1, th))
  {
    var names := Names(rows);
    seq(|names|, i requires 0 <= i < |names| => TierColour(heroToTier[names[i]]))
  }

  /** What the chart is drawn from. */
  datatype Dashboard = Dashboard(
    scores: seq<Entry>,
    sortedScores: seq<Entry>,
    tiers: map<Tier, seq<Entry>>,
    heroToTier: map<string, Tier>,
    barColours: seq<Colour>)

  /** A hero occurs in a sorted tier list exactly when some row of the
      score table has its name and classifies into that tier. */
  lemma SortedTierNames(s: seq<Entry>, th: Thresholds, t: Tier, h: string)
    ensures h in NameSet(SortByScore(Members(s, th, t), true))
        <==> exists e :: e in s && e.0 == h && Classify(e.1, th) == t
  {
    var sorted := SortByScore(Members(s, th, t), true);
    SortPermutes(Members(s, th, t), true);
    if h in NameSet(sorted) {
      var e :| e in sorted && e.0 == h;
      assert e in multiset(sorted);
      MembersIn(s, th, t, e);
    }
    if exists e :: e in s && e.0 == h && Classify(e.1, th) == t {
      var e :| e in s && e.0 == h && Classify(e.1, th) == t;
      MembersIn(s, th, t, e);
      assert e in multiset(Members(s, th, t));
      assert e in sorted;
    }
  }

  /** In a table with distinct names, the row named h is the only one. */
  lemma OnlyRowNamed(s: seq<Entry>, i: nat, e: Entry)
    requires DistinctEntries(s) && i < |s|
    requires e in s && e.0 == s[i].0
    ensures e == s[i]
  {
    var j :| 0 <= j < |s| && s[j] == e;
  }

  /** The dictionary the script builds maps exactly the heroes of the
      table, each to the tier its score classifies into. */
  lemma LookupIsClassify(s: seq<Entry>, th: Thresholds, tiers: map<Tier, seq<Entry>>,
                         m: map<string, Tier>)
    requires DistinctEntries(s)
    requires forall t: Tier :: t in tiers && tiers[t] == SortByScore(Members(s, th, t), true)
    requires forall h :: h in m <==> exists t: Tier :: h in NameSet(tiers[t])
    requires forall h :: h in m ==> h in NameSet(tiers[m[h]])
    ensures m.Keys == NameSet(s)
    ensures forall i :: 0 <= i < |s| ==> s[i].0 in m && m[s[i].0] == Classify(s[i].1, th)
  {
    forall h | h in m
      ensures h in NameSet(s)
    {
      SortedTierNames(s, th, m[h], h);
    }
    forall h | h in NameSet(s)
      ensures h in m
    {
      var e :| e in s && e.0 == h;
      var t := Classify(e.1, th);
      SortedTierNames(s, th, t, h);
    }
    forall i | 0 <= i < |s|
      ensures s[i].0 in m && m[s[i].0] == Classify(s[i].1, th)
    {
      var h := s[i].0;
      assert s[i] in s;
      assert h in NameSet(s);
      SortedTierNames(s, th, m[h], h);
      var e :| e in s && e.0 == h && Classify(e.1, th) == m[h];
      OnlyRowNamed(s, i, e);
    }
  }

  /** The script from the mean and deviation to `hero_to_tier`: cut the
      scores into tiers, sort each tier from high to low, and record every
      hero's tier. An empty table gives five empty tiers (its mean and
      deviation are never compared with anything). */
  method PartitionScores(scores: seq<Entry>, std: real)
    returns (tiers: map<Tier, seq<Entry>>, heroToTier: map<string, Tier>)
    requires DistinctEntries(scores)
    requires |scores| > 0 ==> IsPopulationStd(Values(scores), std)
    ensures forall t: Tier :: t in tiers
    ensures |scores| > 0 ==> forall t: Tier ::
              tiers[t] == SortByScore(Members(scores, Cuts(scores, std), t), true)
    ensures |scores| == 0 ==> forall t: Tier :: tiers[t] == []
    ensures heroToTier.Keys == NameSet(scores)
    ensures forall i :: 0 <= i < |scores| ==>
              scores[i].0 in heroToTier &&
              heroToTier[scores[i].0] == Classify(scores[i].1, Cuts(scores, std))
  {
    ghost var th := ThresholdsFrom(0.0, std);
    if |scores| == 0 {
      tiers := map[S := [], A := [], B := [], C := [], D := []];
      forall t: Tier
        ensures t in tiers && tiers[t] == Members(scores, th, t)
      {
        TierCases(t);
      }
    } else {
      var meanScore := Mean(Values(scores));
      var cuts := ThresholdsFrom(meanScore, std);
      tiers := ClassifyAll(scores, cuts);
      th := cuts;
    }
    tiers := SortTiers(tiers);
    heroToTier := HeroToTier(tiers);
    LookupIsClassify(scores, th, tiers, heroToTier);
  }

  /** The script from `scores` to `bar_colors`. The score table fails as a
      whole on the first hero whose vector does not fit the weighting. */
  method BuildDashboard(heroes: seq<Hero>, weighting: seq<int>, std: real)
    returns (r: Result<Dashboard>)
    requires DistinctNames(heroes)
    requires StdFits(heroes, weighting, std)
    ensures r.Err? <==> ScoreAll(heroes, weighting).Err?
    ensures r.Err? ==> r.error == ScoreAll(heroes, weighting).error
    ensures r.Ok? ==> r.value.scores == ScoreAll(heroes, weighting).value
    ensures r.Ok? ==> r.value.sortedScores == SortByScore(r.value.scores, false)
    ensures r.Ok? ==> forall t: Tier :: t in r.value.tiers
    ensures r.Ok? && |heroes| > 0 ==> forall t: Tier ::
              r.value.tiers[t] == SortByScore(Members(r.value.scores, Cuts(r.value.scores, std), t), true)
    ensures r.Ok? && |heroes| == 0 ==> forall t: Tier :: r.value.tiers[t] == []
    ensures r.Ok? ==> r.value.heroToTier.Keys == NameSet(r.value.scores)
    ensures r.Ok? ==> forall i :: 0 <= i < |r.value.scores| ==>
              r.value.scores[i].0 in r.value.heroToTier &&
              r.value.heroToTier[r.value.scores[i].0]
                == Classify(r.value.scores[i].1, Cuts(r.value.scores, std))
    ensures r.Ok? ==> |r.value.barColours| == |r.value.sortedScores| == |heroes|
    ensures r.Ok? ==> forall i :: 0 <= i < |r.value.sortedScores| ==>
              r.value.barColours[i]
                == TierColour(Classify(r.value.sortedScores[i].1, Cuts(r.value.scores, std)))
  {
    var scored := ScoreAll(heroes, weighting);
    if scored.Err? {
      return Err(scored.error);
    }
    var scores := scored.value;
    ScoreAllKeepsNames(heroes, weighting);
    var sortedScores := SortByScore(scores, false);
    SortPermutes(scores, false);
    assert |sortedScores| == |scores| by {
      assert |multiset(sortedScores)| == |multiset(scores)|;
    }
    var tiers, heroToTier := PartitionScores(scores, std);

    forall i | 0 <= i < |sortedScores|
      ensures sortedScores[i].0 in heroToTier
      ensures heroToTier[sortedScores[i].0] == Classify(sortedScores[i].1, Cuts(scores, std))
    {
      assert sortedScores[i] in multiset(scores);
      var j :| 0 <= j < |scores| && scores[j] == sortedScores[i];
    }
    var cuts := if |scores| > 0 then Cuts(scores, std) else ThresholdsFrom(0.0, std);
    var colours := BarColours(sortedScores, heroToTier, cuts);
    r := Ok(Dashboard(scores, sortedScores, tiers, heroToTier, colours));
  }

  /** When every hero scores the same v, the deviation is 0, every cut
      equals v, and the first test (`score >= threshold_S`) already holds:
      every hero lands in S, in table order, and the other tiers stay empty.
      A table of one hero is the smallest case. */
  lemma UniformScoresAllInS(s: seq<Entry>, std: real, v: int)
    requires |s| > 0 && forall i :: 0 <= i < |s| ==> s[i].1 == v
    requires IsPopulationStd(Values(s), std)
    ensures SortedTier(s, Cuts(s, std), S) == s
    ensures forall t: Tier :: t != S ==> SortedTier(s, Cuts(s, std), t) == []
  {
    var th := Cuts(s, std);
    UniformPopulation(Values(s), v, std);
    assert th.s == v as real;
    MembersAll(s, th, S);
    SortUniform(s, true, v);
    forall t: Tier | t != S
      ensures SortedTier(s, th, t) == []
    {
      MembersNone(s, th, t);
    }
  }

  /** Some hero always reaches tier B or better (some score is at least
      the mean), and unless every score is equal some hero is in B or
      below (some score is at most the mean, below threshold_A). */
  lemma SomeHeroNearTheMiddle(s: seq<Entry>, std: real)
    requires IsPopulationStd(Values(s), std)
    ensures exists i :: 0 <= i < |s| && Rank(Classify(s[i].1, Cuts(s, std))) <= Rank(B)
    ensures std > 0.0 ==> exists i :: 0 <= i < |s| && Rank(Classify(s[i].1, Cuts(s, std))) >= Rank(B)
  {
    var xs := Values(s);
    MeanIsAttained(xs);
    var i :| 0 <= i < |xs| && xs[i] as real >= Mean(xs);
    assert Rank(Classify(s[i].1, Cuts(s, std))) <= Rank(B);
    var j :| 0 <= j < |xs| && xs[j] as real <= Mean(xs);
    assert std > 0.0 ==> Rank(Classify(s[j].1, Cuts(s, std))) >= Rank(B);
  }

  /** Chebyshev's inequality for the outer tiers: unless every score is
      equal, tiers S and D together hold at most 4/9 of the heroes, since
      each of their scores lies 1.5 standard deviations or more from the
      mean. */
  lemma OuterTiersAtMostFourNinths(s: seq<Entry>, std: real)
    requires IsPopulationStd(Values(s), std) && Variance(Values(s)) > 0.0
    ensures 9 * (|SortedTier(s, Cuts(s, std), S)| + |SortedTier(s, Cuts(s, std), D)|) <= 4 * |s|
  {
    var xs := Values(s);
    OuterTiersAreFar(s, Mean(xs), std, Variance(xs));
    FewFarFromTheMean(xs);
  }

  /** Scaling every score of a table by k > 0 scales its four cuts by k. */
  lemma ScaledTableCuts(s: seq<Entry>, s': seq<Entry>, k: int, std: real, std': real)
    requires k > 0 && |s| > 0 && |s'| == |s|
    requires forall i :: 0 <= i < |s| ==> s'[i].1 == k * s[i].1
    requires IsPopulationStd(Values(s), std) && IsPopulationStd(Values(s'), std')
    ensures Cuts(s', std').s == k as real * Cuts(s, std).s
    ensures Cuts(s', std').a == k as real * Cuts(s, std).a
    ensures Cuts(s', std').bLower == k as real * Cuts(s, std).bLower
    ensures Cuts(s', std').c == k as real * Cuts(s, std).c
  {
    var xs, ys := Values(s), Values(s');
    ScaledPopulation(xs, ys, k, std, std');
    ScaledCuts(Mean(xs), std, k as real);
  }

  /** A score table whose every score is k > 0 times the score of the same
      row of another table puts every row in the same tier as that one. */
  lemma ScaledTableKeepsTiers(s: seq<Entry>, s': seq<Entry>, k: int, std: real, std': real)
    requires k > 0 && |s| > 0 && |s'| == |s|
    requires forall i :: 0 <= i < |s| ==> s'[i].1 == k * s[i].1
    requires IsPopulationStd(Values(s), std) && IsPopulationStd(Values(s'), std')
    ensures forall i :: 0 <= i < |s| ==> Classify(s'[i].1, Cuts(s', std')) == Classify(s[i].1, Cuts(s, std))
  {
    var kr := k as real;
    var th, th' := Cuts(s, std), Cuts(s', std');
    ScaledTableCuts(s, s', k, std, std');
    forall i | 0 <= i < |s|
      ensures Classify(s'[i].1, th') == Classify(s[i].1, th)
    {
      assert s'[i].1 as real == kr * s[i].1 as real;
      ClassifyScaled(s[i].1, s'[i].1, th, th', kr);
    }
  }

  /** Multiplying every slider by the same k > 0 changes no hero's tier:
      scores, mean and std all scale by k, and so do the four cuts. */
  lemma ScalingKeepsTiers(heroes: seq<Hero>, weighting: seq<int>, k: int, std: real, std': real)
    requires k > 0 && |heroes| > 0
    requires ScoreAll(heroes, weighting).Ok?
    requires IsPopulationStd(Values(ScoreAll(heroes, weighting).value), std)
    requires StdFits(heroes, Scaled(weighting, k), std')
    ensures ScoreAll(heroes, Scaled(weighting, k)).Ok?
    ensures forall i :: 0 <= i < |heroes| ==>
              (Classify(ScoreAll(heroes, Scaled(weighting, k)).value[i].1,
                        Cuts(ScoreAll(heroes, Scaled(weighting, k)).value, std'))
               == Classify(ScoreAll(heroes, weighting).value[i].1,
                           Cuts(ScoreAll(heroes, weighting).value, std)))
  {
    ScaledWeighting(heroes, weighting, k);
    var s := ScoreAll(heroes, weighting).value;
    var s' := ScoreAll(heroes, Scaled(weighting, k)).value;
    ScaledTableKeepsTiers(s, s', k, std, std');
  }
}
