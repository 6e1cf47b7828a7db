/** The scorer: a hero's score is the dot product of its attribute vector
    with the weighting vector, and the score table applies it to every hero
    of the hero table, in the table's order. */
module Scoring {

  /** A row of the hero table: the hero's name and its attribute vector. */
  type Hero = (string, seq<int>)

  /** A row of the score table: the hero's name and its score. */
  type Entry = (string, int)

  /** The only failure of scoring: numpy refuses the dot product of two
      vectors whose lengths differ (it names both lengths). */
  datatype Error = DimensionMismatch(attributes: nat, weights: nat)

  datatype Result<T> = Ok(value: T) | Err(error: Error)

  /** The hero table is a dictionary, so no name occurs twice. */
  predicate DistinctNames(heroes: seq<Hero>)
  {
    forall i, j :: 0 <= i < j < |heroes| ==> heroes[i].0 != heroes[j].0
  }

  /** The score table's names are distinct. */
  predicate DistinctEntries(s: seq<Entry>)
  {
    forall i, j :: 0 <= i < j < |s| ==> s[i].0 != s[j].0
  }

  /** `list(scores.values())`: the scores alone, in table order. */
  function Values(s: seq<Entry>): (xs: seq<int>)
    ensures |xs| == |s| && forall i :: 0 <= i < |s| ==> xs[i] == s[i].1
  {
    seq(|s|, i requires 0 <= i < |s| => s[i].1)
  }

  /** The sum of a[i] * b[i] over all positions. */
  function Dot(a: seq<int>, b: seq<int>): int
    requires |a| == |b|
  {
    if a == [] then 0 else a[0] * b[0] + Dot(a[1..], b[1..])
  }

  /** The vector with a 1 at position i and 0 elsewhere. */
  function Unit(n: nat, i: nat): (u: seq<int>)
    ensures |u| == n
  {
    seq(n, k => if k == i then 1 else 0)
  }

  /** `weight(hero, weighting)`: the dot product, or the error numpy raises
      when the two vectors are not of the same length. */
  function Weight(hero: seq<int>, weighting: seq<int>): (r: Result<int>)
    ensures r.Ok? <==> |hero| == |weighting|
    ensures r.Err? ==> r.error == DimensionMismatch(|hero|, |weighting|)
  {
    if |hero| == |weighting| then Ok(Dot(hero, weighting))
    else Err(DimensionMismatch(|hero|, |weighting|))
  }

  /** The score table: every hero, in table order, with its score. The
      comprehension stops at the first hero whose vector does not fit, so
      no partial table is ever produced. */
  function ScoreAll(heroes: seq<Hero>, weighting: seq<int>): (r: Result<seq<Entry>>)
    ensures r.Ok? <==> forall i :: 0 <= i < |heroes| ==> |heroes[i].1| == |weighting|
    ensures r.Ok? ==> |r.value| == |heroes|
    ensures r.Ok? ==> forall i :: 0 <= i < |heroes| ==>
              r.value[i] == (heroes[i].0, Dot(heroes[i].1, weighting))
    ensures r.Err? ==>
              exists i :: 0 <= i < |heroes| && |heroes[i].1| != |weighting| &&
                (r.error == DimensionMismatch(|heroes[i].1|, |weighting|)) &&
                (forall j :: 0 <= j < i ==> |heroes[j].1| == |weighting|)
  {
    if heroes == [] then Ok([])
    else
      match Weight(heroes[0].1, weighting)
      case Err(e) => Err(e)
      case Ok(x) =>
        match ScoreAll(heroes[1..], weighting)
        case Err(e) =>
          assert forall i :: 1 <= i < |heroes| ==> heroes[i] == heroes[1..][i - 1];
          Err(e)
        case Ok(rest) => Ok([(heroes[0].0, x)] + rest)
  }

  /** The score table inherits the distinct names of the hero table. */
  lemma ScoreAllKeepsNames(heroes: seq<Hero>, weighting: seq<int>)
    requires DistinctNames(heroes)
    requires ScoreAll(heroes, weighting).Ok?
    ensures DistinctEntries(ScoreAll(heroes, weighting).value)
  {
  }

  /** Changing one attribute changes the score by the change times that
      attribute's weight. */
  lemma {:induction false} DotUpdate(a: seq<int>, w: seq<int>, i: nat, x: int)
    requires |a| == |w| && i < |a|
    ensures Dot(a[i := x], w) == Dot(a, w) + (x - a[i]) * w[i]
  {
    if i == 0 {
      assert a[i := x][1..] == a[1..];
    } else {
      assert a[i := x][1..] == a[1..][i - 1 := x];
      DotUpdate(a[1..], w[1..], i - 1, x);
    }
  }

  /** An attribute whose weight is 0 has no effect on the score (the
      last four weights are fixed at 0, so the last four attributes never
      matter). */
  lemma ZeroWeightIgnored(a: seq<int>, w: seq<int>, i: nat, x: int)
    requires |a| == |w| && i < |a| && w[i] == 0
    ensures Dot(a[i := x], w) == Dot(a, w)
  {
    DotUpdate(a, w, i, x);
  }

  /** Weighting only attribute i with 1 scores every hero by that attribute. */
  lemma {:induction false} DotUnit(a: seq<int>, i: nat)
    requires i < |a|
    ensures Dot(a, Unit(|a|, i)) == a[i]
  {
    if i == 0 {
      DotZeroWeights(a[1..], Unit(|a|, 0)[1..]);
    } else {
      assert Unit(|a|, i)[1..] == Unit(|a| - 1, i - 1);
      DotUnit(a[1..], i - 1);
    }
  }

  /** Weights that are all 0 score every hero 0. */
  lemma {:induction false} DotZeroWeights(a: seq<int>, w: seq<int>)
    requires |a| == |w| && forall i :: 0 <= i < |w| ==> w[i] == 0
    ensures Dot(a, w) == 0
  {
    if a != [] {
      DotZeroWeights(a[1..], w[1..]);
    }
  }

  /** Multiplying every weight by k multiplies every score by k. */
  lemma {:induction false} DotScale(a: seq<int>, w: seq<int>, k: int)
    requires |a| == |w|
    ensures Dot(a, Scaled(w, k)) == k * Dot(a, w)
  {
    if a != [] {
      assert Scaled(w, k)[1..] == Scaled(w[1..], k);
      DotScale(a[1..], w[1..], k);
      assert a[0] * (k * w[0]) == k * (a[0] * w[0]);
    }
  }

  /** The weighting vector with every weight multiplied by k. */
  function Scaled(w: seq<int>, k: int): (r: seq<int>)
    ensures |r| == |w|
  {
    seq(|w|, i requires 0 <= i < |w| => k * w[i])
  }

  /** Multiplying every weight by k multiplies every hero's score by k and
      fails on exactly the same tables. */
  lemma ScaledWeighting(heroes: seq<Hero>, weighting: seq<int>, k: int)
    ensures ScoreAll(heroes, Scaled(weighting, k)).Ok? <==> ScoreAll(heroes, weighting).Ok?
    ensures ScoreAll(heroes, weighting).Ok? ==> forall i :: 0 <= i < |heroes| ==>
              ScoreAll(heroes, Scaled(weighting, k)).value[i]
                == (heroes[i].0, k * ScoreAll(heroes, weighting).value[i].1)
  {
    if ScoreAll(heroes, weighting).Ok? {
      forall i | 0 <= i < |heroes|
        ensures Dot(heroes[i].1, Scaled(weighting, k)) == k * Dot(heroes[i].1, weighting)
      {
        DotScale(heroes[i].1, weighting, k);
      }
    }
  }
}
