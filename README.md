# Marvel Champions hero tier list: verified model of the tier computation

The dashboard scores every hero as the dot product of the hero's attribute vector
with a weighting vector. The weighting comes from eleven sliders followed by four
fixed zeros. The dashboard then:

- ranks the scores from low to high;
- takes the population mean and standard deviation of the scores;
- cuts the population at mean ± 0.5·std and mean ± 1.5·std into five tiers
  (S, A, B, C, D; the first cut a score reaches wins, every test is `>=`);
- sorts each tier from high to low;
- builds a hero-to-tier dictionary from the sorted tiers;
- colours each bar of the ranking chart by its hero's tier.

This project models that computation and proves properties of it.

| file | module | models |
|---|---|---|
| `scoring.dfy` | `Scoring` | `weight` (the dot product, or numpy's length error) and the score table |
| `ranking.dfy` | `Ranking` | Python's stable `sorted(..., key=score, reverse=...)` on score rows |
| `statistics.dfy` | `Statistics` | `np.mean`, the population variance behind `np.std`, the four cuts, Chebyshev's bound |
| `tiering.dfy` | `Tiering` | the tier loop, the per-tier sort and `hero_to_tier`, as loops over maps |
| `tier_list.dfy` | `TierList` | the whole script from the hero table to `bar_colors` |
| `scenarios.dfy` | `Scenarios` | worked examples: default sliders, a short vector, one hero, five heroes |

Modelling choices:

- **Exact arithmetic.** Scores are unbounded integers. The mean, the variance and
  the cuts are exact reals.
- **The standard deviation is a parameter.** `IsPopulationStd` requires it to be
  non-negative with its square equal to the variance. `StdUnique` shows that
  determines it.
- **A square-root-free reference.** `ClassifyExact` compares squared distances
  from the mean with the variance. `ClassifyWithoutSquareRoot` proves it gives
  the same tier as the cuts built from the deviation.
- **Loops stay loops.** The loops of the script are methods over `map` values:
  `ClassifyAll`, `SortTiers`, `MapTierHeroes` and `HeroToTier`. Each is proved
  against a specification function such as `Members`, `SortByScore` or `NameSet`.
- **Lengths.** The hero table is a sequence of (name, vector) pairs with distinct
  names, since it is a dictionary. A vector whose length differs from the
  weighting's makes the score table fail as a whole, with
  `DimensionMismatch(attributes, weights)` for the first such hero.

Two edge cases of the code:

- **An empty hero table raises no error.** `np.mean` and `np.std` of no scores
  are NaN, but they are never compared with anything: the tier loop has no rows,
  so the result is five empty tiers and an empty dictionary.
- **Five heroes scoring 10, 5, 0, -5 and -10.** The mean is 0 and the variance 50,
  so the cuts are about ±3.54 and ±10.61. Both 10 and -10 fall just inside the
  outer cuts. The tiers are A = [10, 5], B = [0] and C = [-5, -10]; S and D stay
  empty. `Scenarios.FiveHeroTiers` proves this.

## Model

| member | source | states |
|---|---|---|
| Scoring.Dot | dashboard_hero_tier_list.py:120 | the sum of the products of equal-position entries, as `np.dot` computes it; DotUpdate, DotUnit, DotZeroWeights and DotScale state its properties |
| Scoring.Weight | dashboard_hero_tier_list.py:119-120 | the score exists exactly when the two vectors have the same length; otherwise the error names both lengths |
| Scoring.ScoreAll | dashboard_hero_tier_list.py:123 | succeeds exactly when every hero's vector fits the weighting; then row i is hero i's name with its dot product, in table order; otherwise the error is that of the first hero that does not fit, and every hero before it fits |
| Scoring.Values | dashboard_hero_tier_list.py:127 | the scores of the table alone, one per row and in row order, as `list(scores.values())` gives them |
| Scoring.ScoreAllKeepsNames | dashboard_hero_tier_list.py:51-123 | the score table's names are distinct because the hero table is a dictionary |
| Scoring.DotUpdate | dashboard_hero_tier_list.py:119-120 | changing one attribute changes the score by the change times that attribute's weight |
| Scoring.ZeroWeightIgnored | dashboard_hero_tier_list.py:46-48 | an attribute whose weight is 0 (the last four, always) has no effect on the score |
| Scoring.DotUnit | dashboard_hero_tier_list.py:119-120 | a weighting of 1 on one attribute and 0 elsewhere scores each hero by that attribute |
| Scoring.DotZeroWeights | dashboard_hero_tier_list.py:119-120 | an all-zero weighting scores every hero 0 |
| Scoring.DotScale | dashboard_hero_tier_list.py:119-120 | multiplying every weight by k multiplies the score by k |
| Scoring.ScaledWeighting | dashboard_hero_tier_list.py:123 | scaling the weighting by k fails on exactly the same tables and multiplies every hero's score by k |
| Ranking.SortByScore | dashboard_hero_tier_list.py:124 | a stable insertion sort on the score; it keeps the number of rows, and SortPermutes, SortOrdered and SortStable say it returns the same rows, in score order, with equal scores in input order |
| Ranking.SortPermutes | dashboard_hero_tier_list.py:124 | the sort returns the same rows, each as often as in the input |
| Ranking.SortOrdered | dashboard_hero_tier_list.py:124 | the sort returns rows in non-decreasing score order (non-increasing with `reverse`) |
| Ranking.SortStable | dashboard_hero_tier_list.py:124 | for every score, the rows that have it come out in input order (Python's sort is stable) |
| Ranking.SortUniform | dashboard_hero_tier_list.py:124 | rows that all share one score come out unchanged |
| Ranking.SortOfOrdered | dashboard_hero_tier_list.py:149 | rows already in order come out unchanged |
| Ranking.SortIdempotent | dashboard_hero_tier_list.py:149 | sorting twice gives the same rows as sorting once |
| Statistics.Mean | dashboard_hero_tier_list.py:128 | the sum of the scores divided by their number; MeanIsAttained, UniformPopulation and MeanScaled state its properties |
| Statistics.SquaredDeviations | dashboard_hero_tier_list.py:129 | the sum of squared deviations is never negative |
| Statistics.Variance | dashboard_hero_tier_list.py:129 | the population variance (divided by n) is never negative |
| Statistics.ThresholdsFrom | dashboard_hero_tier_list.py:130-133 | the cuts descend when std >= 0; they all equal the mean when std = 0; neighbouring cuts are one std apart and lie symmetric about the mean |
| Statistics.IsPopulationStd | dashboard_hero_tier_list.py:129 | `np.std` of a non-empty table: a number that is non-negative and whose square is the variance; StdUnique shows at most one number qualifies |
| Statistics.StdUnique | dashboard_hero_tier_list.py:129 | at most one non-negative number squares to the variance, so the deviation parameter is `np.std` |
| Statistics.UniformPopulation | dashboard_hero_tier_list.py:127-129 | when every score is v, the mean is v and the variance and std are 0 |
| Statistics.ZeroVarianceIsUniform | dashboard_hero_tier_list.py:127-129 | conversely, variance 0 means every score equals the mean |
| Statistics.MeanIsAttained | dashboard_hero_tier_list.py:128 | some score is at least the mean and some score is at most the mean |
| Statistics.MeanScaled | dashboard_hero_tier_list.py:128 | scaling every score by k scales the mean by k |
| Statistics.VarianceScaled | dashboard_hero_tier_list.py:129 | scaling every score by k scales the variance by k·k |
| Statistics.ScaledPopulation | dashboard_hero_tier_list.py:127-129 | scaling every score by k > 0 scales the mean and std by k |
| Statistics.FarCountBound | dashboard_hero_tier_list.py:129 | every score whose squared deviation is at least some bound adds at least that bound to the squared deviations |
| Statistics.FewFarFromTheMean | dashboard_hero_tier_list.py:129-133 | Chebyshev's inequality at 1.5 std: unless the variance is 0, at most 4/9 of the scores lie 1.5 std or more from the mean |
| Tiering.Classify | dashboard_hero_tier_list.py:136-146 | a score is in S exactly when it reaches the S cut and in A exactly when it reaches the A cut but not the S cut; with descending cuts, B, C and D are exactly the bands between the lower cuts |
| Tiering.ClassifyMonotone | dashboard_hero_tier_list.py:136-146 | a higher score never lands in a lower tier |
| Tiering.ClassifyWithoutSquareRoot | dashboard_hero_tier_list.py:129-146 | the cuts built from the std classify every score exactly as the square-root-free comparison with the variance does |
| Tiering.Members | dashboard_hero_tier_list.py:136-146 | the rows the loop appends to tier t: no more rows than the table has, each one classifying as t; MembersIn adds that every row classifying as t is there |
| Tiering.MembersIn | dashboard_hero_tier_list.py:135-146 | a row is appended to tier t exactly when it is in the table and classifies as t |
| Tiering.MembersAppend | dashboard_hero_tier_list.py:136-146 | one more row is appended to its own tier and to no other |
| Tiering.MembersConcat | dashboard_hero_tier_list.py:136-146 | running the loop over two tables in turn fills each tier with the first table's rows, then the second's |
| Tiering.PartitionPermutes | dashboard_hero_tier_list.py:135-146 | the five tier lists together hold each row of the table exactly as often as the table does |
| Tiering.MembersWithScore | dashboard_hero_tier_list.py:135-146 | within a tier, the rows of one score keep table order, and they are all of that score's rows when the score belongs to the tier |
| Tiering.TiersSeparated | dashboard_hero_tier_list.py:135-146 | with descending cuts, every row of a higher tier outscores every row of a lower one |
| Tiering.ClassifyAll | dashboard_hero_tier_list.py:135-146 | the loop leaves every tier key present, and each tier holds exactly the rows classified there, in table order |
| Tiering.SortTiers | dashboard_hero_tier_list.py:148-149 | every tier is replaced by its rows sorted from high to low; the keys stay the same |
| Tiering.MapTierHeroes | dashboard_hero_tier_list.py:154-155 | the heroes of the list are added and mapped to its tier, and every other entry is unchanged |
| Tiering.HeroToTier | dashboard_hero_tier_list.py:152-155 | the dictionary holds exactly the heroes of some tier; each maps to a tier that lists it, and to no tier that lists it later (the last write wins) |
| Tiering.SortedTiersPermute | dashboard_hero_tier_list.py:148-149 | after sorting, the five tiers together still hold exactly the rows of the table |
| Tiering.SortedTierIn | dashboard_hero_tier_list.py:148-149 | a row is in sorted tier t exactly when it is in the table and classifies as t |
| Tiering.SortedTierOrder | dashboard_hero_tier_list.py:148-149 | each sorted tier runs from high to low, and rows of equal score keep table order |
| Tiering.SortedTiersSeparated | dashboard_hero_tier_list.py:135-149 | with descending cuts, every row of a higher sorted tier outscores every row of a lower one |
| Tiering.ScaledCuts | dashboard_hero_tier_list.py:130-133 | scaling the mean and the std by k scales each cut by k |
| Tiering.ClassifyScaled | dashboard_hero_tier_list.py:136-146 | a score and cuts scaled by the same k > 0 give the same tier |
| Tiering.OuterTiersAreFar | dashboard_hero_tier_list.py:137-146 | every score in S or D lies at squared distance at least 2.25·variance from the mean, so S and D together hold no more rows than there are scores that far out |
| TierList.TierColour | dashboard_hero_tier_list.py:158 | S red, A orange, B green, C blue, D purple |
| TierList.TierColoursDistinct | dashboard_hero_tier_list.py:158 | no two tiers share a colour, so a bar's colour tells its tier |
| TierList.Names | dashboard_hero_tier_list.py:161 | the hero names of the rows, one per row and in row order, as `list(sorted_scores.keys())` gives them |
| TierList.Cuts | dashboard_hero_tier_list.py:127-133 | the four cuts of a non-empty score table: ThresholdsFrom at the table's mean and the given std, so they descend and lie at ±0.5·std and ±1.5·std around the mean |
| TierList.BarColours | dashboard_hero_tier_list.py:161-163 | one colour per row, in row order; when the dictionary maps every row's name to the tier its score classifies into, each bar has the colour of its own score's tier |
| TierList.SortedTierNames | dashboard_hero_tier_list.py:148-155 | a hero occurs in a sorted tier exactly when a row of the table has that name and classifies into that tier |
| TierList.LookupIsClassify | dashboard_hero_tier_list.py:152-155 | the dictionary built from the sorted tiers has exactly the table's heroes as keys, each mapped to the tier its score classifies into |
| TierList.PartitionScores | dashboard_hero_tier_list.py:127-155 | all five tiers are present; each is that tier's rows sorted from high to low, or empty for an empty table; the dictionary maps every hero, and only those, to the tier of its score |
| TierList.BuildDashboard | dashboard_hero_tier_list.py:123-163 | fails exactly when scoring fails, with the same error; otherwise returns the score table, its ascending sort, the sorted tiers and the dictionary as above, and one bar colour per hero, in ascending order, each the colour of that hero's tier |
| TierList.UniformScoresAllInS | dashboard_hero_tier_list.py:127-149 | when every hero scores the same, every hero is in S, in table order, and the other tiers are empty |
| TierList.SomeHeroNearTheMiddle | dashboard_hero_tier_list.py:127-146 | some hero is in B or better; unless the std is 0, some hero is in B or worse |
| TierList.OuterTiersAtMostFourNinths | dashboard_hero_tier_list.py:127-149 | unless every score is equal, S and D together hold at most 4/9 of the heroes |
| TierList.ScaledTableCuts | dashboard_hero_tier_list.py:127-133 | scaling every score by k > 0 scales each of the four cuts by k |
| TierList.ScaledTableKeepsTiers | dashboard_hero_tier_list.py:127-146 | scaling every score by k > 0 leaves every hero in its tier |
| TierList.ScalingKeepsTiers | dashboard_hero_tier_list.py:46-48 | multiplying every slider by the same k > 0 changes no hero's tier |
| Scenarios.DefaultScore | dashboard_hero_tier_list.py:16-26 | under the default sliders a hero scores 4·economy + 2·tempo + 2·card value + 2·survivability + villain damage + 2·threat removal + 3·reliability + minion control + 2·control + 2·support + unique builds |
| Scenarios.CaptainMarvelScore | dashboard_hero_tier_list.py:53 | the default sliders score Captain Marvel 53 |
| Scenarios.IronManScore | dashboard_hero_tier_list.py:54 | the default sliders score Iron Man 31 |
| Scenarios.ShortVectorStopsTheTable | dashboard_hero_tier_list.py:119-123 | a 14-attribute vector against the 15 weights stops the score table with `DimensionMismatch(14, 15)` |
| Scenarios.SingleHeroInS | dashboard_hero_tier_list.py:127-149 | a table of one hero puts that hero in S and leaves the other tiers empty |
| Scenarios.FivePopulation | dashboard_hero_tier_list.py:127-129 | the scores 10, 5, 0, -5, -10 have mean 0 and variance 50 |
| Scenarios.FiveHeroTiers | dashboard_hero_tier_list.py:127-149 | for those five scores, S = [], A = [10, 5], B = [0], C = [-5, -10] and D = [] |

## Left out

- The Streamlit page is an input here: the title, the text and the sliders (lines 11-30). The weighting vector the sliders build is a parameter.
- The plotting (line 165 onward) is left out. The model stops at the names, scores and colours the chart is drawn from.
- The hero table's data (lines 51-116) is a parameter. Only Captain Marvel and Iron Man appear, in the worked examples.
- The weighting presets inside the string literal (lines 36-43) are never executed and are not modelled.
- Floating point is not modelled. numpy computes the mean, std and cuts in binary64, and rounding could move a score that lies exactly on a cut. The model compares exactly.
- 64-bit integer overflow in `np.dot` is not modelled. Scores are unbounded; with slider values in [-10, 10] and 15 attributes, no realistic table comes near the limit.
- The square root is not computed. The callers of `PartitionScores` and `BuildDashboard` supply the deviation, and `StdUnique` pins it down as `np.std`'s value.
- TierList.BuildDashboard: takes the standard deviation as the parameter std, required to be the non-negative square root of the variance, instead of computing it.
- TierList.PartitionScores: for an empty table, numpy's NaN mean and its runtime warning are not modelled; the model computes no mean at all.
- The `dict(...)` built from the sorted pairs is modelled as the sorted sequence itself. Names are distinct, so no key collides and the dictionary keeps that order.
