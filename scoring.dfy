/** The confidence scorer (`calculateConfidenceScore`, services/recommendationService.js:212-257):
    a weighted sum of five sub-scores remapped by `0.5 + s * 0.5`. */
module Scoring {
  import opened Common
  import opened Records
  import opened Preferences

  const CategoryMatchWeight: real := 0.35
  const PriceMatchWeight: real := 0.25
  const RatingMatchWeight: real := 0.20
  const PurchaseFrequencyWeight: real := 0.15
  const RecencyWeight: real := 0.05
  /** The recency sub-score is a fixed placeholder. */
  const RecencyScore: real := 0.8

  /** Category weight over the heaviest category; 0.5 when no category weighs more than 0
      (`Math.max()` of an empty map is `-Infinity`, which is not above 0 either). */
  function CategoryMatch(w: real, ws: Weights): (r: real)
    ensures (|ws| == 0 || MaxWeight(ws) <= 0.0) ==> r == 0.5
    ensures w >= 0.0 ==> r >= 0.0
    ensures |ws| > 0 && w <= MaxWeight(ws) ==> r <= 1.0
  {
    if |ws| > 0 && MaxWeight(ws) > 0.0 then
      QuotientAtMostOne(w, MaxWeight(ws));
      w / MaxWeight(ws)
    else 0.5
  }

  lemma QuotientAtMostOne(a: real, b: real)
    requires b > 0.0
    ensures a <= b ==> a / b <= 1.0
    ensures a > b ==> a / b > 1.0
    ensures a >= 0.0 ==> a / b >= 0.0
  {
    assert a / b * b == a;
  }

  /** `priceRangeWidth || 1`: only an exactly zero width is replaced, a negative one is kept. */
  function PriceDivisor(lo: real, hi: real): (d: real)
    ensures d != 0.0
    ensures hi == lo ==> d == 1.0
    ensures hi != lo ==> d == hi - lo
  {
    if hi - lo != 0.0 then hi - lo else 1.0
  }

  /** Closeness of the price to the middle of the observed range. */
  function PriceMatch(price: real, lo: real, hi: real): (r: real)
    ensures r >= 0.0
    ensures lo <= hi ==> r <= 1.0
    ensures lo <= hi && price == (lo + hi) / 2.0 ==> r == 1.0
  {
    MaxReal(0.0, 1.0 - Abs(price - (lo + hi) / 2.0) / PriceDivisor(lo, hi))
  }

  /** Closeness of the product rating to the user's average, on a 5-point scale. */
  function RatingMatch(rating: real, average: real): (r: real)
    ensures 0.0 <= r <= 1.0
    ensures r == 1.0 <==> rating == average
  {
    MaxReal(0.0, 1.0 - Abs(rating - average) / 5.0)
  }

  /** Category quantity over the number of RATED items; 0.5 when no item was rated.
      Nothing keeps the quotient below 1. */
  function FrequencyMatch(w: real, totalPurchases: nat): (r: real)
    ensures totalPurchases == 0 ==> r == 0.5
    ensures totalPurchases > 0 && w >= 0.0 ==> r >= 0.0
    ensures totalPurchases > 0 && w <= totalPurchases as real ==> r <= 1.0
    ensures totalPurchases > 0 && w > totalPurchases as real ==> r > 1.0
  {
    if totalPurchases > 0 then
      QuotientAtMostOne(w, totalPurchases as real);
      w / totalPurchases as real
    else 0.5
  }

  /** The confidence of a product for a profile. With the minimum price still at `Infinity`
      the price sub-score is `max(0, 1 - Infinity / -Infinity)`, which is NaN, and so is the
      whole score. */
  function ConfidenceScore(p: Product, profile: Profile, ws: Weights): (r: Num)
    ensures r.NaN? <==> profile.priceMin.None?
    ensures r.Finite? && Weight(ws, p.category) >= 0.0 ==> r.value >= 0.5
  {
    match profile.priceMin
    case None => NaN
    case Some(lo) =>
      var w := Weight(ws, p.category);
      var s := CategoryMatchWeight * CategoryMatch(w, ws)
             + PriceMatchWeight * PriceMatch(p.price, lo, profile.priceMax)
             + RatingMatchWeight * RatingMatch(p.rating, profile.averageRating)
             + PurchaseFrequencyWeight * FrequencyMatch(w, profile.totalPurchases)
             + RecencyWeight * RecencyScore;
      Finite(0.5 + s * 0.5)
  }

  /** With non-negative category weights every numeric score is at least 0.5. */
  lemma ScoreAtLeastHalf(p: Product, profile: Profile, ws: Weights)
    requires profile.priceMin.Some? && NonNegativeWeights(ws)
    ensures ConfidenceScore(p, profile, ws).value >= 0.5
  {
    WeightNonNegative(ws, p.category);
  }

  /** The score stays at or below 1.0 when the price range is not inverted and the
      category weight does not exceed the rated-item count (or nothing was rated). */
  lemma ScoreAtMostOne(p: Product, profile: Profile, ws: Weights)
    requires profile.priceMin.Some? && profile.priceMin.value <= profile.priceMax
    requires profile.totalPurchases == 0 || Weight(ws, p.category) <= profile.totalPurchases as real
    ensures ConfidenceScore(p, profile, ws).value <= 1.0
  {
    if |ws| > 0 && MaxWeight(ws) > 0.0 {
      WeightBelowMax(ws, p.category);
    }
  }

  /** One rated purchase of ten drinks is enough for a drink to score above 1.0: the
      purchase-frequency sub-score, labelled as lying in 0-1 (services/recommendationService.js:236),
      is 10. */
  lemma ScoreCanExceedOne()
    ensures var history := [PurchaseRecord([LineItem("a1", "drinks", 2.0, 10.0, Some(5.0))])];
            var profile := ProfileOf(history);
            var soda := Product("b2", "Soda", "drinks", 2.0, 5.0, [], "");
            ConfidenceScore(soda, profile, profile.categories) == Finite(1.67)
  {
    var items := [LineItem("a1", "drinks", 2.0, 10.0, Some(5.0))];
    var history := [PurchaseRecord(items)];
    assert AllItems(history) == items by {
      assert history[..0] == [];
    }
    assert TallyOf(items) == Step(Initial, items[0]) by {
      assert items[..0] == [];
    }
    var profile := ProfileOf(history);
    assert profile == Profile([WeightEntry("drinks", 10.0)], Some(2.0), 2.0, 5.0, 1);
    assert MaxWeight(profile.categories) == 10.0;
  }

  /** A product in the heaviest category, priced near the middle of the observed range and
      rated near the average, outscores one in a category never bought, priced outside the
      range and rated far below the average, whatever the rated count. */
  lemma DrinksOutscoreStationery(totalPurchases: nat)
    ensures var profile := Profile([WeightEntry("drinks", 5.0), WeightEntry("snacks", 2.0)], Some(1.0), 4.0, 4.0, totalPurchases);
            var drink := Product("d1", "Juice", "drinks", 2.5, 4.5, [], "");
            var pen := Product("s1", "Pen", "stationery", 9.0, 1.0, [], "");
            ConfidenceScore(drink, profile, profile.categories).value > ConfidenceScore(pen, profile, profile.categories).value
  {
    var ws := [WeightEntry("drinks", 5.0), WeightEntry("snacks", 2.0)];
    assert MaxWeight(ws) == 5.0 by {
      assert ws[1..] == [WeightEntry("snacks", 2.0)];
    }
    assert Weight(ws, "stationery") == 0.0 by {
      assert ws[1..][1..] == [];
    }
  }
}
