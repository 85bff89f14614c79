/** The preference profile built from the user's stored orders (`analyzeUserPreferences`,
    services/recommendationService.js:87-122). */
module Preferences {
  import opened Common
  import opened Records

  /** Every line item of every order, orders in the given (newest-first) order. */
  function AllItems(history: seq<PurchaseRecord>): seq<LineItem>
  {
    if |history| == 0 then [] else AllItems(history[..|history| - 1]) + history[|history| - 1].items
  }

  /** `if (item.rating)`: a missing rating and a rating of 0 are both falsy. */
  predicate Rated(item: LineItem)
  {
    item.rating.Some? && item.rating.value != 0.0
  }

  /** The profile fields while items are being folded in; `ratingSum` is `averageRating`
      before the final division. */
  datatype Tally = Tally(categories: Weights, priceMin: Option<real>, priceMax: real, ratingSum: real, rated: nat)

  const Initial: Tally := Tally([], None, 0.0, 0.0, 0)

  /** The body of the inner `forEach`, for one line item. */
  function Step(t: Tally, item: LineItem): Tally
  {
    Tally(Put(t.categories, item.category, Weight(t.categories, item.category) + item.quantity),
          Some(if t.priceMin.None? then item.price else MinReal(t.priceMin.value, item.price)),
          MaxReal(t.priceMax, item.price),
          if Rated(item) then t.ratingSum + item.rating.value else t.ratingSum,
          if Rated(item) then t.rated + 1 else t.rated)
  }

  function TallyOf(items: seq<LineItem>): Tally
  {
    if |items| == 0 then Initial else Step(TallyOf(items[..|items| - 1]), items[|items| - 1])
  }

  /** The final division, taken only when some item was rated. */
  function Finish(t: Tally): Profile
  {
    Profile(t.categories, t.priceMin, t.priceMax,
            if t.rated > 0 then t.ratingSum / t.rated as real else t.ratingSum, t.rated)
  }

  function ProfileOf(history: seq<PurchaseRecord>): Profile
  {
    Finish(TallyOf(AllItems(history)))
  }

  lemma TallySnoc(items: seq<LineItem>, item: LineItem)
    ensures TallyOf(items + [item]) == Step(TallyOf(items), item)
  {
    assert (items + [item])[..|items|] == items;
  }

  lemma AllItemsSnoc(history: seq<PurchaseRecord>, i: nat)
    requires i < |history|
    ensures AllItems(history[..i + 1]) == AllItems(history[..i]) + history[i].items
  {
    assert history[..i + 1][..i] == history[..i];
  }

  /** The two nested `forEach` loops update the profile fields item by item; the result is
      the profile of all line items. */
  method AnalyzeUserPreferences(history: seq<PurchaseRecord>) returns (p: Profile)
    ensures p == ProfileOf(history)
  {
    var preferences := Initial;
    ghost var done: seq<LineItem> := [];
    var i := 0;
    while i < |history|
      invariant 0 <= i <= |history|
      invariant done == AllItems(history[..i])
      invariant preferences == TallyOf(done)
    {
      var items := history[i].items;
      ghost var before := done;
      var j := 0;
      while j < |items|
        invariant 0 <= j <= |items|
        invariant done == before + items[..j]
        invariant preferences == TallyOf(done)
      {
        var item := items[j];
        preferences := AddItem(preferences, item);
        TallySnoc(done, item);
        assert items[..j + 1] == items[..j] + [item];
        done := done + [item];
        j := j + 1;
      }
      assert items[..j] == items;
      AllItemsSnoc(history, i);
      i := i + 1;
    }
    assert history[..i] == history;
    var averageRating := preferences.ratingSum;
    if preferences.rated > 0 {
      averageRating := averageRating / preferences.rated as real;
    }
    p := Profile(preferences.categories, preferences.priceMin, preferences.priceMax, averageRating, preferences.rated);
  }

  /** The body of the inner `forEach`: the category weight, the price range and the rating
      statistics, updated for one item. */
  method AddItem(preferences: Tally, item: LineItem) returns (t: Tally)
    ensures t == Step(preferences, item)
  {
    t := preferences;
    t := t.(categories := Put(t.categories, item.category, Weight(t.categories, item.category) + item.quantity));
    t := t.(priceMin := Some(if t.priceMin.None? then item.price else MinReal(t.priceMin.value, item.price)));
    t := t.(priceMax := MaxReal(t.priceMax, item.price));
    if Rated(item) {
      t := t.(ratingSum := t.ratingSum + item.rating.value, rated := t.rated + 1);
    }
  }

  // Reference definitions, one statistic at a time.

  /** Total quantity bought in `category`. */
  function QuantityOf(items: seq<LineItem>, category: string): real
  {
    if |items| == 0 then 0.0
    else QuantityOf(items[..|items| - 1], category)
         + (if items[|items| - 1].category == category then items[|items| - 1].quantity else 0.0)
  }

  /** Number of items carrying a (truthy) rating. */
  function RatedCount(items: seq<LineItem>): nat
  {
    if |items| == 0 then 0 else RatedCount(items[..|items| - 1]) + (if Rated(items[|items| - 1]) then 1 else 0)
  }

  /** Sum of the (truthy) ratings. */
  function RatingSum(items: seq<LineItem>): real
  {
    if |items| == 0 then 0.0
    else RatingSum(items[..|items| - 1]) + (if Rated(items[|items| - 1]) then items[|items| - 1].rating.value else 0.0)
  }

  /** Each category's weight is the total quantity bought in it; the map holds exactly the
      categories bought, each once. */
  lemma {:induction false} TallyCategories(items: seq<LineItem>, category: string)
    ensures Weight(TallyOf(items).categories, category) == QuantityOf(items, category)
    ensures Keys(TallyOf(items).categories) == set item | item in items :: item.category
    ensures DistinctKeys(TallyOf(items).categories)
  {
    if |items| > 0 {
      var init := items[..|items| - 1];
      var x := items[|items| - 1];
      assert items == init + [x];
      TallyCategories(init, category);
      StepCategories(TallyOf(init), x, category);
      CategorySetSnoc(init, x);
    }
  }

  lemma CategorySetSnoc(init: seq<LineItem>, x: LineItem)
    ensures (set item | item in init + [x] :: item.category) == (set item | item in init :: item.category) + {x.category}
  {
  }

  lemma StepCategories(t: Tally, item: LineItem, category: string)
    requires DistinctKeys(t.categories)
    ensures Weight(Step(t, item).categories, category)
            == Weight(t.categories, category) + (if item.category == category then item.quantity else 0.0)
    ensures Keys(Step(t, item).categories) == Keys(t.categories) + {item.category}
    ensures DistinctKeys(Step(t, item).categories)
  {
    var w := Weight(t.categories, item.category) + item.quantity;
    var r := Put(t.categories, item.category, w);
    assert Step(t, item).categories == r;
    PutGet(t.categories, item.category, w, category);
    PutKeepsDistinct(t.categories, item.category, w);
    PutKeys(t.categories, item.category, w);
    assert Weight(r, category) == Weight(t.categories, category) + (if item.category == category then item.quantity else 0.0);
  }

  /** Every item price lies in the observed range; the minimum is some item's price, and the
      maximum is 0 or some item's price (it starts at 0). The minimum stays unset exactly
      when there is no item. */
  lemma {:induction false} TallyPriceRange(items: seq<LineItem>)
    ensures TallyOf(items).priceMin.None? <==> |items| == 0
    ensures TallyOf(items).priceMax >= 0.0
    ensures forall i :: 0 <= i < |items| ==>
              TallyOf(items).priceMin.Some? && TallyOf(items).priceMin.value <= items[i].price <= TallyOf(items).priceMax
    ensures TallyOf(items).priceMin.Some? ==> exists i :: 0 <= i < |items| && items[i].price == TallyOf(items).priceMin.value
    ensures TallyOf(items).priceMax == 0.0 || exists i :: 0 <= i < |items| && items[i].price == TallyOf(items).priceMax
  {
    if |items| > 0 {
      var init := items[..|items| - 1];
      TallyPriceRange(init);
      var t := TallyOf(init);
      var r := TallyOf(items);
      forall i | 0 <= i < |items| ensures r.priceMin.Some? && r.priceMin.value <= items[i].price <= r.priceMax {
        if i < |items| - 1 { assert items[i] == init[i]; }
      }
      if t.priceMin.Some? && r.priceMin.value == t.priceMin.value {
        var k :| 0 <= k < |init| && init[k].price == t.priceMin.value;
        assert items[k] == init[k];
      }
      if r.priceMax != 0.0 && r.priceMax == t.priceMax {
        var k :| 0 <= k < |init| && init[k].price == t.priceMax;
        assert items[k] == init[k];
      }
    }
  }

  /** The fold counts the rated items and sums their ratings. */
  lemma {:induction false} TallyRatings(items: seq<LineItem>)
    ensures TallyOf(items).rated == RatedCount(items)
    ensures TallyOf(items).ratingSum == RatingSum(items)
  {
    if |items| > 0 {
      TallyRatings(items[..|items| - 1]);
    }
  }

  /** With non-negative quantities, every category weight is non-negative. */
  lemma {:induction false} TallyWeightsNonNegative(items: seq<LineItem>)
    requires forall i :: 0 <= i < |items| ==> items[i].quantity >= 0.0
    ensures NonNegativeWeights(TallyOf(items).categories)
  {
    if |items| > 0 {
      var init := items[..|items| - 1];
      assert forall i :: 0 <= i < |init| ==> init[i] == items[i];
      TallyWeightsNonNegative(init);
      StepWeightsNonNegative(TallyOf(init), items[|items| - 1]);
    }
  }

  lemma StepWeightsNonNegative(t: Tally, item: LineItem)
    requires NonNegativeWeights(t.categories) && item.quantity >= 0.0
    ensures NonNegativeWeights(Step(t, item).categories)
  {
    WeightNonNegative(t.categories, item.category);
    PutNonNegative(t.categories, item.category, Weight(t.categories, item.category) + item.quantity);
  }

  lemma {:induction false} PutNonNegative(ws: Weights, category: string, w: real)
    requires NonNegativeWeights(ws) && w >= 0.0
    ensures NonNegativeWeights(Put(ws, category, w))
  {
    if |ws| > 0 && ws[0].category != category {
      PutNonNegative(ws[1..], category, w);
    }
  }

  /** The profile of a history, stated field by field against the reference definitions:
      per-category quantity totals, the price range, the rated-item count and the mean of
      the truthy ratings (0 when none). */
  lemma ProfileSummary(history: seq<PurchaseRecord>, category: string)
    ensures var p := ProfileOf(history);
            var items := AllItems(history);
            && Weight(p.categories, category) == QuantityOf(items, category)
            && Keys(p.categories) == (set item | item in items :: item.category)
            && DistinctKeys(p.categories)
            && (p.priceMin.None? <==> |items| == 0)
            && (forall i :: 0 <= i < |items| ==> p.priceMin.Some? && p.priceMin.value <= items[i].price <= p.priceMax)
            && p.totalPurchases == RatedCount(items)
            && p.averageRating == (if RatedCount(items) > 0 then RatingSum(items) / RatedCount(items) as real else 0.0)
  {
    var items := AllItems(history);
    TallyCategories(items, category);
    TallyPriceRange(items);
    TallyRatings(items);
    RatingSumWithoutRated(items);
  }

  lemma {:induction false} RatingSumWithoutRated(items: seq<LineItem>)
    ensures RatedCount(items) == 0 ==> RatingSum(items) == 0.0
  {
    if |items| > 0 {
      RatingSumWithoutRated(items[..|items| - 1]);
    }
  }

  /** The observed price range is never inverted once an item was seen. */
  lemma ProfilePriceOrdered(history: seq<PurchaseRecord>)
    ensures ProfileOf(history).priceMin.Some? ==> ProfileOf(history).priceMin.value <= ProfileOf(history).priceMax
  {
    TallyPriceRange(AllItems(history));
  }

  /** With non-negative quantities the profile's category weights are non-negative. */
  lemma ProfileWeightsNonNegative(history: seq<PurchaseRecord>)
    requires forall i :: 0 <= i < |AllItems(history)| ==> AllItems(history)[i].quantity >= 0.0
    ensures NonNegativeWeights(ProfileOf(history).categories)
  {
    TallyWeightsNonNegative(AllItems(history));
  }
}
