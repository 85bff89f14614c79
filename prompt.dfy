/** The structured content of the request sent to the inference service
    (`createRecommendationPrompt`, services/recommendationService.js:174-210). Only the
    choice of the three heaviest categories is behaviour; the wording is presentation. */
module Prompt {
  import opened Common
  import opened Records

  /** The sort key of a category entry: its weight (comparator `b[1] - a[1]`). */
  function ByWeight(e: WeightEntry): SortKey
  {
    SortKey(Finite(e.weight), 0.0)
  }

  /** `Array.from(categories.entries()).sort((a, b) => b[1] - a[1]).slice(0, 3)`. */
  function TopCategories(ws: Weights): (top: Weights)
    ensures |top| == if |ws| < 3 then |ws| else 3
    ensures multiset(top) <= multiset(ws)
  {
    Take(SortDesc(ws, ByWeight), 3)
  }

  /** The top categories are the heaviest, heaviest first: weights descend along the list and
      no category left out weighs more than one kept. */
  lemma TopCategoriesAreHeaviest(ws: Weights)
    ensures forall i, j :: 0 <= i < j < |TopCategories(ws)| ==> TopCategories(ws)[j].weight <= TopCategories(ws)[i].weight
    ensures forall e, i :: e in ws && e !in TopCategories(ws) && 0 <= i < |TopCategories(ws)| ==>
              e.weight <= TopCategories(ws)[i].weight
  {
    var top := TopCategories(ws);
    SortedPrefixIsBest(ws, 3, ByWeight);
    forall i, j | 0 <= i < j < |top| ensures top[j].weight <= top[i].weight {
      assert !Outranks(ByWeight(top[j]), ByWeight(top[i]));
    }
    forall e, i | e in ws && e !in top && 0 <= i < |top| ensures e.weight <= top[i].weight {
      assert !Outranks(ByWeight(e), ByWeight(top[i]));
    }
  }

  /** A candidate as it is listed in the request. */
  datatype ProductSummary = ProductSummary(id: string, name: string, category: string, price: real,
                                           rating: real, tags: seq<string>)

  /** What the request encodes: the three heaviest categories with their quantities, the price
      range, the average rating, the rated-purchase count and the candidate list. */
  datatype Request = Request(topCategories: Weights, priceMin: Option<real>, priceMax: real,
                             averageRating: real, totalPurchases: nat, products: seq<ProductSummary>)

  function ComposeRequest(profile: Profile, products: seq<Product>): (r: Request)
    ensures |r.topCategories| <= 3
    ensures forall e, i :: e in profile.categories && e !in r.topCategories && 0 <= i < |r.topCategories| ==>
              e.weight <= r.topCategories[i].weight
    ensures |r.products| == |products|
    ensures forall i :: 0 <= i < |products| ==> r.products[i].id == products[i].id
  {
    TopCategoriesAreHeaviest(profile.categories);
    Request(TopCategories(profile.categories), profile.priceMin, profile.priceMax,
            profile.averageRating, profile.totalPurchases,
            seq(|products|, i requires 0 <= i < |products| =>
              ProductSummary(products[i].id, products[i].name, products[i].category,
                             products[i].price, products[i].rating, products[i].tags)))
  }
}
