/** The deterministic fallback ranker (`getBasicRecommendations`,
    services/recommendationService.js:359-394) and the scored record it shares with the
    backfill of the AI path. */
module Fallback {
  import opened Common
  import opened Records
  import opened Preferences
  import opened Scoring
  import opened Reasons

  /** The record built for a product from its raw score and its generated reasons. */
  function Scored(p: Product, profile: Profile, ws: Weights): Recommendation
  {
    Recommendation(p.id, p.name, p.category, p.price, p.rating,
                   ConfidenceScore(p, profile, ws), ReasonsFor(p, profile, ws))
  }

  function ScoreAll(ps: seq<Product>, profile: Profile, ws: Weights): (r: seq<Recommendation>)
    ensures |r| == |ps|
    ensures forall i :: 0 <= i < |ps| ==> r[i] == Scored(ps[i], profile, ws)
  {
    seq(|ps|, i requires 0 <= i < |ps| => Scored(ps[i], profile, ws))
  }

  /** The filter: a category bought before and a price inside the observed range (never true
      while the minimum is still `Infinity`). */
  predicate Eligible(p: Product, profile: Profile, ws: Weights)
  {
    Weight(ws, p.category) > 0.0 && profile.priceMin.Some? &&
    profile.priceMin.value <= p.price <= profile.priceMax
  }

  function EligibleIn(profile: Profile): Product -> bool
  {
    (p: Product) => Eligible(p, profile, profile.categories)
  }

  /** The fallback comparator: confidence descending, then category weight descending. */
  function FallbackKey(ws: Weights): Recommendation -> SortKey
  {
    (r: Recommendation) => SortKey(r.confidence, Weight(ws, r.category))
  }

  /** The eligible candidates, scored, in candidate order. */
  function EligibleScored(profile: Profile, products: seq<Product>): seq<Recommendation>
  {
    ScoreAll(Filter(products, EligibleIn(profile)), profile, profile.categories)
  }

  function BasicRecommendations(profile: Profile, products: seq<Product>): (r: seq<Recommendation>)
    ensures |r| == if |EligibleScored(profile, products)| < 5 then |EligibleScored(profile, products)| else 5
    ensures multiset(r) <= multiset(EligibleScored(profile, products))
  {
    var all := SortDesc(EligibleScored(profile, products), FallbackKey(profile.categories));
    Take(all, 5)
  }

  /** Every fallback recommendation is an eligible candidate with its raw score, and that
      score is a number of at least 0.5. */
  lemma BasicFromEligible(profile: Profile, products: seq<Product>)
    ensures forall i :: 0 <= i < |BasicRecommendations(profile, products)| ==>
              exists p :: p in products && Eligible(p, profile, profile.categories) &&
                          BasicRecommendations(profile, products)[i] == Scored(p, profile, profile.categories)
    ensures forall i :: 0 <= i < |BasicRecommendations(profile, products)| ==>
              BasicRecommendations(profile, products)[i].confidence.Finite? &&
              BasicRecommendations(profile, products)[i].confidence.value >= 0.5
  {
    var ws := profile.categories;
    var f := Filter(products, EligibleIn(profile));
    var e := EligibleScored(profile, products);
    var r := BasicRecommendations(profile, products);
    forall i | 0 <= i < |r|
      ensures exists p :: p in products && Eligible(p, profile, ws) && r[i] == Scored(p, profile, ws)
      ensures r[i].confidence.Finite? && r[i].confidence.value >= 0.5
    {
      assert r[i] in multiset(e);
      var k :| 0 <= k < |e| && e[k] == r[i];
      FilterKeepsMember(products, EligibleIn(profile), k);
      assert f[k] in products && Eligible(f[k], profile, ws);
    }
  }

  /** Every fallback recommendation is for a candidate. */
  lemma BasicIds(profile: Profile, products: seq<Product>)
    ensures var r := BasicRecommendations(profile, products);
            forall i :: 0 <= i < |r| ==> r[i].productId in Ids(products)
  {
    var ws := profile.categories;
    var f := Filter(products, EligibleIn(profile));
    var e := EligibleScored(profile, products);
    var r := BasicRecommendations(profile, products);
    forall i | 0 <= i < |r| ensures r[i].productId in Ids(products) {
      assert r[i] in multiset(e);
      var k :| 0 <= k < |e| && e[k] == r[i];
      FilterKeepsMember(products, EligibleIn(profile), k);
      assert f[k] in products;
    }
  }

  /** The list is ordered by confidence, highest first, and by category weight among equal
      confidences. */
  lemma BasicOrdered(profile: Profile, products: seq<Product>)
    ensures forall i :: 0 <= i < |BasicRecommendations(profile, products)| ==>
              BasicRecommendations(profile, products)[i].confidence.Finite?
    ensures var r := BasicRecommendations(profile, products);
            var ws := profile.categories;
            forall i, j :: 0 <= i < j < |r| ==>
              r[j].confidence.value <= r[i].confidence.value &&
              (r[j].confidence.value == r[i].confidence.value ==> Weight(ws, r[j].category) <= Weight(ws, r[i].category))
  {
    var ws := profile.categories;
    var e := EligibleScored(profile, products);
    var all := SortDesc(e, FallbackKey(ws));
    var r := BasicRecommendations(profile, products);
    assert r == Take(all, 5);
    SortDescSorted(e, FallbackKey(ws));
    TakeKeepsBest(all, 5, FallbackKey(ws));
    assert SortedDesc(r, FallbackKey(ws));
    assert forall i :: 0 <= i < |r| ==> r[i].confidence.Finite? by {
      BasicFromEligible(profile, products);
    }
    OrderedByConfidence(r, ws);
  }

  lemma OrderedByConfidence(r: seq<Recommendation>, ws: Weights)
    requires SortedDesc(r, FallbackKey(ws))
    requires forall i :: 0 <= i < |r| ==> r[i].confidence.Finite?
    ensures forall i, j :: 0 <= i < j < |r| ==>
              r[j].confidence.value <= r[i].confidence.value &&
              (r[j].confidence.value == r[i].confidence.value ==> Weight(ws, r[j].category) <= Weight(ws, r[i].category))
  {
    forall i, j | 0 <= i < j < |r|
      ensures r[j].confidence.value <= r[i].confidence.value &&
              (r[j].confidence.value == r[i].confidence.value ==> Weight(ws, r[j].category) <= Weight(ws, r[i].category))
    {
      assert !Outranks(FallbackKey(ws)(r[j]), FallbackKey(ws)(r[i]));
    }
  }

  /** No eligible candidate left out outranks one that was kept: the five are the best. */
  lemma BasicKeepsBest(profile: Profile, products: seq<Product>)
    ensures var r := BasicRecommendations(profile, products);
            var ws := profile.categories;
            forall p, i :: p in products && Eligible(p, profile, ws) && Scored(p, profile, ws) !in r && 0 <= i < |r| ==>
              !Outranks(FallbackKey(ws)(Scored(p, profile, ws)), FallbackKey(ws)(r[i]))
  {
    var ws := profile.categories;
    var e := EligibleScored(profile, products);
    var all := SortDesc(e, FallbackKey(ws));
    var r := BasicRecommendations(profile, products);
    SortDescSorted(e, FallbackKey(ws));
    TakeKeepsBest(all, 5, FallbackKey(ws));
    forall p, i | p in products && Eligible(p, profile, ws) && Scored(p, profile, ws) !in r && 0 <= i < |r|
      ensures !Outranks(FallbackKey(ws)(Scored(p, profile, ws)), FallbackKey(ws)(r[i]))
    {
      var f := Filter(products, EligibleIn(profile));
      var j :| 0 <= j < |products| && products[j] == p;
      FilterKeepsAll(products, EligibleIn(profile), j);
      var k :| 0 <= k < |f| && f[k] == p;
      assert e[k] == Scored(p, profile, ws);
      assert Scored(p, profile, ws) in multiset(all);
      var m :| 0 <= m < |all| && all[m] == Scored(p, profile, ws);
      assert m >= |r|;
    }
  }

  /** With at most five eligible candidates, every one of them is recommended. */
  lemma BasicComplete(profile: Profile, products: seq<Product>)
    requires |EligibleScored(profile, products)| <= 5
    ensures multiset(BasicRecommendations(profile, products)) == multiset(EligibleScored(profile, products))
  {
    var e := EligibleScored(profile, products);
    var all := SortDesc(e, FallbackKey(profile.categories));
    assert Take(all, 5) == all;
  }

  /** One rated purchase of ten drinks makes the fallback recommend a drink with confidence
      1.67, outside the 0.5-1.0 range the scorer's closing normalisation step is meant to produce
      (services/recommendationService.js:255-256). */
  lemma FallbackConfidenceCanExceedOne()
    ensures var history := [PurchaseRecord([LineItem("a1", "drinks", 2.0, 10.0, Some(5.0))])];
            var soda := Product("b2", "Soda", "drinks", 2.0, 5.0, [], "");
            var r := BasicRecommendations(ProfileOf(history), [soda]);
            |r| == 1 && r[0].confidence == Finite(1.67)
  {
    var history := [PurchaseRecord([LineItem("a1", "drinks", 2.0, 10.0, Some(5.0))])];
    var soda := Product("b2", "Soda", "drinks", 2.0, 5.0, [], "");
    ScoreCanExceedOne();
    var profile := ProfileOf(history);
    assert profile == Profile([WeightEntry("drinks", 10.0)], Some(2.0), 2.0, 5.0, 1) by {
      ScoreCanExceedOneProfile();
    }
    assert Eligible(soda, profile, profile.categories);
    assert Filter([soda], EligibleIn(profile)) == [soda];
  }

  lemma ScoreCanExceedOneProfile()
    ensures ProfileOf([PurchaseRecord([LineItem("a1", "drinks", 2.0, 10.0, Some(5.0))])])
            == Profile([WeightEntry("drinks", 10.0)], Some(2.0), 2.0, 5.0, 1)
  {
    var items := [LineItem("a1", "drinks", 2.0, 10.0, Some(5.0))];
    var history := [PurchaseRecord(items)];
    assert AllItems(history) == items by {
      assert history[..0] == [];
    }
    assert TallyOf(items) == Step(Initial, items[0]) by {
      assert items[..0] == [];
    }
  }
}
