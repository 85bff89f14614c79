/** The reason generator (`generateRecommendationReasons`,
    services/recommendationService.js:334-357). */
module Reasons {
  import opened Common
  import opened Records

  /** `priceDiff <= (max - min) * 0.2`. With the minimum still at `Infinity` the left side is
      `Infinity` and the right side `-Infinity`, so the test fails. */
  predicate PriceFits(price: real, profile: Profile)
  {
    match profile.priceMin
    case None => false
    case Some(lo) => Abs(price - (lo + profile.priceMax) / 2.0) <= (profile.priceMax - lo) * 0.2
  }

  /** The position a generated reason takes in the list. */
  function Rank(r: Reason): nat
  {
    match r
    case CategoryPreference(_) => 0
    case PriceFit => 1
    case HighRating => 2
    case AiExplanation(_) => 3
  }

  /** The reasons for a product: at most three, in the fixed order category, price, rating,
      each present exactly when its test holds. */
  function ReasonsFor(p: Product, profile: Profile, ws: Weights): (r: seq<Reason>)
    ensures |r| <= 3
    ensures CategoryPreference(p.category) in r <==> Weight(ws, p.category) > 0.0
    ensures PriceFit in r <==> PriceFits(p.price, profile)
    ensures HighRating in r <==> p.rating >= profile.averageRating
    ensures forall i, j :: 0 <= i < j < |r| ==> Rank(r[i]) < Rank(r[j])
    ensures forall i :: 0 <= i < |r| ==> !r[i].AiExplanation?
  {
    (if Weight(ws, p.category) > 0.0 then [CategoryPreference(p.category)] else [])
    + (if PriceFits(p.price, profile) then [PriceFit] else [])
    + (if p.rating >= profile.averageRating then [HighRating] else [])
  }

  /** The list is built with `push`, one test at a time. */
  method GenerateRecommendationReasons(p: Product, profile: Profile, ws: Weights) returns (reasons: seq<Reason>)
    ensures reasons == ReasonsFor(p, profile, ws)
  {
    reasons := [];
    if Weight(ws, p.category) > 0.0 {
      reasons := reasons + [CategoryPreference(p.category)];
    }
    var avgPrice: real;
    match profile.priceMin {
      case Some(lo) =>
        avgPrice := (lo + profile.priceMax) / 2.0;
        if Abs(p.price - avgPrice) <= (profile.priceMax - lo) * 0.2 {
          reasons := reasons + [PriceFit];
        }
      case None =>
    }
    if p.rating >= profile.averageRating {
      reasons := reasons + [HighRating];
    }
  }
}
