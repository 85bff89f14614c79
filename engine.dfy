/** The request flow of the recommendation service: `generateRecommendations`
    (services/recommendationService.js:23-85) and `getAIRecommendations` (:136-172). The
    stores and the inference client are parameters: the stored orders and the catalog are
    given as values, and the inference call is a function from the request to its outcome. */
module Engine {
  import opened Common
  import opened Records
  import opened Preferences
  import opened Candidates
  import opened Prompt
  import opened Fallback
  import opened Ranking

  /** What the inference call gave back: it threw (network, provider or client error), or it
      answered, with or without a message content. */
  datatype Completion = CallFailed | Answered(content: Option<string>)

  /** A response of the service: a recommendation list, or an `ApiError` thrown to the caller. */
  datatype Outcome = Ok(recommendations: seq<Recommendation>) | Err(error: ApiError)

  const InvalidResponse: ApiError := ApiError(500, "Invalid response from AI service")
  const NoProducts: ApiError := ApiError(404, "No products available in the database")

  /** `!aiResponse`: a missing content and the empty string are both falsy. */
  predicate Blank(content: Option<string>)
  {
    content.None? || content.value == ""
  }

  /** The outcome of `getAIRecommendations` for the completion the call produced: an error for
      a blank answer (an `ApiError`, rethrown), the deterministic ranker when the call threw,
      and the processed reply otherwise. */
  function AiOutcome(profile: Profile, products: seq<Product>, completion: Completion,
                     parse: string -> Option<Json>): (r: Outcome)
    ensures r.Err? <==> completion.Answered? && Blank(completion.content)
    ensures r.Err? ==> r.error == InvalidResponse
    ensures completion.CallFailed? ==> r == Ok(BasicRecommendations(profile, products))
    ensures r.Ok? ==> |r.recommendations| <= 5
    ensures r.Ok? ==> forall i :: 0 <= i < |r.recommendations| ==> r.recommendations[i].productId in Ids(products)
  {
    match completion
    case CallFailed =>
      BasicIds(profile, products);
      Ok(BasicRecommendations(profile, products))
    case Answered(content) =>
      if Blank(content) then Err(InvalidResponse)
      else
        RankReplyIds(content.value, products, profile, parse);
        Ok(RankReply(content.value, products, profile, parse))
  }

  /** The outcome of `generateRecommendations` for a user with the given stored orders: nothing
      for a user without orders, a 404 for an empty catalog, nothing when every product was
      bought, and otherwise the inference path over the products not bought yet. */
  function Recommend(history: seq<PurchaseRecord>, catalog: seq<Product>, infer: Request -> Completion,
                     parse: string -> Option<Json>): (r: Outcome)
    ensures |history| == 0 ==> r == Ok([])
    ensures |history| > 0 && |catalog| == 0 ==> r == Err(NoProducts)
    ensures r.Err? ==> r.error == NoProducts || r.error == InvalidResponse
    ensures r.Ok? ==> |r.recommendations| <= 5
    ensures r.Ok? ==> forall i :: 0 <= i < |r.recommendations| ==>
              r.recommendations[i].productId in Ids(catalog) &&
              r.recommendations[i].productId !in PurchasedIds(history)
  {
    if |history| == 0 then Ok([])
    else if |catalog| == 0 then Err(NoProducts)
    else
      var candidates := Available(catalog, history);
      if |candidates| == 0 then Ok([])
      else
        var profile := ProfileOf(history);
        CandidateIdsNotPurchased(catalog, history);
        AiOutcome(profile, candidates, infer(ComposeRequest(profile, candidates)), parse)
  }

  /** When the inference call throws, the user gets the deterministic ranking of the products
      not bought yet, built from the profile of all stored orders. */
  lemma FailedCallFallsBack(history: seq<PurchaseRecord>, catalog: seq<Product>, infer: Request -> Completion,
                            parse: string -> Option<Json>)
    requires |history| > 0 && |Available(catalog, history)| > 0
    requires infer(ComposeRequest(ProfileOf(history), Available(catalog, history))).CallFailed?
    ensures Recommend(history, catalog, infer, parse)
            == Ok(BasicRecommendations(ProfileOf(history), Available(catalog, history)))
  {
  }

  /** A user who bought every catalog product gets an empty list, not an error. */
  lemma EverythingBoughtGivesNothing(history: seq<PurchaseRecord>, catalog: seq<Product>,
                                     infer: Request -> Completion, parse: string -> Option<Json>)
    requires |history| > 0 && |catalog| > 0
    requires forall p :: p in catalog ==> p.id in PurchasedIds(history)
    ensures Recommend(history, catalog, infer, parse) == Ok([])
  {
    AllBoughtNoneAvailable(catalog, history);
  }

  /** `getAIRecommendations`: compose the request, call the inference service, reject a blank
      answer and process the reply. */
  method GetAIRecommendations(profile: Profile, products: seq<Product>, infer: Request -> Completion,
                              parse: string -> Option<Json>)
    returns (r: Outcome)
    requires DistinctKeys(profile.categories)
    ensures r == AiOutcome(profile, products, infer(ComposeRequest(profile, products)), parse)
  {
    var prompt := ComposeRequest(profile, products);
    var chatCompletion := infer(prompt);
    if chatCompletion.CallFailed? {
      var basic := BasicRecommendations(profile, products);
      return Ok(basic);
    }
    var aiResponse := chatCompletion.content;
    if Blank(aiResponse) {
      return Err(InvalidResponse);
    }
    var recommendations := ProcessAIResponse(aiResponse.value, products, profile, parse);
    r := Ok(recommendations);
  }

  /** `generateRecommendations`: the early returns, the 404, candidate selection, the profile
      and the inference path, in the order the service takes them. */
  method GenerateRecommendations(history: seq<PurchaseRecord>, catalog: seq<Product>,
                                 infer: Request -> Completion, parse: string -> Option<Json>)
    returns (r: Outcome)
    ensures r == Recommend(history, catalog, infer, parse)
  {
    if |history| == 0 {
      return Ok([]);
    }
    if |catalog| == 0 {
      return Err(NoProducts);
    }
    var availableProducts := Available(catalog, history);
    if |availableProducts| == 0 {
      return Ok([]);
    }
    var userPreferences := AnalyzeUserPreferences(history);
    ProfileSummary(history, "");
    r := GetAIRecommendations(userPreferences, availableProducts, infer, parse);
  }
}
