/** Turning the inference reply into recommendations (`processAIResponse`,
    services/recommendationService.js:259-332): known entries get their raw score scaled by
    the relevance label and clamped to [0.5, 1.0], the best five by confidence are kept, and a
    shorter list is topped up with the best-scoring unused candidates. Any error on the way
    falls back to the deterministic ranker. */
module Ranking {
  import opened Common
  import opened Records
  import opened Scoring
  import opened Reasons
  import opened Fallback
  import opened Decoder

  /** `toLowerCase` on the ASCII letters; other characters are left as they are. */
  function Lower(s: string): (r: string)
    ensures |r| == |s|
    ensures forall i :: 0 <= i < |r| ==> !('A' <= r[i] <= 'Z')
    ensures forall i :: 0 <= i < |s| && !('A' <= s[i] <= 'Z') ==> r[i] == s[i]
    ensures forall i :: 0 <= i < |s| && 'A' <= s[i] <= 'Z' ==> r[i] == (s[i] as int + 32) as char
  {
    seq(|s|, i requires 0 <= i < |s| => if 'A' <= s[i] <= 'Z' then (s[i] as int + 32) as char else s[i])
  }

  /** The multiplier a lowercased relevance label selects from the table's own entries, with
      1.0 for any other label. */
  function RelevanceFactor(key: string): real
  {
    if key == "high" then 1.2
    else if key == "medium" then 1.0
    else if key == "low" then 0.8
    else 1.0
  }

  /** `table[rec.relevance?.toLowerCase()] || 1.0`. A missing or `null` relevance gives 1.0;
      any other non-string raises a `TypeError` (`None`), as it has no `toLowerCase`. */
  function Multiplier(relevance: Option<Json>): (m: Option<real>)
    ensures m.Some? ==> m.value == 1.2 || m.value == 1.0 || m.value == 0.8
    ensures m.None? <==> relevance.Some? && !relevance.value.JNull? && !relevance.value.JString?
  {
    match relevance
    case None => Some(1.0)
    case Some(JNull) => Some(1.0)
    case Some(JString(text)) => Some(RelevanceFactor(Lower(text)))
    case Some(_) => None
  }

  /** Labels are matched regardless of ASCII case: a label selects 1.2 exactly when it reads
      `high`, 0.8 exactly when it reads `low`, and 1.0 otherwise. */
  lemma MultiplierIgnoresCase(text: string)
    ensures Multiplier(Some(JString(text))) == Multiplier(Some(JString(Lower(text))))
    ensures Multiplier(Some(JString(text))) == Some(1.2) <==> Lower(text) == "high"
    ensures Multiplier(Some(JString(text))) == Some(0.8) <==> Lower(text) == "low"
    ensures Multiplier(Some(JString(text))) == Some(1.0) <==> Lower(text) != "high" && Lower(text) != "low"
  {
    assert Lower(Lower(text)) == Lower(text);
  }

  /** `Math.min(1.0, Math.max(0.5, base * m))`. */
  function Adjusted(base: Num, m: real): (r: Num)
    ensures r.NaN? <==> base.NaN?
    ensures r.Finite? ==> 0.5 <= r.value <= 1.0
  {
    match base
    case NaN => NaN
    case Finite(b) => Clamp(Finite(b * m))
  }

  /** What the object literal yields for a key as the lookup is written: one of its own
      numbers, nothing, or a member inherited from `Object.prototype` (`constructor` is the
      `Object` function, `__proto__` the prototype object). */
  datatype LookupAsWritten = OwnNumber(x: real) | Missing | Inherited

  function LiteralLookupAsWritten(key: string): LookupAsWritten
  {
    if key == "high" then OwnNumber(1.2)
    else if key == "medium" then OwnNumber(1.0)
    else if key == "low" then OwnNumber(0.8)
    else if key == "constructor" || key == "__proto__" then Inherited
    else Missing
  }

  /** The adjusted confidence as the lookup is written: an inherited member is truthy, so
      `|| 1.0` keeps it, and multiplying a number by a function or an object gives NaN, which
      `Math.max` and `Math.min` pass on. */
  function AdjustedAsWritten(base: Num, key: string): (r: Num)
    ensures r.NaN? <==> base.NaN? || key == "constructor" || key == "__proto__"
    ensures r.Finite? ==> 0.5 <= r.value <= 1.0
  {
    match LiteralLookupAsWritten(key)
    case OwnNumber(x) => Adjusted(base, x)
    case Missing => Adjusted(base, 1.0)
    case Inherited => Clamp(NaN)
  }

  /** A reply labelling a product `"Constructor"` or `"__PROTO__"` gets a NaN confidence as
      written, where a number in [0.5, 1.0] was meant; the corrected lookup gives one. */
  lemma InheritedLabelGivesNaN(base: real)
    ensures AdjustedAsWritten(Finite(base), Lower("Constructor")).NaN?
    ensures AdjustedAsWritten(Finite(base), Lower("__PROTO__")).NaN?
    ensures var r := Adjusted(Finite(base), RelevanceFactor(Lower("Constructor")));
            r.Finite? && 0.5 <= r.value <= 1.0
  {
    assert Lower("Constructor") == "constructor";
    assert Lower("__PROTO__") == "__proto__";
  }

  /** For every other key the written lookup and the corrected one agree. */
  lemma AsWrittenAgreesElsewhere(base: Num, key: string)
    requires key != "constructor" && key != "__proto__"
    ensures AdjustedAsWritten(base, key) == Adjusted(base, RelevanceFactor(key))
  {
  }

  /** The record built for a kept reply entry: the product's raw score scaled and clamped,
      and its reasons followed by the reply's explanation. */
  function AiRecommendation(e: AiEntry, m: real, profile: Profile, ws: Weights): (r: Recommendation)
    ensures r.confidence.NaN? <==> profile.priceMin.None?
    ensures r.confidence.Finite? ==> 0.5 <= r.confidence.value <= 1.0
    ensures |r.reasons| >= 1 && r.reasons[|r.reasons| - 1] == AiExplanation(e.explanation)
  {
    var p := e.product;
    Recommendation(p.id, p.name, p.category, p.price, p.rating,
                   Adjusted(ConfidenceScore(p, profile, ws), m),
                   ReasonsFor(p, profile, ws) + [AiExplanation(e.explanation)])
  }

  /** The `.map` over kept entries; `None` when some entry's relevance raises. */
  function AiStage(entries: seq<AiEntry>, profile: Profile, ws: Weights): (r: Option<seq<Recommendation>>)
    ensures r.None? <==> exists i :: 0 <= i < |entries| && Multiplier(entries[i].relevance).None?
    ensures r.Some? ==> |r.value| == |entries|
    ensures r.Some? ==> forall i :: 0 <= i < |entries| ==>
              r.value[i].productId == entries[i].product.id && |r.value[i].reasons| >= 1 &&
              r.value[i].reasons[|r.value[i].reasons| - 1] == AiExplanation(entries[i].explanation)
  {
    if exists i :: 0 <= i < |entries| && Multiplier(entries[i].relevance).None? then None
    else Some(seq(|entries|, i requires 0 <= i < |entries| =>
                AiRecommendation(entries[i], Multiplier(entries[i].relevance).value, profile, ws)))
  }

  /** The record is the one built from an element of the decoded reply that names a known
      candidate, with the multiplier that element's relevance label selects. */
  ghost predicate FromReply(r: Recommendation, reply: string, products: seq<Product>, profile: Profile,
                            parse: string -> Option<Json>)
  {
    var decoded := TolerantDecode(reply, parse);
    decoded.Some? && decoded.value.JArray? &&
    exists k :: 0 <= k < |decoded.value.elems| && Known(decoded.value.elems[k], products) &&
                Multiplier(EntryOf(decoded.value.elems[k], products).relevance).Some? &&
                r == AiRecommendation(EntryOf(decoded.value.elems[k], products),
                                      Multiplier(EntryOf(decoded.value.elems[k], products).relevance).value,
                                      profile, profile.categories)
  }

  /** The comparator `b.confidence - a.confidence`. */
  function ByConfidence(r: Recommendation): SortKey
  {
    SortKey(r.confidence, 0.0)
  }

  /** The scored reply entries in reply order; `None` when processing throws. */
  function AiScored(reply: string, products: seq<Product>, profile: Profile, parse: string -> Option<Json>)
    : Option<seq<Recommendation>>
  {
    var decoded := TolerantDecode(reply, parse);
    if decoded.Some? && decoded.value.JArray? then
      var entries := KnownEntries(decoded.value.elems, products);
      if entries.Some? then AiStage(entries.value, profile, profile.categories) else None
    else None
  }

  /** The AI-ranked prefix: the scored entries sorted by confidence, at most five. */
  function AiRanked(reply: string, products: seq<Product>, profile: Profile, parse: string -> Option<Json>)
    : (r: Option<seq<Recommendation>>)
    ensures r.Some? <==> AiScored(reply, products, profile, parse).Some?
    ensures r.Some? ==> |r.value| <= 5 && multiset(r.value) <= multiset(AiScored(reply, products, profile, parse).value)
  {
    var scored := AiScored(reply, products, profile, parse);
    if scored.Some? then Some(Take(SortDesc(scored.value, ByConfidence), 5)) else None
  }

  /** `new Set(recommendations.map(r => r.productId))`. */
  function UsedIds(recs: seq<Recommendation>): set<string>
  {
    if |recs| == 0 then {} else UsedIds(recs[..|recs| - 1]) + {recs[|recs| - 1].productId}
  }

  /** The set holds exactly the ids the list carries. */
  lemma {:induction false} UsedIdsMembers(recs: seq<Recommendation>, id: string)
    ensures id in UsedIds(recs) <==> exists i :: 0 <= i < |recs| && recs[i].productId == id
  {
    if |recs| > 0 {
      var init := recs[..|recs| - 1];
      UsedIdsMembers(init, id);
      if id in UsedIds(init) {
        var i :| 0 <= i < |init| && init[i].productId == id;
        assert recs[i] == init[i];
      }
      if exists i :: 0 <= i < |recs| && recs[i].productId == id {
        var i :| 0 <= i < |recs| && recs[i].productId == id;
        if i < |init| {
          assert init[i] == recs[i];
        }
      }
    }
  }

  /** The candidates whose id the AI-ranked prefix does not use, in candidate order. */
  function Unused(products: seq<Product>, used: seq<Recommendation>): seq<Product>
  {
    Filter(products, NotUsed(used))
  }

  /** The filter `!usedProductIds.has(p.id)`. */
  function NotUsed(used: seq<Recommendation>): Product -> bool
  {
    (p: Product) => p.id !in UsedIds(used)
  }

  /** The top-up: unused candidates with their raw score, best first, as many as the list
      still needs. */
  function Backfill(products: seq<Product>, used: seq<Recommendation>, profile: Profile, ws: Weights)
    : seq<Recommendation>
  {
    Take(SortDesc(ScoreAll(Unused(products, used), profile, ws), ByConfidence), Needed(used))
  }

  /** `5 - recommendations.length`, the number of entries still missing from the list. */
  function Needed(used: seq<Recommendation>): nat
  {
    if |used| < 5 then 5 - |used| else 0
  }

  /** `if (recommendations.length < 5) recommendations.push(...additionalProducts)`. */
  function TopUp(top: seq<Recommendation>, products: seq<Product>, profile: Profile, ws: Weights): seq<Recommendation>
  {
    if |top| < 5 then top + Backfill(products, top, profile, ws) else top
  }

  lemma TopUpShort(top: seq<Recommendation>, products: seq<Product>, profile: Profile, ws: Weights)
    requires |top| < 5
    ensures TopUp(top, products, profile, ws) == top + Backfill(products, top, profile, ws)
  {
  }

  /** The result of processing a reply: the AI-ranked prefix topped up to five, or the
      deterministic ranker's list when processing throws. */
  function RankReply(reply: string, products: seq<Product>, profile: Profile, parse: string -> Option<Json>)
    : (r: seq<Recommendation>)
    ensures |r| <= 5
    ensures AiRanked(reply, products, profile, parse).None? ==> r == BasicRecommendations(profile, products)
  {
    var ranked := AiRanked(reply, products, profile, parse);
    if ranked.None? then BasicRecommendations(profile, products)
    else
      BackfillLength(products, ranked.value, profile);
      TopUp(ranked.value, products, profile, profile.categories)
  }

  /** A processed reply was decoded to an array, and every scored record is built from one of
      its elements naming a known candidate. */
  lemma AiScoredFromReply(reply: string, products: seq<Product>, profile: Profile, parse: string -> Option<Json>)
    requires AiScored(reply, products, profile, parse).Some?
    ensures TolerantDecode(reply, parse).Some? && TolerantDecode(reply, parse).value.JArray?
    ensures var recs := AiScored(reply, products, profile, parse).value;
            forall i :: 0 <= i < |recs| ==> FromReply(recs[i], reply, products, profile, parse)
  {
    var elems := TolerantDecode(reply, parse).value.elems;
    var entries := KnownEntries(elems, products).value;
    var recs := AiScored(reply, products, profile, parse).value;
    forall i | 0 <= i < |recs| ensures FromReply(recs[i], reply, products, profile, parse) {
      var e := entries[i];
      assert NamedIn(e, elems, products);
      var k :| 0 <= k < |elems| && Known(elems[k], products) && e == EntryOf(elems[k], products);
      assert recs[i] == AiRecommendation(e, Multiplier(e.relevance).value, profile, profile.categories);
    }
  }

  /** Every entry of the reply naming a known candidate is scored. */
  lemma AiScoredComplete(reply: string, products: seq<Product>, profile: Profile, parse: string -> Option<Json>, k: nat)
    requires AiScored(reply, products, profile, parse).Some?
    requires TolerantDecode(reply, parse).Some? && TolerantDecode(reply, parse).value.JArray?
    requires k < |TolerantDecode(reply, parse).value.elems|
    requires Known(TolerantDecode(reply, parse).value.elems[k], products)
    ensures var e := EntryOf(TolerantDecode(reply, parse).value.elems[k], products);
            Multiplier(e.relevance).Some? &&
            AiRecommendation(e, Multiplier(e.relevance).value, profile, profile.categories)
              in AiScored(reply, products, profile, parse).value
  {
    var elems := TolerantDecode(reply, parse).value.elems;
    var entries := KnownEntries(elems, products).value;
    var recs := AiScored(reply, products, profile, parse).value;
    var e := EntryOf(elems[k], products);
    KnownEntriesComplete(elems, products, k);
    var i :| 0 <= i < |entries| && entries[i] == e;
    assert recs[i] == AiRecommendation(e, Multiplier(e.relevance).value, profile, profile.categories);
  }

  /** The AI-ranked prefix is the five most confident scored entries (all of them when fewer),
      most confident first. */
  lemma AiPrefixIsBest(reply: string, products: seq<Product>, profile: Profile, parse: string -> Option<Json>)
    requires AiScored(reply, products, profile, parse).Some?
    ensures var recs := AiScored(reply, products, profile, parse).value;
            var top := AiRanked(reply, products, profile, parse).value;
            && |top| == (if |recs| < 5 then |recs| else 5)
            && multiset(top) <= multiset(recs)
            && (forall i, j :: 0 <= i < j < |top| && top[i].confidence.Finite? && top[j].confidence.Finite? ==>
                  top[j].confidence.value <= top[i].confidence.value)
            && (forall r, i :: r in recs && r !in top && 0 <= i < |top| && r.confidence.Finite? && top[i].confidence.Finite? ==>
                  r.confidence.value <= top[i].confidence.value)
  {
    var recs := AiScored(reply, products, profile, parse).value;
    var top := AiRanked(reply, products, profile, parse).value;
    SortedPrefixIsBest(recs, 5, ByConfidence);
    ConfidenceDescending(top);
    forall r, i | r in recs && r !in top && 0 <= i < |top| && r.confidence.Finite? && top[i].confidence.Finite?
      ensures r.confidence.value <= top[i].confidence.value
    {
      assert !Outranks(ByConfidence(r), ByConfidence(top[i]));
    }
  }

  /** The top-up holds as many candidates as the list needs when that many are unused, else
      all unused ones. */
  lemma BackfillLength(products: seq<Product>, used: seq<Recommendation>, profile: Profile)
    ensures var pool := Unused(products, used);
            |Backfill(products, used, profile, profile.categories)| == if |pool| < Needed(used) then |pool| else Needed(used)
  {
    SortedPrefixIsBest(ScoreAll(Unused(products, used), profile, profile.categories), Needed(used), ByConfidence);
  }

  /** Every record's id is outside `used` and inside `ids`. */
  ghost predicate IdsAvoid(recs: seq<Recommendation>, used: set<string>, ids: set<string>)
  {
    forall i :: 0 <= i < |recs| ==> recs[i].productId !in used && recs[i].productId in ids
  }

  /** The top-up repeats no id of the prefix it completes, and every id is a candidate's. */
  lemma BackfillIdsUnused(products: seq<Product>, used: seq<Recommendation>, profile: Profile)
    ensures IdsAvoid(Backfill(products, used, profile, profile.categories), UsedIds(used), Ids(products))
  {
    var bf := Backfill(products, used, profile, profile.categories);
    forall i | 0 <= i < |bf| ensures bf[i].productId !in UsedIds(used) && bf[i].productId in Ids(products) {
      var p := BackfillEntry(products, used, profile, i);
    }
  }

  /** The record is the one built for a candidate the prefix does not use. */
  ghost predicate FromUnused(r: Recommendation, products: seq<Product>, used: seq<Recommendation>, profile: Profile)
  {
    exists p :: p in products && p.id !in UsedIds(used) && r == Scored(p, profile, profile.categories)
  }

  /** Each top-up entry is an unused candidate with its raw score and its reasons. */
  lemma BackfillFromUnused(products: seq<Product>, used: seq<Recommendation>, profile: Profile)
    ensures var bf := Backfill(products, used, profile, profile.categories);
            forall i :: 0 <= i < |bf| ==> FromUnused(bf[i], products, used, profile)
  {
    var bf := Backfill(products, used, profile, profile.categories);
    forall i | 0 <= i < |bf| ensures FromUnused(bf[i], products, used, profile) {
      var p := BackfillEntry(products, used, profile, i);
    }
  }

  /** The candidate behind one top-up entry. */
  lemma BackfillEntry(products: seq<Product>, used: seq<Recommendation>, profile: Profile, i: nat)
    returns (p: Product)
    requires i < |Backfill(products, used, profile, profile.categories)|
    ensures p in products && p.id !in UsedIds(used) && p.id in Ids(products)
    ensures Backfill(products, used, profile, profile.categories)[i] == Scored(p, profile, profile.categories)
    ensures Backfill(products, used, profile, profile.categories)[i].productId == p.id
  {
    var pool := Unused(products, used);
    var scored := ScoreAll(pool, profile, profile.categories);
    var bf := Take(SortDesc(scored, ByConfidence), Needed(used));
    assert bf == Backfill(products, used, profile, profile.categories);
    SortedPrefixIsBest(scored, Needed(used), ByConfidence);
    assert bf[i] in scored;
    var k :| 0 <= k < |scored| && scored[k] == bf[i];
    FilterKeepsMember(products, NotUsed(used), k);
    p := pool[k];
    assert NotUsed(used)(p);
  }

  /** A list in comparator order has non-increasing confidences. */
  lemma ConfidenceDescending(rs: seq<Recommendation>)
    requires SortedDesc(rs, ByConfidence)
    ensures forall i, j :: 0 <= i < j < |rs| && rs[i].confidence.Finite? && rs[j].confidence.Finite? ==>
              rs[j].confidence.value <= rs[i].confidence.value
  {
    forall i, j | 0 <= i < j < |rs| && rs[i].confidence.Finite? && rs[j].confidence.Finite?
      ensures rs[j].confidence.value <= rs[i].confidence.value
    {
      assert !Outranks(ByConfidence(rs[j]), ByConfidence(rs[i]));
    }
  }

  /** The top-up is in descending order of raw score. */
  lemma BackfillOrdered(products: seq<Product>, used: seq<Recommendation>, profile: Profile)
    ensures var bf := Backfill(products, used, profile, profile.categories);
            forall i, j :: 0 <= i < j < |bf| && bf[i].confidence.Finite? && bf[j].confidence.Finite? ==>
              bf[j].confidence.value <= bf[i].confidence.value
  {
    SortedPrefixIsBest(ScoreAll(Unused(products, used), profile, profile.categories), Needed(used), ByConfidence);
    ConfidenceDescending(Backfill(products, used, profile, profile.categories));
  }

  /** No unused candidate left out of the top-up scores above one taken. */
  lemma BackfillKeepsBest(products: seq<Product>, used: seq<Recommendation>, profile: Profile)
    ensures var bf := Backfill(products, used, profile, profile.categories);
            forall p, i :: p in products && p.id !in UsedIds(used) && Scored(p, profile, profile.categories) !in bf &&
                           0 <= i < |bf| && bf[i].confidence.Finite? && Scored(p, profile, profile.categories).confidence.Finite? ==>
              Scored(p, profile, profile.categories).confidence.value <= bf[i].confidence.value
  {
    var ws := profile.categories;
    var pool := Unused(products, used);
    var scored := ScoreAll(pool, profile, ws);
    var bf := Backfill(products, used, profile, ws);
    SortedPrefixIsBest(scored, Needed(used), ByConfidence);
    forall p, i | p in products && p.id !in UsedIds(used) && Scored(p, profile, ws) !in bf &&
                  0 <= i < |bf| && bf[i].confidence.Finite? && Scored(p, profile, ws).confidence.Finite?
      ensures Scored(p, profile, ws).confidence.value <= bf[i].confidence.value
    {
      ScoredUnused(products, used, profile, p);
      assert !Outranks(ByConfidence(Scored(p, profile, ws)), ByConfidence(bf[i]));
    }
  }

  lemma ScoredUnused(products: seq<Product>, used: seq<Recommendation>, profile: Profile, p: Product)
    requires p in products && p.id !in UsedIds(used)
    ensures Scored(p, profile, profile.categories) in ScoreAll(Unused(products, used), profile, profile.categories)
  {
    var pool := Unused(products, used);
    var j :| 0 <= j < |products| && products[j] == p;
    FilterKeepsAll(products, NotUsed(used), j);
    var k :| 0 <= k < |pool| && pool[k] == p;
    assert ScoreAll(pool, profile, profile.categories)[k] == Scored(p, profile, profile.categories);
  }

  /** The topped-up list starts with the prefix. */
  lemma TopUpPrefix(top: seq<Recommendation>, products: seq<Product>, profile: Profile)
    ensures TopUp(top, products, profile, profile.categories)[..|top|] == top
  {
  }

  /** The top-up is taken only when the prefix is short, and fills the list up to five when
      enough candidates are unused. */
  lemma TopUpLength(top: seq<Recommendation>, products: seq<Product>, profile: Profile)
    requires |top| <= 5
    ensures var pool := Unused(products, top);
            |TopUp(top, products, profile, profile.categories)| ==
              if |top| == 5 then 5 else if |top| + |pool| < 5 then |top| + |pool| else 5
  {
    if |top| < 5 {
      BackfillLength(products, top, profile);
    }
  }

  /** The entries after the prefix are candidates and repeat none of the prefix's ids. */
  lemma TopUpUnused(top: seq<Recommendation>, products: seq<Product>, profile: Profile)
    ensures var r := TopUp(top, products, profile, profile.categories);
            forall i :: |top| <= i < |r| ==> r[i].productId !in UsedIds(top) && r[i].productId in Ids(products)
  {
    if |top| < 5 {
      var bf := Backfill(products, top, profile, profile.categories);
      TopUpShort(top, products, profile, profile.categories);
      BackfillIdsUnused(products, top, profile);
      AppendedIds(top, bf, UsedIds(top), Ids(products));
    }
  }

  lemma AppendedIds(top: seq<Recommendation>, tail: seq<Recommendation>, used: set<string>, ids: set<string>)
    requires IdsAvoid(tail, used, ids)
    ensures forall i :: |top| <= i < |top + tail| ==> (top + tail)[i].productId !in used && (top + tail)[i].productId in ids
  {
    forall i | |top| <= i < |top + tail| ensures (top + tail)[i].productId !in used && (top + tail)[i].productId in ids {
      assert (top + tail)[i] == tail[i - |top|];
    }
  }

  /** Every scored reply entry is for a candidate. */
  lemma AiScoredIds(reply: string, products: seq<Product>, profile: Profile, parse: string -> Option<Json>)
    requires AiScored(reply, products, profile, parse).Some?
    ensures var recs := AiScored(reply, products, profile, parse).value;
            forall i :: 0 <= i < |recs| ==> recs[i].productId in Ids(products)
  {
    var elems := TolerantDecode(reply, parse).value.elems;
    var entries := KnownEntries(elems, products).value;
    var recs := AiScored(reply, products, profile, parse).value;
    forall i | 0 <= i < |recs| ensures recs[i].productId in Ids(products) {
      assert recs[i].productId == entries[i].product.id;
    }
  }

  /** Every recommendation, on either path, is for a candidate. */
  lemma RankReplyIds(reply: string, products: seq<Product>, profile: Profile, parse: string -> Option<Json>)
    ensures var r := RankReply(reply, products, profile, parse);
            forall i :: 0 <= i < |r| ==> r[i].productId in Ids(products)
  {
    var ranked := AiRanked(reply, products, profile, parse);
    if ranked.None? {
      BasicIds(profile, products);
    } else {
      AiPrefixIds(reply, products, profile, parse);
      TopUpIds(ranked.value, products, profile);
    }
  }

  /** Every entry of the AI-ranked prefix is for a candidate. */
  lemma AiPrefixIds(reply: string, products: seq<Product>, profile: Profile, parse: string -> Option<Json>)
    requires AiRanked(reply, products, profile, parse).Some?
    ensures var top := AiRanked(reply, products, profile, parse).value;
            forall i :: 0 <= i < |top| ==> top[i].productId in Ids(products)
  {
    var recs := AiScored(reply, products, profile, parse).value;
    AiScoredIds(reply, products, profile, parse);
    SortedPrefixIsBest(recs, 5, ByConfidence);
  }

  /** Topping up a prefix of candidates gives a list of candidates. */
  lemma TopUpIds(top: seq<Recommendation>, products: seq<Product>, profile: Profile)
    requires forall i :: 0 <= i < |top| ==> top[i].productId in Ids(products)
    ensures var r := TopUp(top, products, profile, profile.categories);
            forall i :: 0 <= i < |r| ==> r[i].productId in Ids(products)
  {
    var r := TopUp(top, products, profile, profile.categories);
    TopUpUnused(top, products, profile);
    forall i | 0 <= i < |r| ensures r[i].productId in Ids(products) {
      if i < |top| {
        assert r[i] == top[i];
      }
    }
  }

  /** Replies that make processing throw fall back to the deterministic ranker: no JSON and
      no bracketed span, a value that is not an array, or a `null` element. */
  lemma ThrowingRepliesFallBack(reply: string, products: seq<Product>, profile: Profile, parse: string -> Option<Json>)
    ensures parse(reply).None? && (forall k :: 0 <= k < |reply| ==> reply[k] != '[') ==>
              RankReply(reply, products, profile, parse) == BasicRecommendations(profile, products)
    ensures parse(reply).Some? && !parse(reply).value.JArray? ==>
              RankReply(reply, products, profile, parse) == BasicRecommendations(profile, products)
    ensures parse(reply).Some? && parse(reply).value.JArray? && JNull in parse(reply).value.elems ==>
              RankReply(reply, products, profile, parse) == BasicRecommendations(profile, products)
  {
  }

  /** A known entry whose relevance is neither a string nor `null` makes the mapping throw,
      and the deterministic ranker answers instead. */
  lemma RaisingRelevanceFallsBack(reply: string, products: seq<Product>, profile: Profile,
                                  parse: string -> Option<Json>, k: nat)
    requires parse(reply).Some? && parse(reply).value.JArray?
    requires k < |parse(reply).value.elems| && Known(parse(reply).value.elems[k], products)
    requires Multiplier(Field(parse(reply).value.elems[k].members, "relevance")).None?
    ensures RankReply(reply, products, profile, parse) == BasicRecommendations(profile, products)
  {
    var elems := parse(reply).value.elems;
    if JNull in elems {
      ThrowingRepliesFallBack(reply, products, profile, parse);
    } else {
      var entries := KnownEntries(elems, products).value;
      KnownEntriesComplete(elems, products, k);
      var i :| 0 <= i < |entries| && entries[i] == EntryOf(elems[k], products);
      assert Multiplier(entries[i].relevance).None?;
      assert AiStage(entries, profile, profile.categories).None?;
    }
  }

  /** The reply is not de-duplicated: a reply naming the same candidate twice gets that
      candidate recommended twice, at the head of the list. */
  lemma DuplicatesSurvive(reply: string, products: seq<Product>, profile: Profile,
                          parse: string -> Option<Json>, entry: Json)
    requires parse(reply) == Some(JArray([entry, entry]))
    requires Known(entry, products) && Multiplier(Field(entry.members, "relevance")).Some?
    ensures var r := RankReply(reply, products, profile, parse);
            |r| >= 2 && r[0] == r[1] && r[0].productId == ProductIdOf(entry).value
  {
    var e := EntryOf(entry, products);
    var x := AiRecommendation(e, Multiplier(e.relevance).value, profile, profile.categories);
    assert TolerantDecode(reply, parse) == parse(reply);
    TwinEntries(entry, products);
    TwinStage(e, profile, profile.categories);
    assert AiScored(reply, products, profile, parse) == Some([x, x]);
    TwinSorted(x, ByConfidence);
    assert AiRanked(reply, products, profile, parse) == Some([x, x]);
    TopUpPrefix([x, x], products, profile);
  }

  lemma TwinEntries(entry: Json, products: seq<Product>)
    requires Known(entry, products)
    ensures KnownEntries([entry, entry], products) == Some([EntryOf(entry, products), EntryOf(entry, products)])
  {
    var elems := [entry, entry];
    FilterTwin(entry, KnownIn(products));
    var e := EntryOf(entry, products);
    var es := seq(|elems|, i requires 0 <= i < |elems| => EntryOf(elems[i], products));
    assert es == [e, e];
  }

  lemma FilterTwin<T>(x: T, keep: T -> bool)
    requires keep(x)
    ensures Filter([x, x], keep) == [x, x]
  {
    assert [x, x][..1] == [x];
    assert [x][..0] == [];
  }

  lemma TwinStage(e: AiEntry, profile: Profile, ws: Weights)
    requires Multiplier(e.relevance).Some?
    ensures var x := AiRecommendation(e, Multiplier(e.relevance).value, profile, ws);
            AiStage([e, e], profile, ws) == Some([x, x])
  {
    var x := AiRecommendation(e, Multiplier(e.relevance).value, profile, ws);
    assert !exists i :: 0 <= i < |[e, e]| && Multiplier([e, e][i].relevance).None?;
    var xs := seq(|[e, e]|, i requires 0 <= i < |[e, e]| =>
                AiRecommendation([e, e][i], Multiplier([e, e][i].relevance).value, profile, ws));
    assert xs == [x, x];
  }

  lemma TwinSorted<T>(x: T, key: T -> SortKey)
    ensures SortDesc([x, x], key) == [x, x]
  {
    assert [x, x][..1] == [x];
    assert [x][..0] == [];
  }

  /** With the price range unset every confidence is NaN, so the prefix keeps the reply's
      order: it is the first five scored entries as the reply listed them. */
  lemma UnsetRangeKeepsReplyOrder(reply: string, products: seq<Product>, profile: Profile, parse: string -> Option<Json>)
    requires profile.priceMin.None?
    requires AiScored(reply, products, profile, parse).Some?
    ensures AiRanked(reply, products, profile, parse) == Some(Take(AiScored(reply, products, profile, parse).value, 5))
  {
    var recs := AiScored(reply, products, profile, parse).value;
    AiScoredFromReply(reply, products, profile, parse);
    forall i | 0 <= i < |recs| ensures ByConfidence(recs[i]).primary.NaN? {
      assert FromReply(recs[i], reply, products, profile, parse);
    }
    AllNaNIsSorted(recs, ByConfidence);
    SortDescKeepsSorted(recs, ByConfidence);
  }

  /** `categoryWeights.set(category, weight)` for every entry of the profile's map: the copy
      is the same map, in the same order. */
  method CopyWeights(ws: Weights) returns (r: Weights)
    requires DistinctKeys(ws)
    ensures r == ws
  {
    r := [];
    var i := 0;
    while i < |ws|
      invariant 0 <= i <= |ws|
      invariant r == ws[..i]
    {
      assert ws[i].category !in Keys(r) by {
        forall e | e in r ensures e.category != ws[i].category {
          var k :| 0 <= k < i && ws[k] == e;
        }
      }
      PutKeys(r, ws[i].category, ws[i].weight);
      r := Put(r, ws[i].category, ws[i].weight);
      i := i + 1;
    }
  }

  /** The steps of `processAIResponse` in order: decode, copy the weights, filter and score
      the entries, keep the best five, then push the top-up. */
  method ProcessAIResponse(reply: string, products: seq<Product>, profile: Profile, parse: string -> Option<Json>)
    returns (recommendations: seq<Recommendation>)
    requires DistinctKeys(profile.categories)
    ensures recommendations == RankReply(reply, products, profile, parse)
  {
    var decoded := TolerantDecode(reply, parse);
    if !(decoded.Some? && decoded.value.JArray?) {
      assert AiScored(reply, products, profile, parse).None?;
      recommendations := BasicRecommendations(profile, products);
      return;
    }
    var categoryWeights := CopyWeights(profile.categories);
    var entries := KnownEntries(decoded.value.elems, products);
    if entries.None? {
      assert AiScored(reply, products, profile, parse).None?;
      recommendations := BasicRecommendations(profile, products);
      return;
    }
    var scored := AiStage(entries.value, profile, categoryWeights);
    assert AiScored(reply, products, profile, parse) == scored;
    if scored.None? {
      recommendations := BasicRecommendations(profile, products);
      return;
    }
    recommendations := Take(SortDesc(scored.value, ByConfidence), 5);
    assert AiRanked(reply, products, profile, parse) == Some(recommendations);
    ghost var top := recommendations;
    if |recommendations| < 5 {
      var additional := Backfill(products, recommendations, profile, categoryWeights);
      TopUpShort(top, products, profile, categoryWeights);
      recommendations := recommendations + additional;
    }
  }
}
