/** The records the recommendation engine reads and produces, and the insertion-ordered
    category map (a JavaScript `Map` from category name to accumulated quantity). */
module Records {
  import opened Common

  /** One line item of a stored order. `rating` is absent when the buyer left none. */
  datatype LineItem = LineItem(id: string, category: string, price: real, quantity: real, rating: Option<real>)

  /** One stored order of the user; only its line items matter to the engine. */
  datatype PurchaseRecord = PurchaseRecord(items: seq<LineItem>)

  /** A catalog product in the feature form the engine works on (`prepareProductFeatures`). */
  datatype Product = Product(id: string, name: string, category: string, price: real, rating: real,
                             tags: seq<string>, description: string)

  /** The ids of a product list. */
  function Ids(products: seq<Product>): set<string>
  {
    set p | p in products :: p.id
  }

  /** One entry of a category map. */
  datatype WeightEntry = WeightEntry(category: string, weight: real)

  /** A JavaScript `Map` from category to weight, as the list of its entries in insertion order. */
  type Weights = seq<WeightEntry>

  /** The user's preference profile. `priceMin == None` stands for the initial `Infinity`,
      which survives only when no line item was seen. */
  datatype Profile = Profile(categories: Weights, priceMin: Option<real>, priceMax: real,
                             averageRating: real, totalPurchases: nat)

  /** The reasons attached to a recommendation, in place of their fixed English sentences;
      `AiExplanation` carries the reply's `explanation` field as it was (absent when missing). */
  datatype Reason = CategoryPreference(category: string) | PriceFit | HighRating | AiExplanation(explanation: Option<Json>)

  datatype Recommendation = Recommendation(productId: string, name: string, category: string, price: real,
                                           rating: real, confidence: Num, reasons: seq<Reason>)

  /** The `ApiError` values the engine raises: an HTTP status and a message. */
  datatype ApiError = ApiError(status: nat, message: string)

  /** A JSON value as `JSON.parse` produces it; object members in source order. */
  datatype Json = JNull | JBool(b: bool) | JNumber(n: real) | JString(s: string)
                | JArray(elems: seq<Json>) | JObject(members: seq<(string, Json)>)

  /** Property read `obj[name]` on a parsed object: the last member with that name wins,
      as `JSON.parse` keeps the last duplicate. */
  function Field(members: seq<(string, Json)>, name: string): (r: Option<Json>)
    ensures r.Some? <==> exists i :: 0 <= i < |members| && members[i].0 == name
    ensures r.Some? ==> (name, r.value) in members
  {
    if |members| == 0 then None
    else if members[|members| - 1].0 == name then Some(members[|members| - 1].1)
    else
      var r := Field(members[..|members| - 1], name);
      assert forall i :: 0 <= i < |members| - 1 ==> members[..|members| - 1][i] == members[i];
      r
  }

  function Keys(ws: Weights): set<string>
  {
    set e | e in ws :: e.category
  }

  ghost predicate DistinctKeys(ws: Weights)
  {
    forall i, j :: 0 <= i < j < |ws| ==> ws[i].category != ws[j].category
  }

  /** `map.get(category) || 0`. */
  function Weight(ws: Weights, category: string): real
  {
    if |ws| == 0 then 0.0
    else if ws[0].category == category then ws[0].weight
    else Weight(ws[1..], category)
  }

  /** `map.set(category, w)`: overwrites an existing entry in place, else appends one. */
  function Put(ws: Weights, category: string, w: real): Weights
  {
    if |ws| == 0 then [WeightEntry(category, w)]
    else if ws[0].category == category then [WeightEntry(category, w)] + ws[1..]
    else [ws[0]] + Put(ws[1..], category, w)
  }

  /** A reported weight is 0 for an absent category and the entry's weight otherwise. */
  lemma {:induction false} WeightFound(ws: Weights, category: string)
    ensures category !in Keys(ws) ==> Weight(ws, category) == 0.0
    ensures category in Keys(ws) ==> WeightEntry(category, Weight(ws, category)) in ws
  {
    if |ws| > 0 && ws[0].category != category {
      assert Keys(ws) == {ws[0].category} + Keys(ws[1..]);
      WeightFound(ws[1..], category);
    }
  }

  /** Setting adds the key to the map; a new key is appended at the end. */
  lemma {:induction false} PutKeys(ws: Weights, category: string, w: real)
    ensures Keys(Put(ws, category, w)) == Keys(ws) + {category}
    ensures category !in Keys(ws) ==> Put(ws, category, w) == ws + [WeightEntry(category, w)]
  {
    if |ws| > 0 && ws[0].category != category {
      assert Keys(ws) == {ws[0].category} + Keys(ws[1..]);
      PutKeys(ws[1..], category, w);
      assert Keys(Put(ws, category, w)) == {ws[0].category} + Keys(Put(ws[1..], category, w));
    }
  }

  lemma {:induction false} PutGet(ws: Weights, category: string, w: real, other: string)
    ensures Weight(Put(ws, category, w), category) == w
    ensures other != category ==> Weight(Put(ws, category, w), other) == Weight(ws, other)
  {
    if |ws| > 0 && ws[0].category != category {
      PutGet(ws[1..], category, w, other);
    }
  }

  lemma {:induction false} PutKeepsDistinct(ws: Weights, category: string, w: real)
    requires DistinctKeys(ws)
    ensures DistinctKeys(Put(ws, category, w))
  {
    if |ws| > 0 && ws[0].category != category {
      var t := Put(ws[1..], category, w);
      assert DistinctKeys(ws[1..]) by {
        forall i, j | 0 <= i < j < |ws[1..]| ensures ws[1..][i].category != ws[1..][j].category {
          assert ws[1..][i] == ws[i + 1] && ws[1..][j] == ws[j + 1];
        }
      }
      PutKeepsDistinct(ws[1..], category, w);
      PutKeys(ws[1..], category, w);
      assert ws[0].category !in Keys(ws[1..]);
      var r := [ws[0]] + t;
      forall i, j | 0 <= i < j < |r| ensures r[i].category != r[j].category {
        if i == 0 {
          assert r[j] in t;
          assert r[j].category in Keys(t);
        } else {
          assert r[i] == t[i - 1] && r[j] == t[j - 1];
        }
      }
    } else if |ws| > 0 {
      var r := Put(ws, category, w);
      forall i, j | 0 <= i < j < |r| ensures r[i].category != r[j].category {
        assert r[j] == ws[j];
        if i > 0 { assert r[i] == ws[i]; }
      }
    }
  }

  /** `Math.max(...map.values())` for a non-empty map. */
  function MaxWeight(ws: Weights): (m: real)
    requires |ws| > 0
    ensures forall i :: 0 <= i < |ws| ==> ws[i].weight <= m
    ensures exists i :: 0 <= i < |ws| && ws[i].weight == m
  {
    if |ws| == 1 then ws[0].weight
    else
      var rest := MaxWeight(ws[1..]);
      assert forall i :: 1 <= i < |ws| ==> ws[i] == ws[1..][i - 1];
      MaxReal(ws[0].weight, rest)
  }

  /** Every weight the map reports, present or defaulted, is below a positive maximum. */
  lemma WeightBelowMax(ws: Weights, category: string)
    requires |ws| > 0 && MaxWeight(ws) > 0.0
    ensures Weight(ws, category) <= MaxWeight(ws)
  {
    WeightFound(ws, category);
    if category in Keys(ws) {
      var i :| 0 <= i < |ws| && ws[i] == WeightEntry(category, Weight(ws, category));
    }
  }

  /** Every weight in the map is non-negative. */
  ghost predicate NonNegativeWeights(ws: Weights)
  {
    forall i :: 0 <= i < |ws| ==> ws[i].weight >= 0.0
  }

  lemma WeightNonNegative(ws: Weights, category: string)
    requires NonNegativeWeights(ws)
    ensures Weight(ws, category) >= 0.0
  {
    WeightFound(ws, category);
    if category in Keys(ws) {
      var i :| 0 <= i < |ws| && ws[i] == WeightEntry(category, Weight(ws, category));
    }
  }
}
