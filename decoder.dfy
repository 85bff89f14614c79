/** Reading the inference service's reply (`processAIResponse`,
    services/recommendationService.js:260-278): the whole text is decoded as JSON, else the
    widest bracketed span found by the pattern `/\[[\s\S]*\]/`; the decoded list is then cut
    down to the entries naming a known candidate. `JSON.parse` itself is a parameter. */
module Decoder {
  import opened Common
  import opened Records

  /** Index of the first `[`. */
  function FirstOpen(s: string): (r: Option<nat>)
    ensures r.Some? ==> r.value < |s| && s[r.value] == '[' && forall k :: 0 <= k < r.value ==> s[k] != '['
    ensures r.None? ==> forall k :: 0 <= k < |s| ==> s[k] != '['
  {
    if |s| == 0 then None
    else if s[0] == '[' then Some(0)
    else match FirstOpen(s[1..])
      case None => None
      case Some(i) => Some(i + 1)
  }

  /** Index of the last `]`. */
  function LastClose(s: string): (r: Option<nat>)
    ensures r.Some? ==> r.value < |s| && s[r.value] == ']' && forall k :: r.value < k < |s| ==> s[k] != ']'
    ensures r.None? ==> forall k :: 0 <= k < |s| ==> s[k] != ']'
  {
    if |s| == 0 then None
    else if s[|s| - 1] == ']' then Some(|s| - 1)
    else LastClose(s[..|s| - 1])
  }

  /** What the greedy pattern `/\[[\s\S]*\]/` matches: from the first `[` to the last `]`,
      when that `]` comes after it. The match exists exactly when some `[` precedes some `]`,
      and it spans every such pair. */
  function BracketSpan(s: string): (r: Option<string>)
    ensures r.Some? <==> exists i, j :: 0 <= i < j < |s| && s[i] == '[' && s[j] == ']'
    ensures r.Some? ==> FirstOpen(s).Some? && LastClose(s).Some? &&
                        r.value == s[FirstOpen(s).value..LastClose(s).value + 1]
    ensures r.Some? ==> |r.value| >= 2 && r.value[0] == '[' && r.value[|r.value| - 1] == ']'
  {
    match (FirstOpen(s), LastClose(s))
    case (Some(i), Some(j)) =>
      if i < j then Some(s[i..j + 1])
      else
        assert forall a, b :: 0 <= a < b < |s| && s[a] == '[' ==> s[b] != ']' by {
          forall a, b | 0 <= a < b < |s| && s[a] == '[' ensures s[b] != ']' {
            assert a >= i;
          }
        }
        None
    case _ => None
  }

  /** `JSON.parse(reply)`, and on failure `JSON.parse` of the bracketed span; `None` stands
      for the error thrown when neither succeeds or no span exists. */
  function TolerantDecode(reply: string, parse: string -> Option<Json>): (r: Option<Json>)
    ensures parse(reply).Some? ==> r == parse(reply)
    ensures r.Some? && parse(reply).None? ==> BracketSpan(reply).Some? && r == parse(BracketSpan(reply).value)
    ensures parse(reply).None? && BracketSpan(reply).None? ==> r.None?
  {
    if parse(reply).Some? then parse(reply)
    else match BracketSpan(reply)
      case None => None
      case Some(span) => parse(span)
  }

  /** A JSON array wrapped in prose that contains no `[` before it and no `]` after it is
      recovered when the whole reply does not parse. */
  lemma ProseWrappedArrayDecodes(before: string, body: string, after: string, parse: string -> Option<Json>)
    requires forall k :: 0 <= k < |before| ==> before[k] != '['
    requires forall k :: 0 <= k < |after| ==> after[k] != ']'
    requires |body| >= 2 && body[0] == '[' && body[|body| - 1] == ']'
    requires parse(before + body + after).None? && parse(body).Some?
    ensures TolerantDecode(before + body + after, parse) == parse(body)
  {
    var s := before + body + after;
    var i := |before|;
    var j := |before| + |body| - 1;
    assert s[i] == '[' && s[j] == ']';
    assert FirstOpen(s).value == i by {
      forall k | 0 <= k < i ensures s[k] != '[' {
        assert s[k] == before[k];
      }
    }
    assert LastClose(s).value == j by {
      forall k | j < k < |s| ensures s[k] != ']' {
        assert s[k] == after[k - j - 1];
      }
    }
    assert s[i..j + 1] == body;
  }

  /** `productMap.get(id)`: the map is built from the candidate list, so a later product with
      the same id replaces an earlier one. */
  function FindProduct(products: seq<Product>, id: string): (r: Option<Product>)
    ensures r.Some? <==> id in Ids(products)
    ensures r.Some? ==> r.value.id == id
    ensures r.Some? ==> exists i :: 0 <= i < |products| && products[i] == r.value &&
                          (forall k :: i < k < |products| ==> products[k].id != id)
  {
    if |products| == 0 then None
    else if products[|products| - 1].id == id then Some(products[|products| - 1])
    else
      var init := products[..|products| - 1];
      var r := FindProduct(init, id);
      assert products == init + [products[|products| - 1]];
      assert Ids(products) == Ids(init) + {products[|products| - 1].id};
      if r.Some? then
        var i :| 0 <= i < |init| && init[i] == r.value && forall k :: i < k < |init| ==> init[k].id != id;
        assert products[i] == r.value;
        r
      else r
  }

  /** `rec.productId` when it is a string; any other value (or `undefined`) matches no key
      of the product map. */
  function ProductIdOf(e: Json): Option<string>
  {
    match e
    case JObject(members) =>
      (match Field(members, "productId")
       case Some(JString(id)) => Some(id)
       case _ => None)
    case _ => None
  }

  /** The filter `productMap.has(rec.productId)`. */
  predicate Known(e: Json, products: seq<Product>)
  {
    ProductIdOf(e).Some? && ProductIdOf(e).value in Ids(products)
  }

  /** A kept reply entry: the product it names and its `relevance` and `explanation` members
      (absent when missing). */
  datatype AiEntry = AiEntry(product: Product, relevance: Option<Json>, explanation: Option<Json>)

  function EntryOf(e: Json, products: seq<Product>): AiEntry
    requires Known(e, products)
  {
    AiEntry(FindProduct(products, ProductIdOf(e).value).value,
            Field(e.members, "relevance"), Field(e.members, "explanation"))
  }

  function KnownIn(products: seq<Product>): Json -> bool
  {
    (e: Json) => Known(e, products)
  }

  /** The decoded list filtered to known products, in reply order. `None` is the `TypeError`
      that reading `productId` of a `null` element raises. */
  function KnownEntries(elems: seq<Json>, products: seq<Product>): (r: Option<seq<AiEntry>>)
    ensures r.None? <==> JNull in elems
    ensures r.Some? ==> forall i :: 0 <= i < |r.value| ==> r.value[i].product in products
    ensures r.Some? ==> forall i :: 0 <= i < |r.value| ==> NamedIn(r.value[i], elems, products)
  {
    if JNull in elems then None
    else
      var kept := Filter(elems, KnownIn(products));
      var r := seq(|kept|, i requires 0 <= i < |kept| => EntryOf(kept[i], products));
      assert forall i :: 0 <= i < |r| ==> NamedIn(r[i], elems, products) by {
        forall i | 0 <= i < |r| ensures NamedIn(r[i], elems, products) {
          assert kept[i] in multiset(elems);
          var k :| 0 <= k < |elems| && elems[k] == kept[i];
        }
      }
      Some(r)
  }

  /** The entry is the one read from some element of the reply that names a known candidate. */
  ghost predicate NamedIn(e: AiEntry, elems: seq<Json>, products: seq<Product>)
  {
    exists k :: 0 <= k < |elems| && Known(elems[k], products) && e == EntryOf(elems[k], products)
  }

  /** Every entry naming a known candidate is kept. */
  lemma KnownEntriesComplete(elems: seq<Json>, products: seq<Product>, k: nat)
    requires JNull !in elems && k < |elems| && Known(elems[k], products)
    ensures EntryOf(elems[k], products) in KnownEntries(elems, products).value
  {
    var kept := Filter(elems, KnownIn(products));
    FilterKeepsAll(elems, KnownIn(products), k);
    var i :| 0 <= i < |kept| && kept[i] == elems[k];
    assert KnownEntries(elems, products).value[i] == EntryOf(elems[k], products);
  }
}
