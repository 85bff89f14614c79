/** Candidate selection in `generateRecommendations` (services/recommendationService.js:44-53):
    catalog products the user has not bought. */
module Candidates {
  import opened Common
  import opened Records
  import opened Preferences

  /** The ids of every line item of every stored order. */
  function PurchasedIds(history: seq<PurchaseRecord>): set<string>
  {
    set item | item in AllItems(history) :: item.id
  }

  /** The catalog products, in catalog order, whose id no stored line item carries. */
  function Available(catalog: seq<Product>, history: seq<PurchaseRecord>): (r: seq<Product>)
    ensures forall i :: 0 <= i < |r| ==> r[i] in catalog && r[i].id !in PurchasedIds(history)
    ensures |r| <= |catalog|
  {
    var purchased := PurchasedIds(history);
    var r := Filter(catalog, (p: Product) => p.id !in purchased);
    assert forall i :: 0 <= i < |r| ==> r[i] in multiset(catalog);
    r
  }

  /** Every catalog product the user has not bought is a candidate. */
  lemma CandidatesComplete(catalog: seq<Product>, history: seq<PurchaseRecord>, i: nat)
    requires i < |catalog| && catalog[i].id !in PurchasedIds(history)
    ensures catalog[i] in Available(catalog, history)
  {
    var purchased := PurchasedIds(history);
    FilterKeepsAll(catalog, (p: Product) => p.id !in purchased, i);
  }

  /** No candidate id is a purchased id. */
  lemma CandidateIdsNotPurchased(catalog: seq<Product>, history: seq<PurchaseRecord>)
    ensures Ids(Available(catalog, history)) !! PurchasedIds(history)
    ensures Ids(Available(catalog, history)) <= Ids(catalog)
  {
    var r := Available(catalog, history);
    forall id | id in Ids(r) ensures id !in PurchasedIds(history) && id in Ids(catalog) {
      var p :| p in r && p.id == id;
      var i :| 0 <= i < |r| && r[i] == p;
    }
  }

  /** A user who bought every catalog product has no candidate. */
  lemma AllBoughtNoneAvailable(catalog: seq<Product>, history: seq<PurchaseRecord>)
    requires forall p :: p in catalog ==> p.id in PurchasedIds(history)
    ensures Available(catalog, history) == []
  {
    var purchased := PurchasedIds(history);
    FilterNone(catalog, (p: Product) => p.id !in purchased);
  }
}
