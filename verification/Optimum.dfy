/** The first optimum of a list of offers, as both the contract's scan and the receipt
    verifier look for it. An absent offer does not compete. */
module Optimum {
  import opened Base

  datatype ClearingRule = HighestBid | LowestBid

  predicate Better(rule: ClearingRule, x: int, y: int) {
    match rule
    case HighestBid => x > y
    case LowestBid => x < y
  }

  /** The offer, by index, in the lead after the first n offers were seen. */
  function Leader(offers: seq<Option<int>>, rule: ClearingRule, n: nat): (k: Option<nat>)
    requires n <= |offers|
    ensures k.Some? ==> k.value < n && offers[k.value].Some?
  {
    if n == 0 then None
    else
      var lead := Leader(offers, rule, n - 1);
      if offers[n - 1].None? then lead
      else if lead.None? || Better(rule, offers[n - 1].value, offers[lead.value].value) then Some(n - 1)
      else lead
  }

  /** Offer k competes, none of the first n beats it, and it strictly beats every earlier one. */
  predicate FirstBest(offers: seq<Option<int>>, rule: ClearingRule, n: nat, k: nat)
    requires n <= |offers|
  {
    && k < n && offers[k].Some?
    && (forall j :: 0 <= j < n && offers[j].Some? ==> !Better(rule, offers[j].value, offers[k].value))
    && (forall j :: 0 <= j < k && offers[j].Some? ==> Better(rule, offers[k].value, offers[j].value))
  }

  /** The scan finds the first optimum, and finds nothing exactly when nobody competes. */
  lemma {:induction false} LeaderIsFirstBest(offers: seq<Option<int>>, rule: ClearingRule, n: nat)
    requires n <= |offers|
    ensures Leader(offers, rule, n).None? <==> forall j :: 0 <= j < n ==> offers[j].None?
    ensures forall k: nat :: Leader(offers, rule, n) == Some(k) <==> FirstBest(offers, rule, n, k)
  {
    if n > 0 {
      LeaderIsFirstBest(offers, rule, n - 1);
      var lead := Leader(offers, rule, n - 1);
      if lead.Some? {
        assert FirstBest(offers, rule, n - 1, lead.value);
      }
      var now := Leader(offers, rule, n);
      if now.Some? {
        assert FirstBest(offers, rule, n, now.value);
        forall k: nat | FirstBest(offers, rule, n, k) ensures k == now.value {
          FirstBestIsUnique(offers, rule, n, k, now.value);
        }
      }
    }
  }

  lemma FirstBestIsUnique(offers: seq<Option<int>>, rule: ClearingRule, n: nat, i: nat, j: nat)
    requires n <= |offers| && FirstBest(offers, rule, n, i) && FirstBest(offers, rule, n, j)
    ensures i == j
  {
  }
}
