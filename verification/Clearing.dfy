/** Winner selection: the scan of `clear` and `clear_v2` and what it finds. */
module Clearing {
  import opened Base
  import opened Optimum
  import opened Tokens
  import opened Rounds

  /** What a bidder competes with: the revealed amount of a valid submission. */
  function Offer(c: Cell, bidder: Address): Option<int> {
    if bidder in c.subs && c.subs[bidder].valid then c.subs[bidder].amount else None
  }

  function Offers(c: Cell): (offers: seq<Option<int>>)
    ensures |offers| == |c.round.bidders|
  {
    seq(|c.round.bidders|, k requires 0 <= k < |c.round.bidders| => Offer(c, c.round.bidders[k]))
  }

  /** The index of the winner among the bidders, if there is one. */
  function Verdict(c: Cell): (k: Option<nat>)
    ensures k.Some? ==> k.value < |c.round.bidders| && Offers(c)[k.value].Some?
  {
    Leader(Offers(c), c.round.rule, |Offers(c)|)
  }

  function WinningAmount(c: Cell): int
    requires Verdict(c).Some?
  {
    Offers(c)[Verdict(c).value].value
  }

  /** The loop of `clear` and `clear_v2` over mutable winner, best and found. Its contract
      says outright what it finds; that this is the verdict follows by uniqueness. */
  method ScanBids(c: Cell) returns (winner: Option<Address>, best: int, found: bool)
    ensures found <==> exists j :: 0 <= j < |Offers(c)| && Offers(c)[j].Some?
    ensures found ==> exists k: nat :: FirstBest(Offers(c), c.round.rule, |Offers(c)|, k)
                                  && winner == Some(c.round.bidders[k]) && Offers(c)[k] == Some(best)
    ensures !found ==> winner == None && best == 0
    ensures found <==> Verdict(c).Some?
    ensures found ==> winner == Some(c.round.bidders[Verdict(c).value]) && best == WinningAmount(c)
  {
    winner, best, found := None, 0, false;
    ghost var offers := Offers(c);
    var i := 0;
    while i < |c.round.bidders|
      invariant 0 <= i <= |c.round.bidders|
      invariant found <==> Leader(offers, c.round.rule, i).Some?
      invariant found ==> winner == Some(c.round.bidders[Leader(offers, c.round.rule, i).value])
                          && Some(best) == offers[Leader(offers, c.round.rule, i).value]
      invariant !found ==> winner == None && best == 0
    {
      var bidder := c.round.bidders[i];
      assert offers[i] == Offer(c, bidder);
      i := i + 1;
      if bidder !in c.subs {
        continue;
      }
      var state := c.subs[bidder];
      if !state.valid {
        continue;
      }
      if state.amount.None? {
        continue;
      }
      var amount := state.amount.value;
      var better := true;
      if found {
        match c.round.rule {
          case HighestBid => better := amount > best;
          case LowestBid => better := amount < best;
        }
      }
      if better {
        best := amount;
        winner := Some(bidder);
        found := true;
      }
    }
    LeaderIsFirstBest(offers, c.round.rule, |offers|);
    if found {
      assert FirstBest(offers, c.round.rule, |offers|, Verdict(c).value);
    }
  }

  /** Only the bidders and their offers decide the verdict. */
  lemma SameOffers(c: Cell, d: Cell)
    requires c.round.bidders == d.round.bidders && c.round.rule == d.round.rule
    requires forall a :: a in c.round.bidders ==> Offer(c, a) == Offer(d, a)
    ensures Offers(c) == Offers(d) && Verdict(c) == Verdict(d)
    ensures Verdict(c).Some? ==> WinningAmount(c) == WinningAmount(d)
  {
    assert Offers(c) == Offers(d);
  }
}
