/** What the offline verifier's verdict means: a receipt is acceptable exactly when the facts
    below hold of it, stated bidder by bidder and in integers instead of check by check. */
module Soundness {
  import opened Base
  import opened Envelope
  import opened Optimum
  import opened Rounds
  import opened Text
  import opened Receipts

  // ---- The facts ----

  /** 2n hex digits of either case. */
  predicate HexDigits(text: string, n: nat) {
    |text| == 2 * n && forall i :: 0 <= i < |text| ==> IsHexChar(text[i])
  }

  ghost predicate SomeHexDigits(text: string) {
    exists n: nat :: HexDigits(text, n)
  }

  predicate Reads(text: string) {
    Decimal(text).Some?
  }

  /** The receipt is of a known version and names network, contract and round properly. */
  ghost predicate Identified(k: Crypto, r: Receipt) {
    && r.protocolVersion == r.version && r.version in {2, 3}
    && |r.network| > 0 && r.networkFingerprint == ToHex(k.sha(k.utf8(r.network)))
    && |r.contractId| > 0 && r.contractId[0] == 'C' && Reads(r.roundId)
    && HexDigits(r.itemRef, 32) && HexDigits(r.schemaRef, 32) && SomeHexDigits(r.auditorPubkey)
    && 1 <= r.revealRound <= 0x1F_FFFF_FFFF_FFFF
    && 1 <= r.maxParticipants <= 25
  }

  /** A v3 receipt shows commit deadline < Drand's time < reveal deadline. */
  predicate Scheduled(r: Receipt) {
    && Reads(r.drandGenesis) && Reads(r.drandPeriod) && Reads(r.commitDeadline) && Reads(r.revealDeadline)
    && Decimal(r.drandGenesis).value >= 0 && Decimal(r.drandPeriod).value > 0
    && Decimal(r.commitDeadline).value < DrandTime(r) < Decimal(r.revealDeadline).value
  }

  function DrandTime(r: Receipt): int
    requires Reads(r.drandGenesis) && Reads(r.drandPeriod)
  {
    Decimal(r.drandGenesis).value + Decimal(r.drandPeriod).value * (r.revealRound - 1)
  }

  /** An owner-triggered policy is controlled by the operator, and its fallback lies after
      Drand's time and leaves 300 seconds to reveal. */
  predicate Controlled(r: Receipt, p: RevealReceipt)
    requires Scheduled(r)
  {
    p.OwnerReveal? ==>
      && p.controller == r.operator && Reads(p.fallbackAt)
      && DrandTime(r) < Decimal(p.fallbackAt).value
      && Decimal(p.fallbackAt).value + 300 <= Decimal(r.revealDeadline).value
  }

  /** An unopened or voided round has a null opening time, any other one in the window. */
  predicate OpenedInWindow(r: Receipt)
    requires Scheduled(r)
  {
    if r.status == Open || r.status == Voided then r.openedAt == Null
    else
      && r.openedAt.Present? && Reads(r.openedAt.text)
      && DrandTime(r) <= Decimal(r.openedAt.text).value <= Decimal(r.revealDeadline).value
  }

  predicate RevealFacts(r: Receipt) {
    && (r.version == 2 ==> r.revealPolicy == None && r.openedAt == Absent)
    && (r.version == 3 ==>
          && r.policy.enforced && r.revealPolicy.Some? && Scheduled(r)
          && Controlled(r, r.revealPolicy.value) && OpenedInWindow(r))
  }

  /** An enforced policy fixes an escrow that fits the mode; every bidder is on a non-empty
      allowlist, which lists nobody twice and fits the cap. */
  predicate PolicyFacts(r: Receipt) {
    var p := r.policy;
    && (if p.enforced then
          && p.fixedEscrow.Some? && Reads(p.fixedEscrow.value)
          && (if r.mode == Auction then Decimal(p.fixedEscrow.value).value > 0 else Decimal(p.fixedEscrow.value).value == 0)
          && (p.eligible != [] ==> forall b :: b in r.bidders ==> b in p.eligible)
        else p.fixedEscrow == None)
    && (p.participation == OpenToAll <==> p.eligible == [])
    && |p.eligible| <= r.maxParticipants
    && (forall i, j :: 0 <= i < j < |p.eligible| ==> p.eligible[i] != p.eligible[j])
  }

  /** An auction names both assets and a positive lot; a receipt-only round has no assets, no
      lot, no winner and no winning amount. */
  predicate AssetFacts(r: Receipt) {
    && Reads(r.lotAmount) && Reads(r.winningAmount) && Decimal(r.winningAmount).value >= 0
    && (if r.mode == Auction then
          && r.paymentAsset.Some? && |r.paymentAsset.value| > 0 && r.lotAsset.Some? && |r.lotAsset.value| > 0
          && Decimal(r.lotAmount).value > 0
        else
          && r.paymentAsset == None && r.lotAsset == None && Decimal(r.lotAmount).value == 0
          && r.winner == None && Decimal(r.winningAmount).value == 0)
  }

  /** The envelope hashes to the commitment and carries the stated amount. */
  ghost predicate EnvelopeFacts(k: Crypto, s: SubmissionReceipt) {
    if s.revealedEnvelope == None then !s.valid
    else
      && SomeHexDigits(s.revealedEnvelope.value)
      && IsHex(s.revealedEnvelope.value) && IsHex(s.commitment)
      && var bytes := HexBytes(s.revealedEnvelope.value);
         && k.sha(bytes) == HexBytes(s.commitment)
         && Decode(bytes).Ok?
         && Decode(bytes).value.amount == (if s.revealedAmount == None then None else Decimal(s.revealedAmount.value))
  }

  /** One submission: well-formed, within the policy, and if it is a valid bid, positive and
      covered by its escrow. */
  ghost predicate BidFacts(k: Crypto, r: Receipt, s: SubmissionReceipt) {
    && HexDigits(s.commitment, 32)
    && Reads(s.escrow) && Decimal(s.escrow).value >= 0
    && (s.revealedAmount.Some? ==> Reads(s.revealedAmount.value))
    && (r.policy.enforced && r.mode == Auction && r.policy.fixedEscrow.Some? && Reads(r.policy.fixedEscrow.value) ==>
          Decimal(s.escrow) == Decimal(r.policy.fixedEscrow.value))
    && EnvelopeFacts(k, s)
    && (r.mode == Auction && s.valid ==>
          && s.revealedAmount.Some? && Reads(s.revealedAmount.value)
          && 0 < Decimal(s.revealedAmount.value).value <= Decimal(s.escrow).value)
    && (r.status == Settled ==> s.settled)
    && (s.ciphertext.Some? ==> SomeHexDigits(s.ciphertext.value))
    && (s.auditorBlob.Some? ==> SomeHexDigits(s.auditorBlob.value))
  }

  /** The bidders are distinct, exactly those with a submission, and every submission is in
      order. */
  ghost predicate IndexFacts(k: Crypto, r: Receipt) {
    && (forall i, j :: 0 <= i < j < |r.bidders| ==> r.bidders[i] != r.bidders[j])
    && (forall b :: b in r.bidders <==> b in r.submissions)
    && (forall b :: b in r.submissions ==> BidFacts(k, r, r.submissions[b]))
  }

  /** The valid bid of a bidder. */
  function Bid(r: Receipt, b: string): Option<int> {
    if b in r.submissions && r.submissions[b].valid && r.submissions[b].revealedAmount.Some?
    then Decimal(r.submissions[b].revealedAmount.value) else None
  }

  /** Bidder w is the first with an unbeaten valid bid, and that is the winning amount. */
  predicate Wins(r: Receipt, w: nat)
    requires w < |r.bidders|
  {
    var bid := Bid(r, r.bidders[w]);
    && bid.Some? && r.winner == Some(r.bidders[w]) && Decimal(r.winningAmount) == bid
    && (forall j :: 0 <= j < |r.bidders| && Bid(r, r.bidders[j]).Some? ==>
          if r.rule == HighestBid then Bid(r, r.bidders[j]).value <= bid.value else Bid(r, r.bidders[j]).value >= bid.value)
    && (forall j :: 0 <= j < w ==> Bid(r, r.bidders[j]) != bid)
  }

  ghost predicate WinnerFacts(r: Receipt) {
    r.mode == Auction && (r.status == Cleared || r.status == Settled) ==> exists w: nat :: w < |r.bidders| && Wins(r, w)
  }

  // ---- The verdict means the facts ----

  lemma HexMeans(text: string)
    ensures IsHex(text) <==> SomeHexDigits(text)
    ensures IsHexOf(text, 32) <==> HexDigits(text, 32)
  {
    if IsHex(text) {
      assert HexDigits(text, |text| / 2);
    }
  }

  lemma HeaderMeans(k: Crypto, r: Receipt)
    ensures VersionOk(r) && HeaderOk(k, r) <==> Identified(k, r)
  {
    hide IsHex, IsHexOf, HexDigits, SomeHexDigits, Decimal, ToHex;
    HexMeans(r.itemRef);
    HexMeans(r.schemaRef);
    HexMeans(r.auditorPubkey);
  }

  lemma RevealMeans(k: Crypto, r: Receipt)
    requires Identified(k, r)
    ensures RevealOk(r) <==> RevealFacts(r)
  {
    hide Decimal, HexDigits, SomeHexDigits, ToHex;
  }

  lemma PolicyMeans(r: Receipt)
    ensures PolicyOk(r) <==> PolicyFacts(r)
  {
    hide Decimal;
    if PolicyFacts(r) && r.policy.eligible != [] && r.policy.enforced {
      forall i | 0 <= i < |r.bidders| ensures r.bidders[i] in r.policy.eligible {
      }
    }
  }

  lemma AmountsMean(r: Receipt)
    ensures AmountsOk(r) <==> AssetFacts(r)
  {
    hide Decimal;
  }

  lemma EnvelopeMeans(k: Crypto, s: SubmissionReceipt)
    requires HexDigits(s.commitment, 32)
    ensures EnvelopeOk(k, s) <==> EnvelopeFacts(k, s)
  {
    HexMeans(s.commitment);
    if s.revealedEnvelope.Some? {
      HexMeans(s.revealedEnvelope.value);
      HexOfBytes(s.commitment);
      if IsHex(s.revealedEnvelope.value) && ToHex(k.sha(HexBytes(s.revealedEnvelope.value))) == Lower(s.commitment) {
        HexIsInjective(k.sha(HexBytes(s.revealedEnvelope.value)), HexBytes(s.commitment));
      }
    }
    hide Decimal, Decode, HexBytes, ToHex, IsHexChar, SomeHexDigits, Lower;
  }

  lemma BidMeans(k: Crypto, r: Receipt, s: SubmissionReceipt)
    ensures SubmissionOk(k, r, s) <==> BidFacts(k, r, s)
  {
    hide Decimal, Decode, HexBytes, ToHex, Lower, IsHex, IsHexOf, HexDigits, SomeHexDigits, EnvelopeFacts;
    HexMeans(s.commitment);
    if s.ciphertext.Some? {
      HexMeans(s.ciphertext.value);
    }
    if s.auditorBlob.Some? {
      HexMeans(s.auditorBlob.value);
    }
    if HexDigits(s.commitment, 32) {
      EnvelopeMeans(k, s);
    }
  }

  lemma IndexMeans(k: Crypto, r: Receipt)
    ensures IndexOk(r) && SubmissionsOk(k, r, |r.bidders|) <==> IndexFacts(k, r)
  {
    hide SubmissionOk, BidFacts;
    forall b | b in r.submissions ensures SubmissionOk(k, r, r.submissions[b]) <==> BidFacts(k, r, r.submissions[b]) {
      BidMeans(k, r, r.submissions[b]);
    }
    if IndexOk(r) && SubmissionsOk(k, r, |r.bidders|) {
      forall b | b in r.submissions ensures BidFacts(k, r, r.submissions[b]) {
        var i :| 0 <= i < |r.bidders| && r.bidders[i] == b;
      }
    }
  }

  lemma OfferIsBid(k: Crypto, r: Receipt, b: string)
    requires r.mode == Auction && b in r.submissions && SubmissionOk(k, r, r.submissions[b])
    ensures ReceiptOffer(r, b) == Bid(r, b)
  {
    hide Decimal, Decode, HexBytes, ToHex, Lower, IsHex, IsHexOf;
  }

  lemma WinnerMeans(k: Crypto, r: Receipt)
    requires IndexOk(r) && SubmissionsOk(k, r, |r.bidders|) && AmountsOk(r)
    ensures WinnerOk(r) <==> WinnerFacts(r)
  {
    hide Decimal, SubmissionOk, ReceiptOffer, Bid, Leader, NoRepeats;
    if r.mode == Auction {
      var offers := ReceiptOffers(r);
      forall i | 0 <= i < |r.bidders| ensures offers[i] == Bid(r, r.bidders[i]) {
        OfferIsBid(k, r, r.bidders[i]);
      }
      LeaderIsFirstBest(offers, r.rule, |r.bidders|);
      forall w: nat | w < |r.bidders| && FirstBest(offers, r.rule, |r.bidders|, w)
        ensures r.winner == Some(r.bidders[w]) && Decimal(r.winningAmount) == offers[w] <==> Wins(r, w)
      {
      }
      forall w: nat | w < |r.bidders| && Wins(r, w) ensures FirstBest(offers, r.rule, |r.bidders|, w) {
        WinsIsFirstBest(r, offers, w);
      }
    }
  }

  lemma WinsIsFirstBest(r: Receipt, offers: seq<Option<int>>, w: nat)
    requires |offers| == |r.bidders| && forall i :: 0 <= i < |offers| ==> offers[i] == Bid(r, r.bidders[i])
    requires w < |r.bidders| && Wins(r, w)
    ensures FirstBest(offers, r.rule, |offers|, w)
  {
    hide Decimal, Bid;
  }

  /** The verifier's verdict: a receipt is acceptable exactly when it is identified, its
      reveal policy, partner policy and assets are in order, its bidders are distinct and
      match sound submissions, and the declared winner is the first unbeaten valid bidder. */
  lemma AcceptableMeans(k: Crypto, r: Receipt)
    ensures Acceptable(k, r) <==>
            && Identified(k, r) && RevealFacts(r) && PolicyFacts(r) && AssetFacts(r) && IndexFacts(k, r) && WinnerFacts(r)
  {
    hide HeaderOk, VersionOk, RevealOk, PolicyOk, AmountsOk, IndexOk, SubmissionsOk, WinnerOk;
    hide Identified, RevealFacts, PolicyFacts, AssetFacts, IndexFacts, WinnerFacts;
    HeaderMeans(k, r);
    if Identified(k, r) {
      RevealMeans(k, r);
    }
    PolicyMeans(r);
    AmountsMean(r);
    IndexMeans(k, r);
    if IndexOk(r) && SubmissionsOk(k, r, |r.bidders|) && AmountsOk(r) {
      WinnerMeans(k, r);
    }
  }

  /** In an acceptable receipt with an enforced policy every bidder is on the allowlist, if
      there is one, and in an auction every escrow is the fixed escrow, a positive amount. */
  lemma AcceptedPolicy(k: Crypto, r: Receipt, b: string)
    requires Acceptable(k, r) && r.policy.enforced && b in r.bidders
    ensures r.policy.eligible != [] ==> b in r.policy.eligible
    ensures b in r.submissions && r.policy.fixedEscrow.Some? && Decimal(r.policy.fixedEscrow.value).Some?
    ensures r.mode == Auction ==>
              Decimal(r.submissions[b].escrow) == Decimal(r.policy.fixedEscrow.value) && Decimal(r.policy.fixedEscrow.value).value > 0
    ensures r.mode == ReceiptOnly ==> Decimal(r.policy.fixedEscrow.value).value == 0
  {
    hide Acceptable, Decimal, EnvelopeFacts, HexDigits, SomeHexDigits, Identified, RevealFacts, AssetFacts, WinnerFacts;
    AcceptableMeans(k, r);
    assert BidFacts(k, r, r.submissions[b]);
  }

  /** In an acceptable v3 receipt the deadlines enclose Drand's time, an owner-triggered
      policy belongs to the operator and leaves 300 seconds after its fallback, and a round
      that was opened was opened inside the window. */
  lemma AcceptedTiming(k: Crypto, r: Receipt)
    requires Acceptable(k, r) && r.version == 3
    ensures Decimal(r.drandGenesis).Some? && Decimal(r.drandPeriod).Some? && Decimal(r.commitDeadline).Some?
            && Decimal(r.revealDeadline).Some? && r.revealPolicy.Some?
    ensures var drand := Decimal(r.drandGenesis).value + Decimal(r.drandPeriod).value * (r.revealRound - 1);
            && Decimal(r.commitDeadline).value < drand < Decimal(r.revealDeadline).value
            && (r.revealPolicy.value.OwnerReveal? ==>
                  && r.revealPolicy.value.controller == r.operator
                  && Decimal(r.revealPolicy.value.fallbackAt).Some?
                  && drand < Decimal(r.revealPolicy.value.fallbackAt).value
                  && Decimal(r.revealPolicy.value.fallbackAt).value + 300 <= Decimal(r.revealDeadline).value)
            && (if r.status == Open || r.status == Voided then r.openedAt == Null
                else r.openedAt.Present? && Decimal(r.openedAt.text).Some?
                     && drand <= Decimal(r.openedAt.text).value <= Decimal(r.revealDeadline).value)
  {
    hide Acceptable, Decimal, HexDigits, SomeHexDigits, Identified, PolicyFacts, IndexFacts, AssetFacts, WinnerFacts;
    AcceptableMeans(k, r);
  }
}
