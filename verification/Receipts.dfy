/** Core v2 receipts and their offline verifier (packages/sdk/src/receipt-v2.ts). The verifier
    re-derives timing, policy and winner from the receipt alone. */
module Receipts {
  import opened Base
  import opened Envelope
  import opened Optimum
  import opened Rounds
  import opened Text

  const MAX_SAFE_INTEGER := 0x1F_FFFF_FFFF_FFFF

  datatype SubmissionReceipt = SubmissionReceipt(
    commitment: string,
    escrow: string,
    revealedEnvelope: Option<string>,
    revealedAmount: Option<string>,
    valid: bool,
    settled: bool,
    ciphertext: Option<string>,
    auditorBlob: Option<string>)

  datatype Participation = OpenToAll | Allowlist

  datatype PolicyReceipt = PolicyReceipt(
    enforced: bool,
    fixedEscrow: Option<string>,
    participation: Participation,
    eligible: seq<string>)

  datatype RevealReceipt = TimedReveal | OwnerReveal(controller: string, fallbackAt: string)

  /** The three forms of an optional nullable JSON field. */
  datatype Field = Absent | Null | Present(text: string)

  datatype Receipt = Receipt(
    version: int,
    protocolVersion: int,
    revealPolicy: Option<RevealReceipt>,
    openedAt: Field,
    network: string,
    networkFingerprint: string,
    contractId: string,
    roundId: string,
    itemRef: string,
    schemaRef: string,
    mode: RoundMode,
    paymentAsset: Option<string>,
    lotAsset: Option<string>,
    lotAmount: string,
    revealRound: int,
    drandGenesis: string,
    drandPeriod: string,
    rule: ClearingRule,
    commitDeadline: string,
    revealDeadline: string,
    operator: string,
    auditorPubkey: string,
    maxParticipants: int,
    policy: PolicyReceipt,
    bidders: seq<string>,
    submissions: map<string, SubmissionReceipt>,
    winner: Option<string>,
    winningAmount: string,
    status: Status)

  /** The primitives of the environment: SHA-256 and UTF-8 encoding. */
  datatype Crypto = Crypto(sha: Bytes -> Digest, utf8: string -> Bytes)

  // ---- What makes a receipt acceptable ----

  predicate VersionOk(r: Receipt) {
    (r.version == 2 || r.version == 3) && r.protocolVersion == r.version
  }

  predicate SafeRound(round: int) {
    0 < round <= MAX_SAFE_INTEGER
  }

  predicate HeaderOk(k: Crypto, r: Receipt) {
    && r.network != "" && r.networkFingerprint == ToHex(k.sha(k.utf8(r.network)))
    && r.contractId != "" && r.contractId[0] == 'C'
    && Decimal(r.roundId).Some?
    && IsHexOf(r.itemRef, 32) && IsHexOf(r.schemaRef, 32) && IsHex(r.auditorPubkey)
    && SafeRound(r.revealRound)
    && 1 <= r.maxParticipants <= MAX_V2_PARTICIPANTS
  }

  predicate AtLeast(n: Option<int>, bound: int) {
    n.Some? && n.value >= bound
  }

  /** The Drand time the receipt implies, in unbounded integers. */
  function Privacy(r: Receipt): Option<int> {
    var genesis, period := Decimal(r.drandGenesis), Decimal(r.drandPeriod);
    if AtLeast(genesis, 0) && AtLeast(period, 1) && SafeRound(r.revealRound)
    then Some(genesis.value + period.value * (r.revealRound - 1))
    else None
  }

  predicate TimingOk(r: Receipt) {
    var privacy, commit, deadline := Privacy(r), Decimal(r.commitDeadline), Decimal(r.revealDeadline);
    privacy.Some? && commit.Some? && deadline.Some? && commit.value < privacy.value < deadline.value
  }

  predicate OwnerOk(r: Receipt, p: RevealReceipt) {
    p.OwnerReveal? ==>
      var privacy, deadline, fallback := Privacy(r), Decimal(r.revealDeadline), Decimal(p.fallbackAt);
      && p.controller == r.operator && fallback.Some? && privacy.Some? && deadline.Some?
      && fallback.value > privacy.value && deadline.value - fallback.value >= MIN_REVEAL_WINDOW
  }

  predicate OpenedOk(r: Receipt) {
    if r.status == Open || r.status == Voided then r.openedAt == Null
    else
      var privacy, deadline := Privacy(r), Decimal(r.revealDeadline);
      var openTime := if r.openedAt.Present? then Decimal(r.openedAt.text) else None;
      openTime.Some? && privacy.Some? && deadline.Some? && privacy.value <= openTime.value <= deadline.value
  }

  predicate RevealOk(r: Receipt) {
    if r.version == 3 then
      r.policy.enforced && TimingOk(r) && r.revealPolicy.Some? && OwnerOk(r, r.revealPolicy.value) && OpenedOk(r)
    else r.revealPolicy == None && r.openedAt == Absent
  }

  function FixedEscrow(r: Receipt): Option<int> {
    if r.policy.fixedEscrow.None? then None else Decimal(r.policy.fixedEscrow.value)
  }

  predicate PolicyOk(r: Receipt) {
    var p := r.policy;
    && (p.enforced ==> FixedEscrow(r).Some?)
    && (!p.enforced ==> p.fixedEscrow == None)
    && NoRepeats(p.eligible)
    && |p.eligible| <= r.maxParticipants
    && p.participation == (if p.eligible == [] then OpenToAll else Allowlist)
    && (p.enforced && p.eligible != [] ==> forall k :: 0 <= k < |r.bidders| ==> r.bidders[k] in p.eligible)
    && (p.enforced && r.mode == Auction ==> AtLeast(FixedEscrow(r), 1))
    && (p.enforced && r.mode == ReceiptOnly ==> FixedEscrow(r) == Some(0))
  }

  predicate Named(asset: Option<string>) {
    asset.Some? && asset.value != ""
  }

  predicate AmountsOk(r: Receipt) {
    && AtLeast(Decimal(r.lotAmount), 0) && AtLeast(Decimal(r.winningAmount), 0)
    && (r.mode == Auction ==> Named(r.paymentAsset) && Named(r.lotAsset) && AtLeast(Decimal(r.lotAmount), 1))
    && (r.mode == ReceiptOnly ==>
          && r.paymentAsset == None && r.lotAsset == None && Decimal(r.lotAmount) == Some(0)
          && r.winner == None && Decimal(r.winningAmount) == Some(0))
  }

  predicate IndexOk(r: Receipt) {
    && NoRepeats(r.bidders)
    && (forall k :: 0 <= k < |r.bidders| ==> r.bidders[k] in r.submissions)
    && (forall b :: b in r.submissions ==> b in r.bidders)
  }

  /** The amount a revealed envelope carries. */
  function EnvelopeAmount(s: SubmissionReceipt): Option<int> {
    if s.revealedEnvelope.Some? && IsHex(s.revealedEnvelope.value)
       && Decode(HexBytes(s.revealedEnvelope.value)).Ok?
    then Decode(HexBytes(s.revealedEnvelope.value)).value.amount
    else None
  }

  function StateAmount(s: SubmissionReceipt): Option<int> {
    if s.revealedAmount.None? then None else Decimal(s.revealedAmount.value)
  }

  predicate EnvelopeOk(k: Crypto, s: SubmissionReceipt) {
    match s.revealedEnvelope
    case None => !s.valid
    case Some(hex) =>
      && IsHex(hex)
      && ToHex(k.sha(HexBytes(hex))) == Lower(s.commitment)
      && Decode(HexBytes(hex)).Ok? && EnvelopeAmount(s) == StateAmount(s)
  }

  predicate HexOrNull(text: Option<string>) {
    text.Some? ==> IsHex(text.value)
  }

  predicate SubmissionOk(k: Crypto, r: Receipt, s: SubmissionReceipt) {
    && IsHexOf(s.commitment, 32)
    && AtLeast(Decimal(s.escrow), 0)
    && (s.revealedAmount.Some? ==> StateAmount(s).Some?)
    && (r.policy.enforced && r.mode == Auction && FixedEscrow(r).Some? ==> Decimal(s.escrow) == FixedEscrow(r))
    && EnvelopeOk(k, s)
    && (r.mode == Auction && s.valid ==>
          AtLeast(EnvelopeAmount(s), 1) && EnvelopeAmount(s).value <= Decimal(s.escrow).value)
    && (r.status == Settled ==> s.settled)
    && HexOrNull(s.ciphertext) && HexOrNull(s.auditorBlob)
  }

  predicate SubmissionsOk(k: Crypto, r: Receipt, n: nat)
    requires n <= |r.bidders|
  {
    forall i :: 0 <= i < n && r.bidders[i] in r.submissions ==> SubmissionOk(k, r, r.submissions[r.bidders[i]])
  }

  /** What the verifier lets a bidder compete with. */
  function ReceiptOffer(r: Receipt, b: string): Option<int> {
    if b !in r.submissions then None
    else
      var s := r.submissions[b];
      var escrow := Decimal(s.escrow);
      if r.mode == Auction && s.valid && AtLeast(EnvelopeAmount(s), 1)
         && !(escrow.Some? && EnvelopeAmount(s).value > escrow.value)
      then EnvelopeAmount(s)
      else None
  }

  function ReceiptOffers(r: Receipt): (offers: seq<Option<int>>)
    ensures |offers| == |r.bidders|
  {
    seq(|r.bidders|, k requires 0 <= k < |r.bidders| => ReceiptOffer(r, r.bidders[k]))
  }

  function LeadingBidder(r: Receipt, n: nat): Option<string>
    requires n <= |r.bidders|
  {
    var k := Leader(ReceiptOffers(r), r.rule, n);
    if k.None? then None else Some(r.bidders[k.value])
  }

  function LeadingAmount(r: Receipt, n: nat): Option<int>
    requires n <= |r.bidders|
  {
    var k := Leader(ReceiptOffers(r), r.rule, n);
    if k.None? then None else ReceiptOffers(r)[k.value]
  }

  predicate WinnerOk(r: Receipt) {
    r.mode == Auction && (r.status == Cleared || r.status == Settled) ==>
      && LeadingBidder(r, |r.bidders|) == r.winner
      && LeadingAmount(r, |r.bidders|) == Decimal(r.winningAmount)
  }

  predicate Acceptable(k: Crypto, r: Receipt) {
    && VersionOk(r)
    && HeaderOk(k, r)
    && RevealOk(r)
    && PolicyOk(r)
    && AmountsOk(r)
    && IndexOk(r)
    && SubmissionsOk(k, r, |r.bidders|)
    && WinnerOk(r)
  }

  // ---- The verifier ----

  datatype Severity = Wrong | Warning
  datatype Issue = Issue(severity: Severity, code: string)

  predicate NoErrors(issues: seq<Issue>) {
    forall k :: 0 <= k < |issues| ==> issues[k].severity != Wrong
  }

  /** The verifier's `add`. */
  function Add(issues: seq<Issue>, severity: Severity, code: string): (more: seq<Issue>)
    ensures NoErrors(more) <==> NoErrors(issues) && severity != Wrong
    ensures |more| == |issues| + 1
  {
    var more := issues + [Issue(severity, code)];
    assert more[|issues|].severity == severity;
    assert forall k :: 0 <= k < |issues| ==> more[k] == issues[k];
    more
  }

  function Join(a: seq<Issue>, b: seq<Issue>): (both: seq<Issue>)
    ensures NoErrors(both) <==> NoErrors(a) && NoErrors(b)
  {
    var both := a + b;
    assert forall k :: 0 <= k < |a| ==> both[k] == a[k];
    assert forall k :: 0 <= k < |b| ==> both[|a| + k] == b[k];
    both
  }

  lemma NoErrorsYet()
    ensures NoErrors([])
  {
  }

  method CheckHeader(k: Crypto, r: Receipt) returns (issues: seq<Issue>)
    ensures NoErrors(issues) <==> HeaderOk(k, r)
  {
    hide NoErrors, Add, IsHexOf, IsHex, Decimal, ToHex;
    NoErrorsYet();
    issues := [];
    if r.network == "" || r.networkFingerprint != ToHex(k.sha(k.utf8(r.network))) {
      issues := Add(issues, Wrong, "network_mismatch");
    }
    if r.contractId == "" || r.contractId[0] != 'C' {
      issues := Add(issues, Wrong, "invalid_contract_id");
    }
    if Decimal(r.roundId).None? {
      issues := Add(issues, Wrong, "invalid_round_id");
    }
    if !IsHexOf(r.itemRef, 32) {
      issues := Add(issues, Wrong, "invalid_item_ref");
    }
    if !IsHexOf(r.schemaRef, 32) {
      issues := Add(issues, Wrong, "invalid_schema_ref");
    }
    if !IsHex(r.auditorPubkey) {
      issues := Add(issues, Wrong, "invalid_auditor_key");
    }
    if !SafeRound(r.revealRound) {
      issues := Add(issues, Wrong, "invalid_reveal_round");
    }
    if r.maxParticipants < 1 || r.maxParticipants > MAX_V2_PARTICIPANTS {
      issues := Add(issues, Wrong, "invalid_participant_cap");
    }
  }

  method CheckReveal(r: Receipt) returns (issues: seq<Issue>)
    requires VersionOk(r)
    ensures NoErrors(issues) <==> RevealOk(r)
  {
    hide NoErrors, Add, Decimal;
    NoErrorsYet();
    issues := [];
    if r.version == 3 {
      if !r.policy.enforced {
        issues := Add(issues, Wrong, "missing_partner_policy");
      }
      var privacy, commit, deadline := Privacy(r), Decimal(r.commitDeadline), Decimal(r.revealDeadline);
      if privacy.None? || commit.None? || deadline.None? || commit.value >= privacy.value || deadline.value <= privacy.value {
        issues := Add(issues, Wrong, "invalid_reveal_timing");
      }
      if r.revealPolicy.None? {
        issues := Add(issues, Wrong, "invalid_reveal_policy");
      } else if r.revealPolicy.value.OwnerReveal? {
        var p := r.revealPolicy.value;
        var fallback := Decimal(p.fallbackAt);
        if p.controller != r.operator || fallback.None? || privacy.None? || deadline.None?
           || fallback.value <= privacy.value || deadline.value - fallback.value < MIN_REVEAL_WINDOW {
          issues := Add(issues, Wrong, "invalid_reveal_policy");
        }
      }
      var openTime := if r.openedAt.Present? then Decimal(r.openedAt.text) else None;
      if r.status == Open || r.status == Voided {
        if r.openedAt != Null {
          issues := Add(issues, Wrong, "invalid_opened_at");
        }
      } else if openTime.None? || privacy.None? || deadline.None? || openTime.value < privacy.value || openTime.value > deadline.value {
        issues := Add(issues, Wrong, "invalid_opened_at");
      }
    } else if r.revealPolicy.Some? || r.openedAt != Absent {
      issues := Add(issues, Wrong, "unexpected_reveal_policy");
    }
  }

  method CheckPolicy(r: Receipt) returns (issues: seq<Issue>)
    ensures NoErrors(issues) <==> PolicyOk(r)
  {
    hide NoErrors, Add, Decimal;
    NoErrorsYet();
    issues := [];
    var p := r.policy;
    var fixedEscrow := FixedEscrow(r);
    if p.enforced && fixedEscrow.None? {
      issues := Add(issues, Wrong, "invalid_fixed_escrow");
    }
    if !p.enforced && p.fixedEscrow.Some? {
      issues := Add(issues, Wrong, "legacy_policy_has_escrow");
    }
    var eligible := set e | e in p.eligible;
    DistinctCount(p.eligible);
    if |eligible| != |p.eligible| {
      issues := Add(issues, Wrong, "duplicate_eligible_participant");
    }
    if |p.eligible| > r.maxParticipants {
      issues := Add(issues, Wrong, "eligibility_exceeds_cap");
    }
    assert |eligible| == 0 <==> p.eligible == [] by {
      if p.eligible != [] {
        assert p.eligible[0] in eligible;
      }
    }
    var expected := if |eligible| == 0 then OpenToAll else Allowlist;
    if p.participation != expected {
      issues := Add(issues, Wrong, "participation_mismatch");
    }
    if p.enforced && |eligible| > 0 {
      ghost var before := issues;
      for i := 0 to |r.bidders|
        invariant NoErrors(issues) <==> NoErrors(before) && forall k :: 0 <= k < i ==> r.bidders[k] in p.eligible
      {
        if r.bidders[i] !in eligible {
          issues := Add(issues, Wrong, "ineligible_bidder");
        }
      }
    }
    if p.enforced && r.mode == Auction && (fixedEscrow.None? || fixedEscrow.value <= 0) {
      issues := Add(issues, Wrong, "invalid_fixed_escrow");
    }
    if p.enforced && r.mode == ReceiptOnly && fixedEscrow != Some(0) {
      issues := Add(issues, Wrong, "receipt_only_fixed_escrow");
    }
    if !p.enforced {
      issues := Add(issues, Warning, "legacy_policy");
    }
  }

  /** A set has as many elements as the list it was made of exactly when nothing repeats. */
  lemma {:induction false} DistinctCount(s: seq<string>)
    ensures |set e | e in s| <= |s|
    ensures |set e | e in s| == |s| <==> NoRepeats(s)
  {
    if s != [] {
      var front, last := s[..|s| - 1], s[|s| - 1];
      DistinctCount(front);
      assert s == front + [last];
      assert (set e | e in s) == (set e | e in front) + {last};
      if last in front {
        assert (set e | e in s) == (set e | e in front);
        var i :| 0 <= i < |front| && front[i] == last;
        assert s[i] == s[|s| - 1];
      } else {
        assert NoRepeats(front) ==> NoRepeats(s);
        assert NoRepeats(s) ==> NoRepeats(front);
      }
    }
  }

  method CheckAmounts(r: Receipt) returns (issues: seq<Issue>)
    ensures NoErrors(issues) <==> AmountsOk(r)
  {
    hide NoErrors, Add, Decimal;
    NoErrorsYet();
    issues := [];
    var lotAmount, winningAmount := Decimal(r.lotAmount), Decimal(r.winningAmount);
    if lotAmount.None? || lotAmount.value < 0 {
      issues := Add(issues, Wrong, "invalid_lot_amount");
    }
    if winningAmount.None? || winningAmount.value < 0 {
      issues := Add(issues, Wrong, "invalid_winning_amount");
    }
    match r.mode {
      case Auction =>
        if !Named(r.paymentAsset) || !Named(r.lotAsset) || lotAmount.None? || lotAmount.value <= 0 {
          issues := Add(issues, Wrong, "invalid_auction_assets");
        }
      case ReceiptOnly =>
        if r.paymentAsset.Some? || r.lotAsset.Some? || lotAmount != Some(0) {
          issues := Add(issues, Wrong, "receipt_only_has_assets");
        }
        if r.winner.Some? || winningAmount != Some(0) {
          issues := Add(issues, Wrong, "receipt_only_has_winner");
        }
    }
  }

  method CheckIndex(r: Receipt) returns (issues: seq<Issue>)
    ensures NoErrors(issues) <==> IndexOk(r)
  {
    hide NoErrors, Add;
    NoErrorsYet();
    issues := [];
    var bidderSet: set<string> := {};
    for i := 0 to |r.bidders|
      invariant bidderSet == set b | b in r.bidders[..i]
      invariant NoErrors(issues) <==>
                NoRepeats(r.bidders[..i]) && forall k :: 0 <= k < i ==> r.bidders[k] in r.submissions
    {
      var bidder := r.bidders[i];
      assert r.bidders[..i + 1] == r.bidders[..i] + [bidder];
      if bidder in bidderSet {
        issues := Add(issues, Wrong, "duplicate_bidder");
        var j :| 0 <= j < i && r.bidders[..i][j] == bidder;
        assert r.bidders[..i + 1][j] == r.bidders[..i + 1][i];
      } else {
        assert NoRepeats(r.bidders[..i + 1]) ==> NoRepeats(r.bidders[..i]);
      }
      bidderSet := bidderSet + {bidder};
      if bidder !in r.submissions {
        issues := Add(issues, Wrong, "missing_submission");
      }
    }
    assert r.bidders[..|r.bidders|] == r.bidders;
    ghost var before := issues;
    var keys := r.submissions.Keys;
    ghost var done: set<string> := {};
    while keys != {}
      invariant keys + done == r.submissions.Keys
      invariant NoErrors(issues) <==> NoErrors(before) && forall b :: b in done ==> b in r.bidders
      decreases |keys|
    {
      var bidder :| bidder in keys;
      keys := keys - {bidder};
      done := done + {bidder};
      if bidder !in bidderSet {
        issues := Add(issues, Wrong, "orphan_submission");
      }
    }
  }

  /** The checks on one submission; `offer` is what the bidder competes with. */
  method CheckSubmission(k: Crypto, r: Receipt, bidder: string) returns (issues: seq<Issue>, offer: Option<int>)
    requires bidder in r.submissions
    ensures NoErrors(issues) <==> SubmissionOk(k, r, r.submissions[bidder])
    ensures offer == ReceiptOffer(r, bidder)
  {
    hide NoErrors, Add, Join, Decimal, Decode, HexBytes, Lower, IsHex, EnvelopeOk, EnvelopeAmount, StateAmount, FixedEscrow, HexOrNull;
    NoErrorsYet();
    var s := r.submissions[bidder];
    issues, offer := [], None;
    if !IsHexOf(s.commitment, 32) {
      issues := Add(issues, Wrong, "invalid_commitment");
    }
    var escrow := Decimal(s.escrow);
    if escrow.None? || escrow.value < 0 {
      issues := Add(issues, Wrong, "invalid_escrow");
    }
    var stateAmount := StateAmount(s);
    if s.revealedAmount.Some? && stateAmount.None? {
      issues := Add(issues, Wrong, "invalid_revealed_amount");
    }
    var policyEscrow := FixedEscrow(r);
    if r.policy.enforced && r.mode == Auction && escrow.Some? && policyEscrow.Some? && escrow != policyEscrow {
      issues := Add(issues, Wrong, "escrow_policy_mismatch");
    }
    var more, envelopeAmount := CheckEnvelope(k, s);
    issues := Join(issues, more);
    if r.mode == Auction && s.valid {
      if envelopeAmount.None? || envelopeAmount.value <= 0 {
        issues := Add(issues, Wrong, "auction_amount_missing");
      } else if escrow.Some? && envelopeAmount.value > escrow.value {
        issues := Add(issues, Wrong, "bid_exceeds_escrow");
      } else {
        offer := envelopeAmount;
      }
    }
    if r.status == Settled && !s.settled {
      issues := Add(issues, Wrong, "unsettled_submission");
    }
    var evidence := CheckEvidence(s);
    issues := Join(issues, evidence);
  }

  method CheckEvidence(s: SubmissionReceipt) returns (issues: seq<Issue>)
    ensures NoErrors(issues) <==> HexOrNull(s.ciphertext) && HexOrNull(s.auditorBlob)
  {
    hide NoErrors, Add, IsHex;
    NoErrorsYet();
    issues := [];
    if s.ciphertext.Some? && !IsHex(s.ciphertext.value) {
      issues := Add(issues, Wrong, "invalid_evidence_hex");
    }
    if s.auditorBlob.Some? && !IsHex(s.auditorBlob.value) {
      issues := Add(issues, Wrong, "invalid_evidence_hex");
    }
  }

  method CheckEnvelope(k: Crypto, s: SubmissionReceipt) returns (issues: seq<Issue>, envelopeAmount: Option<int>)
    ensures NoErrors(issues) <==> EnvelopeOk(k, s)
    ensures envelopeAmount == EnvelopeAmount(s)
  {
    hide NoErrors, Add, Decimal, Decode, HexBytes, Lower;
    NoErrorsYet();
    issues, envelopeAmount := [], None;
    if s.revealedEnvelope.Some? {
      var hex := s.revealedEnvelope.value;
      if !IsHex(hex) {
        issues := Add(issues, Wrong, "invalid_envelope_hex");
      } else {
        HexHasNoPrefix(hex);
        var bytes := FromHex(hex);
        if ToHex(k.sha(bytes.value)) != Lower(s.commitment) {
          issues := Add(issues, Wrong, "commitment_mismatch");
        }
        var envelope := Decode(bytes.value);
        if envelope.Ok? {
          envelopeAmount := envelope.value.amount;
          if envelopeAmount != StateAmount(s) {
            issues := Add(issues, Wrong, "amount_mismatch");
          }
        } else {
          issues := Add(issues, Wrong, "malformed_envelope");
        }
      }
    } else if s.valid {
      issues := Add(issues, Wrong, "valid_without_envelope");
    }
  }

  lemma HexHasNoPrefix(hex: string)
    requires IsHex(hex)
    ensures Clean(hex) == hex
  {
    if |hex| >= 2 {
      assert IsHexChar(hex[1]);
    }
  }

  lemma SubmissionsStep(k: Crypto, r: Receipt, n: nat)
    requires n < |r.bidders|
    ensures SubmissionsOk(k, r, n + 1) <==>
            (SubmissionsOk(k, r, n) && (r.bidders[n] in r.submissions ==> SubmissionOk(k, r, r.submissions[r.bidders[n]])))
  {
    hide SubmissionOk;
  }

  lemma NobodyLeadsYet(k: Crypto, r: Receipt)
    ensures SubmissionsOk(k, r, 0) && LeadingBidder(r, 0) == None && LeadingAmount(r, 0) == None
  {
  }

  /** How the running winner changes with one more bidder. */
  lemma LeadingStep(r: Receipt, n: nat)
    requires n < |r.bidders|
    ensures var offer, amount := ReceiptOffer(r, r.bidders[n]), LeadingAmount(r, n);
            if offer.Some? && (amount.None? || Better(r.rule, offer.value, amount.value))
            then LeadingBidder(r, n + 1) == Some(r.bidders[n]) && LeadingAmount(r, n + 1) == offer
            else LeadingBidder(r, n + 1) == LeadingBidder(r, n) && LeadingAmount(r, n + 1) == amount
    ensures r.bidders[n] !in r.submissions ==> ReceiptOffer(r, r.bidders[n]) == None
  {
    assert ReceiptOffers(r)[n] == ReceiptOffer(r, r.bidders[n]);
    hide ReceiptOffers, ReceiptOffer;
  }

  /** The second loop over the bidders: every submission's checks, and the running winner. */
  method CheckSubmissions(k: Crypto, r: Receipt)
    returns (issues: seq<Issue>, computedWinner: Option<string>, computedAmount: Option<int>)
    ensures NoErrors(issues) <==> SubmissionsOk(k, r, |r.bidders|)
    ensures computedWinner == LeadingBidder(r, |r.bidders|)
    ensures computedAmount == LeadingAmount(r, |r.bidders|)
  {
    hide SubmissionOk, SubmissionsOk, NoErrors, Join, LeadingBidder, LeadingAmount, ReceiptOffer, ReceiptOffers;
    NoErrorsYet();
    NobodyLeadsYet(k, r);
    issues, computedWinner, computedAmount := [], None, None;
    for i := 0 to |r.bidders|
      invariant NoErrors(issues) <==> SubmissionsOk(k, r, i)
      invariant computedWinner == LeadingBidder(r, i) && computedAmount == LeadingAmount(r, i)
    {
      var bidder := r.bidders[i];
      SubmissionsStep(k, r, i);
      LeadingStep(r, i);
      if bidder in r.submissions {
        var more, offer := CheckSubmission(k, r, bidder);
        issues := Join(issues, more);
        if offer.Some? {
          var better := computedAmount.None? ||
            (if r.rule == HighestBid then offer.value > computedAmount.value else offer.value < computedAmount.value);
          if better {
            computedWinner := Some(bidder);
            computedAmount := offer;
          }
        }
      }
    }
  }

  /** `verifyReceiptV2`: it says valid exactly for the acceptable receipts, and reports the
      first best bidder it computed. */
  method VerifyReceipt(k: Crypto, r: Receipt)
    returns (valid: bool, issues: seq<Issue>, computedWinner: Option<string>, computedAmount: Option<int>)
    ensures valid <==> Acceptable(k, r)
    ensures valid <==> NoErrors(issues)
    ensures VersionOk(r) ==> computedWinner == LeadingBidder(r, |r.bidders|) && computedAmount == LeadingAmount(r, |r.bidders|)
  {
    hide HeaderOk, RevealOk, PolicyOk, AmountsOk, IndexOk, SubmissionsOk, LeadingBidder, LeadingAmount, Decimal, NoErrors, Add, Join;
    NoErrorsYet();
    if (r.version != 2 && r.version != 3) || r.protocolVersion != r.version {
      issues := Add([], Wrong, "unsupported_version");
      return false, issues, None, None;
    }
    var header := CheckHeader(k, r);
    var opening := CheckReveal(r);
    var policy := CheckPolicy(r);
    var amounts := CheckAmounts(r);
    var index := CheckIndex(r);
    var submissions;
    submissions, computedWinner, computedAmount := CheckSubmissions(k, r);
    var verdict: seq<Issue> := [];
    if r.mode == Auction && (r.status == Cleared || r.status == Settled) {
      if computedWinner != r.winner || computedAmount != Decimal(r.winningAmount) {
        verdict := Add([], Wrong, "winner_mismatch");
      }
    }
    issues := Join(Join(Join(header, opening), Join(policy, amounts)), Join(Join(index, submissions), verdict));
    valid := HasNoErrors(issues);
  }

  /** `!issues.some((issue) => issue.severity === "error")`. */
  method HasNoErrors(issues: seq<Issue>) returns (valid: bool)
    ensures valid <==> NoErrors(issues)
  {
    for i := 0 to |issues|
      invariant forall k :: 0 <= k < i ==> issues[k].severity != Wrong
    {
      if issues[i].severity == Wrong {
        return false;
      }
    }
    return true;
  }

  // ---- What acceptance means ----

  /** In an acceptable receipt the bidders are exactly the submissions, once each, and every
      revealed envelope hashes to its commitment and decodes to the stated amount. */
  lemma AcceptedReveals(k: Crypto, r: Receipt, b: string)
    requires Acceptable(k, r) && b in r.submissions && r.submissions[b].revealedEnvelope.Some?
    ensures NoRepeats(r.bidders) && b in r.bidders
    ensures var s := r.submissions[b];
            && IsHex(s.commitment) && IsHex(s.revealedEnvelope.value)
            && var bytes := HexBytes(s.revealedEnvelope.value);
               && k.sha(bytes) == HexBytes(s.commitment)
               && Decode(bytes).Ok? && Decode(bytes).value.amount == StateAmount(s)
  {
    var i :| 0 <= i < |r.bidders| && r.bidders[i] == b;
    var s := r.submissions[b];
    assert SubmissionOk(k, r, r.submissions[r.bidders[i]]);
    hide Decode, Decimal, Lower, ToHex, HexBytes, IsHex;
    HexOfBytes(s.commitment);
    HexIsInjective(k.sha(HexBytes(s.revealedEnvelope.value)), HexBytes(s.commitment));
  }

  lemma HexIsInjective(a: Bytes, b: Bytes)
    requires ToHex(a) == ToHex(b)
    ensures a == b
  {
    HexRoundTrip(a);
    HexRoundTrip(b);
  }

  /** Receipt soundness: in an acceptable receipt of a cleared or settled auction the declared
      winner is the first best among the bidders with a valid revealed amount, the winning
      amount is that bidder's, positive and within its escrow. */
  lemma AcceptedWinner(k: Crypto, r: Receipt)
    requires Acceptable(k, r) && r.mode == Auction && (r.status == Cleared || r.status == Settled)
    ensures exists w: nat ::
              && FirstBest(ReceiptOffers(r), r.rule, |r.bidders|, w)
              && r.winner == Some(r.bidders[w]) && r.winner.value in r.submissions
              && var s := r.submissions[r.winner.value];
                 && s.valid && Decimal(r.winningAmount) == StateAmount(s) == EnvelopeAmount(s)
                 && StateAmount(s).Some? && Decimal(s.escrow).Some?
                 && 0 < StateAmount(s).value <= Decimal(s.escrow).value
    ensures forall i :: 0 <= i < |r.bidders| ==>
              r.bidders[i] in r.submissions
              && var s := r.submissions[r.bidders[i]];
                 ReceiptOffers(r)[i] == if s.valid then StateAmount(s) else None
  {
    hide Decode, Decimal, Lower, HexBytes, IsHex, HeaderOk, RevealOk, PolicyOk;
    LeaderIsFirstBest(ReceiptOffers(r), r.rule, |r.bidders|);
    forall i | 0 <= i < |r.bidders|
      ensures r.bidders[i] in r.submissions
      ensures var s := r.submissions[r.bidders[i]];
              ReceiptOffers(r)[i] == if s.valid then StateAmount(s) else None
    {
      assert SubmissionOk(k, r, r.submissions[r.bidders[i]]);
      assert ReceiptOffers(r)[i] == ReceiptOffer(r, r.bidders[i]);
    }
    var w := Leader(ReceiptOffers(r), r.rule, |r.bidders|);
    assert Decimal(r.winningAmount).Some?;
    assert w.Some?;
    assert SubmissionOk(k, r, r.submissions[r.bidders[w.value]]);
    assert ReceiptOffers(r)[w.value] == ReceiptOffer(r, r.bidders[w.value]);
    assert FirstBest(ReceiptOffers(r), r.rule, |r.bidders|, w.value);
  }
}
