/** What each entry point of the Round contract does (contracts/round/src/lib.rs), as a
    function of the round's record, the clock and the caller's authorisations: the error it
    returns, the host trap, or the new record with the token moves it makes, in order.
    The class in Contract.dfy carries these out step by step. */
module Rules {
  import opened Base
  import opened TwosComplement
  import opened Envelope
  import opened Optimum
  import opened Tokens
  import opened Rounds
  import opened Clearing

  /** The calls on an existing round. */
  datatype Op =
    | Commit(bidder: Address, commitment: Digest, ciphertext: Bytes, escrow: I128, auditorBlob: Bytes)
    | OpenReveal(signature: Bytes)
    | RevealBid(revealed: Address, value: I128, nonce: Bytes)
    | RevealEnvelope(revealed: Address, envelope: Bytes)
    | Clear
    | Settle
    | Void

  /** The parameters of a new round. */
  datatype Terms = Terms(
    operator: Address,
    itemRef: Digest,
    schemaRef: Digest,
    mode: RoundMode,
    paymentAsset: Option<Asset>,
    lotAsset: Option<Asset>,
    lotAmount: I128,
    revealRound: U64,
    rule: ClearingRule,
    commitDeadline: U64,
    revealDeadline: U64,
    auditorPubkey: Bytes,
    maxParticipants: U32)

  datatype Value = Unit | Id(id: nat) | Winner(winner: Option<Address>)

  datatype Attempt = Refused(error: Error) | Trapped | Go(cell: Cell, moves: seq<Move>, value: Value)

  // ---- Creation ----

  function CreateV1Attempt(h: Host, now: U64, auth: set<Address>, id: nat, t: Terms): Attempt {
    var tReveal := TimeOfRound(h, t.revealRound);
    if t.operator !in auth then Trapped
    else if t.revealRound == 0 then Refused(InvalidAmount)
    else if |t.auditorPubkey| > MAX_AUDITOR_PUBKEY then Refused(PayloadTooLarge)
    else if t.commitDeadline >= tReveal then Refused(CommitDeadlineAfterReveal)
    else if t.revealDeadline <= tReveal then Refused(CommitDeadlineAfterReveal)
    else if t.commitDeadline <= now then Refused(DeadlineInPast)
    else
      var round := Round(1, Auction, t.operator, t.itemRef, ZeroDigest(), Some(h.usdc), None, 0, t.revealRound, t.rule,
                         t.commitDeadline, t.revealDeadline, t.auditorPubkey, MAX_BIDDERS, Open, [], None, 0);
      Go(Cell(round, map[], None, None), [], Id(id))
  }

  function SettlementRefusal(t: Terms): Option<Error> {
    match t.mode
    case Auction =>
      if t.paymentAsset.None? || t.lotAsset.None? || t.lotAmount <= 0 then Some(InvalidAmount) else None
    case ReceiptOnly =>
      if t.paymentAsset.Some? || t.lotAsset.Some? || t.lotAmount != 0 then Some(EscrowNotAllowed) else None
  }

  function PolicyRefusal(t: Terms, p: Policy): Option<Error> {
    if t.mode == Auction && p.fixedEscrow <= 0 then Some(InvalidAmount)
    else if t.mode == ReceiptOnly && p.fixedEscrow != 0 then Some(EscrowNotAllowed)
    else if |p.eligible| > t.maxParticipants then Some(InvalidLimit)
    else if !NoRepeats(p.eligible) then Some(InvalidLimit)
    else None
  }

  function CreateV2Refusal(h: Host, now: U64, t: Terms, policy: Option<Policy>): Option<Error> {
    var tReveal := TimeOfRound(h, t.revealRound);
    if t.revealRound == 0 then Some(InvalidAmount)
    else if t.maxParticipants == 0 || t.maxParticipants > MAX_V2_PARTICIPANTS then Some(InvalidLimit)
    else if |t.auditorPubkey| > MAX_AUDITOR_PUBKEY then Some(PayloadTooLarge)
    else if t.commitDeadline >= tReveal || t.revealDeadline <= tReveal then Some(CommitDeadlineAfterReveal)
    else if t.commitDeadline <= now then Some(DeadlineInPast)
    else if SatSub(t.revealDeadline, now) > MAX_ROUND_DURATION_SECS then Some(RoundDurationTooLong)
    else if SettlementRefusal(t).Some? then SettlementRefusal(t)
    else if policy.Some? then PolicyRefusal(t, policy.value)
    else None
  }

  function NewRoundV2(t: Terms): Round {
    Round(2, t.mode, t.operator, t.itemRef, t.schemaRef, t.paymentAsset, t.lotAsset, t.lotAmount, t.revealRound,
          t.rule, t.commitDeadline, t.revealDeadline, t.auditorPubkey, t.maxParticipants, Open, [], None, 0)
  }

  /** The lot goes into custody when the round is created. */
  function LotIn(h: Host, id: nat, t: Terms): seq<Move> {
    if t.lotAsset.Some? then [Move(id, t.lotAsset.value, t.operator, h.self, t.lotAmount)] else []
  }

  /** `create_round_v2` (no policy) and `create_partner_round_v2`. */
  function CreateV2Attempt(h: Host, now: U64, auth: set<Address>, id: nat, t: Terms, policy: Option<Policy>): Attempt {
    if t.operator !in auth then Trapped
    else
      match CreateV2Refusal(h, now, t, policy)
      case Some(error) => Refused(error)
      case None => Go(Cell(NewRoundV2(t), map[], policy, None), LotIn(h, id, t), Id(id))
  }

  predicate RevealPolicyOk(h: Host, t: Terms, opening: RevealPolicy) {
    opening.OwnerTriggered? ==>
      && opening.fallbackAt > TimeOfRound(h, t.revealRound)
      && SatSub(t.revealDeadline, opening.fallbackAt) >= MIN_REVEAL_WINDOW
  }

  /** `create_round_v3`: the reveal policy is checked before anything else. */
  function CreateV3Attempt(h: Host, now: U64, auth: set<Address>, id: nat, t: Terms, policy: Policy,
                           opening: RevealPolicy): Attempt {
    if !RevealPolicyOk(h, t, opening) then Refused(InvalidRevealPolicy)
    else
      match CreateV2Attempt(h, now, auth, id, t, Some(policy))
      case Go(cell, moves, value) =>
        Go(cell.(round := cell.round.(version := 3), window := Some(RevealState(opening, None))), moves, value)
      case other => other
  }

  // ---- Commit ----

  predicate Eligible(c: Cell, bidder: Address) {
    c.policy.Some? && c.policy.value.eligible != [] ==> bidder in c.policy.value.eligible
  }

  function CommitRefusal(f: Family, c: Cell, now: U64, op: Op): Option<Error>
    requires op.Commit?
  {
    var r := c.round;
    if f == V2 && r.version != 2 && r.version != 3 then Some(Error.UnsupportedVersion)
    else if r.status == Voided then Some(RoundVoided)
    else if r.status == Settled then Some(AlreadySettled)
    else if r.status != Open then Some(WrongStatus)
    else if now > r.commitDeadline then Some(CommitClosed)
    else if r.mode == Auction && op.escrow <= 0 then Some(InvalidAmount)
    else if r.mode == ReceiptOnly && op.escrow != 0 then Some(EscrowNotAllowed)
    else if f == V2 && !Eligible(c, op.bidder) then Some(ParticipantNotEligible)
    else if f == V2 && c.policy.Some? && r.mode == Auction && op.escrow != c.policy.value.fixedEscrow
      then Some(EscrowPolicyMismatch)
    else if |op.ciphertext| > MAX_CIPHERTEXT || |op.auditorBlob| > MAX_AUDITOR_BLOB then Some(PayloadTooLarge)
    else if op.bidder !in c.subs && |r.bidders| >= r.maxParticipants then Some(RoundFull)
    else if r.paymentAsset.None? && (op.escrow > 0 || (op.bidder in c.subs && c.subs[op.bidder].escrow > 0))
      then Some(InvalidAmount)
    else None
  }

  /** The record after a commit: a fresh, unrevealed submission; a first-time bidder joins
      the end of the index. */
  function Placed(c: Cell, bidder: Address, commitment: Digest, escrow: int): Cell {
    var bidders := if bidder in c.subs then c.round.bidders else c.round.bidders + [bidder];
    c.(round := c.round.(bidders := bidders),
       subs := c.subs[bidder := Submission(commitment, escrow, None, None, false, false)])
  }

  function EscrowBack(h: Host, id: nat, c: Cell, bidder: Address): seq<Move> {
    if c.round.paymentAsset.Some? && bidder in c.subs && c.subs[bidder].escrow > 0
    then [Move(id, c.round.paymentAsset.value, h.self, bidder, c.subs[bidder].escrow)]
    else []
  }

  function EscrowIn(h: Host, id: nat, c: Cell, bidder: Address, escrow: int): seq<Move> {
    if c.round.paymentAsset.Some? && escrow > 0
    then [Move(id, c.round.paymentAsset.value, bidder, h.self, escrow)]
    else []
  }

  function CommitAttempt(h: Host, f: Family, id: nat, c: Cell, now: U64, op: Op): Attempt
    requires op.Commit?
  {
    match CommitRefusal(f, c, now, op)
    case Some(error) => Refused(error)
    case None =>
      Go(Placed(c, op.bidder, op.commitment, op.escrow),
         EscrowBack(h, id, c, op.bidder) + EscrowIn(h, id, c, op.bidder, op.escrow), Unit)
  }

  // ---- Opening and revealing ----

  function StatusRefusalForOpen(r: Round, now: U64): Option<Error> {
    if r.status == Settled then Some(AlreadySettled)
    else if r.status == Voided then Some(RoundVoided)
    else if r.status == Cleared then Some(AlreadyCleared)
    else if r.status != Open then Some(RevealAlreadyOpen)
    else if now <= r.commitDeadline then Some(CommitNotClosed)
    else None
  }

  function OpenAttempt(h: Host, f: Family, c: Cell, now: U64, auth: set<Address>, signature: Bytes): Attempt {
    var r := c.round;
    var refusal := StatusRefusalForOpen(r, now);
    if refusal.Some? then Refused(refusal.value)
    else if f == V2 && r.version == 3 && c.window.None? then Refused(RevealPolicyMissing)
    else if f == V2 && r.version == 3 && now < TimeOfRound(h, r.revealRound) then Refused(CommitNotClosed)
    else if f == V2 && r.version == 3 && now > r.revealDeadline then Refused(RevealWindowClosed)
    else if f == V2 && r.version == 3 && c.window.value.policy.OwnerTriggered?
            && now < c.window.value.policy.fallbackAt && r.operator !in auth then Trapped
    else if !h.drand(r.revealRound, signature) then Refused(InvalidDrandSignature)
    else
      var window := if f == V2 && r.version == 3 then Some(c.window.value.(openedAt := Some(now))) else c.window;
      Go(c.(round := r.(status := Revealing), window := window), [], Unit)
  }

  function RevealRefusal(c: Cell, now: U64, bidder: Address): Option<Error> {
    var r := c.round;
    if r.status == Settled then Some(AlreadySettled)
    else if r.status == Voided then Some(RoundVoided)
    else if r.status != Revealing then Some(RevealNotOpen)
    else if now > r.revealDeadline then Some(RevealWindowClosed)
    else if bidder !in c.subs then Some(BidNotFound)
    else if c.subs[bidder].opening.Some? then Some(AlreadyRevealed)
    else None
  }

  /** The v1 reveal hashes be16(value) || nonce; a value of zero or less is recorded but
      not valid. */
  function RevealBidAttempt(h: Host, c: Cell, now: U64, bidder: Address, value: I128, nonce: Bytes): Attempt {
    var refusal := RevealRefusal(c, now, bidder);
    if refusal.Some? then Refused(refusal.value)
    else
      var state := c.subs[bidder];
      if h.sha(Preimage(value, nonce)) != state.commitment then Refused(HashMismatch)
      else if value > state.escrow then Refused(BidExceedsEscrow)
      else Go(c.(subs := c.subs[bidder := state.(opening := Some(Preimage(value, nonce)), amount := Some(value),
                                                 valid := value > 0)]), [], Unit)
  }

  function EnvelopeError(e: PayloadError): Error {
    match e
    case MalformedPayload => Error.MalformedPayload
    case UnsupportedVersion => Error.UnsupportedVersion
  }

  function AmountRefusal(mode: RoundMode, state: Submission, amount: Option<int>): Option<Error> {
    match mode
    case Auction =>
      if amount.None? then Some(Error.MalformedPayload)
      else if amount.value <= 0 then Some(InvalidAmount)
      else if amount.value > state.escrow then Some(BidExceedsEscrow)
      else None
    case ReceiptOnly => if state.escrow != 0 then Some(EscrowNotAllowed) else None
  }

  function RevealEnvelopeAttempt(h: Host, c: Cell, now: U64, bidder: Address, envelope: Bytes): Attempt {
    var refusal := RevealRefusal(c, now, bidder);
    if refusal.Some? then Refused(refusal.value)
    else
      var state := c.subs[bidder];
      if h.sha(envelope) != state.commitment then Refused(HashMismatch)
      else
        match OnChain(envelope)
        case Err(error) => Refused(EnvelopeError(error))
        case Ok(amount) =>
          var wrong := AmountRefusal(c.round.mode, state, amount);
          if wrong.Some? then Refused(wrong.value)
          else Go(c.(subs := c.subs[bidder := state.(opening := Some(envelope), amount := amount, valid := true)]),
                  [], Unit)
  }

  // ---- Payouts ----

  /** The settle and refund loops pay the bidder at index k unless its record is missing or
      already settled; a repeated index entry finds the record settled. */
  predicate Pays(c: Cell, k: nat)
    requires k < |c.round.bidders|
  {
    var b := c.round.bidders[k];
    b in c.subs && !c.subs[b].settled && b !in c.round.bidders[..k]
  }

  function PayTo(h: Host, id: nat, c: Cell, who: Address, amount: int): seq<Move>
    requires c.round.paymentAsset.Some?
  {
    [Move(id, c.round.paymentAsset.value, h.self, who, amount)]
  }

  function SettleShare(h: Host, id: nat, c: Cell, winner: Address, k: nat): seq<Move>
    requires c.round.paymentAsset.Some? && k < |c.round.bidders|
  {
    if !Pays(c, k) then []
    else
      var b := c.round.bidders[k];
      var escrow := c.subs[b].escrow;
      if b == winner then
        var surplus := escrow - c.round.winningBid;
        PayTo(h, id, c, c.round.operator, c.round.winningBid)
        + (if surplus > 0 then PayTo(h, id, c, b, surplus) else [])
      else if escrow > 0 then PayTo(h, id, c, b, escrow)
      else []
  }

  function SettleMoves(h: Host, id: nat, c: Cell, winner: Address, n: nat): seq<Move>
    requires c.round.paymentAsset.Some? && n <= |c.round.bidders|
  {
    if n == 0 then [] else SettleMoves(h, id, c, winner, n - 1) + SettleShare(h, id, c, winner, n - 1)
  }

  function RefundShare(h: Host, id: nat, c: Cell, k: nat): seq<Move>
    requires c.round.paymentAsset.Some? && k < |c.round.bidders|
  {
    if Pays(c, k) && c.subs[c.round.bidders[k]].escrow > 0
    then PayTo(h, id, c, c.round.bidders[k], c.subs[c.round.bidders[k]].escrow)
    else []
  }

  function RefundMoves(h: Host, id: nat, c: Cell, n: nat): seq<Move>
    requires c.round.paymentAsset.Some? && n <= |c.round.bidders|
  {
    if n == 0 then [] else RefundMoves(h, id, c, n - 1) + RefundShare(h, id, c, n - 1)
  }

  function LotTo(h: Host, id: nat, c: Cell, who: Address): seq<Move> {
    if c.round.lotAsset.Some? then [Move(id, c.round.lotAsset.value, h.self, who, c.round.lotAmount)] else []
  }

  /** The submissions after a loop over `who` marked them settled; the v1 refund marks only
      those with an escrow. */
  function MarkSettled(subs: map<Address, Submission>, who: seq<Address>, onlyEscrowed: bool): map<Address, Submission> {
    map a | a in subs ::
      if a in who && (onlyEscrowed ==> subs[a].escrow > 0) then subs[a].(settled := true) else subs[a]
  }

  /** `refund_all` and `refund_all_v2`: every escrow back to its bidder, then the lot to the
      operator. Without a payment asset the v2 loop does not run at all. */
  function RefundAllMoves(h: Host, id: nat, c: Cell): seq<Move> {
    (if c.round.paymentAsset.Some? then RefundMoves(h, id, c, |c.round.bidders|) else [])
    + LotTo(h, id, c, c.round.operator)
  }

  function VoidedCell(f: Family, c: Cell): Cell {
    c.(round := c.round.(status := Voided),
       subs := if c.round.paymentAsset.Some? then MarkSettled(c.subs, c.round.bidders, f == V1) else c.subs)
  }

  // ---- Clear, settle, void ----

  function ClearRefusal(r: Round, now: U64): Option<Error> {
    if r.status == Cleared then Some(AlreadyCleared)
    else if r.status == Settled then Some(AlreadySettled)
    else if r.status == Voided then Some(RoundVoided)
    else if r.status != Revealing then Some(RevealNotOpen)
    else if now <= r.revealDeadline then Some(RevealStillOpen)
    else None
  }

  function ClearAttempt(h: Host, f: Family, id: nat, c: Cell, now: U64): Attempt {
    var refusal := ClearRefusal(c.round, now);
    if refusal.Some? then Refused(refusal.value)
    else if f == V2 && c.round.mode == ReceiptOnly then
      Go(c.(round := c.round.(status := Settled), subs := MarkSettled(c.subs, c.round.bidders, false)), [], Winner(None))
    else
      match Verdict(c)
      case None => Go(VoidedCell(f, c), RefundAllMoves(h, id, c), Winner(None))
      case Some(k) =>
        var winner := Some(c.round.bidders[k]);
        Go(c.(round := c.round.(status := Cleared, winner := winner, winningBid := WinningAmount(c))), [], Winner(winner))
  }

  function SettleRefusal(f: Family, r: Round): Option<Error> {
    if r.status == Settled then Some(AlreadySettled)
    else if r.status == Voided then Some(RoundVoided)
    else if r.status != Cleared || (f == V2 && r.mode != Auction) then Some(NotCleared)
    else if r.winner.None? then Some(NoValidBids)
    else if r.paymentAsset.None? then Some(InvalidAmount)
    else if f == V2 && r.lotAsset.None? then Some(InvalidAmount)
    else None
  }

  function SettledCell(c: Cell): Cell {
    c.(round := c.round.(status := Settled), subs := MarkSettled(c.subs, c.round.bidders, false))
  }

  function SettleAttempt(h: Host, f: Family, id: nat, c: Cell): Attempt {
    var refusal := SettleRefusal(f, c.round);
    if refusal.Some? then Refused(refusal.value)
    else
      var winner := c.round.winner.value;
      Go(SettledCell(c),
         SettleMoves(h, id, c, winner, |c.round.bidders|) + (if f == V2 then LotTo(h, id, c, winner) else []), Unit)
  }

  /** v1 adds the grace period in checked u64 arithmetic, v2 in saturating arithmetic. */
  function VoidAttempt(h: Host, f: Family, id: nat, c: Cell, now: U64): Attempt {
    var r := c.round;
    if r.status == Voided then Refused(RoundVoided)
    else if r.status == Settled then Refused(AlreadySettled)
    else if r.status != Open then Refused(NotVoidable)
    else if f == V1 && r.revealDeadline + VOID_GRACE > U64_MAX then Trapped
    else if now <= SatAdd(r.revealDeadline, VOID_GRACE) then Refused(NotVoidable)
    else Go(VoidedCell(f, c), RefundAllMoves(h, id, c), Unit)
  }

  /** Every call on an existing round. Each reveal entry point belongs to one family. */
  function OpAttempt(h: Host, f: Family, id: nat, c: Cell, now: U64, auth: set<Address>, op: Op): Attempt {
    match op
    case Commit(_, _, _, _, _) => CommitAttempt(h, f, id, c, now, op)
    case OpenReveal(signature) => OpenAttempt(h, f, c, now, auth, signature)
    case RevealBid(bidder, value, nonce) => if f == V1 then RevealBidAttempt(h, c, now, bidder, value, nonce) else Trapped
    case RevealEnvelope(bidder, envelope) => if f == V2 then RevealEnvelopeAttempt(h, c, now, bidder, envelope) else Trapped
    case Clear => ClearAttempt(h, f, id, c, now)
    case Settle => SettleAttempt(h, f, id, c)
    case Void => VoidAttempt(h, f, id, c, now)
  }
}
