/** The records of the Round contract (contracts/round/src/types.rs) and its schedule
    arithmetic (contracts/round/src/drand.rs). The v1 and v2/v3 records are one datatype:
    a v1 round is an Auction paid in the global token without a lot. */
module Rounds {
  import opened Base
  import opened Optimum
  import opened Tokens

  datatype Error =
    | NotInitialized | RoundNotFound | BidNotFound
    | CommitClosed | CommitNotClosed | CommitDeadlineAfterReveal | RevealNotOpen | RevealAlreadyOpen
    | RevealWindowClosed | RevealStillOpen | NotCleared | AlreadyCleared | AlreadySettled | RoundVoided
    | NotVoidable | WrongStatus
    | InvalidDrandSignature | HashMismatch | AlreadyRevealed | PayloadTooLarge | InvalidAmount
    | BidExceedsEscrow | DeadlineInPast | NoValidBids | RoundFull | InvalidLimit | UnsupportedVersion
    | MalformedPayload | EscrowNotAllowed | RoundDurationTooLong | ParticipantNotEligible
    | EscrowPolicyMismatch | InvalidRevealPolicy | RevealPolicyMissing

  const MAX_CIPHERTEXT := 4096
  const MAX_AUDITOR_BLOB := 2048
  const MAX_AUDITOR_PUBKEY := 1024
  const MAX_BIDDERS := 500
  const VOID_GRACE: U64 := 3600
  const MAX_V2_PARTICIPANTS := 25
  const MAX_ROUND_DURATION_SECS := 30 * 24 * 60 * 60
  const MIN_REVEAL_WINDOW := 300

  datatype Status = Open | Revealing | Cleared | Settled | Voided
  datatype RoundMode = Auction | ReceiptOnly

  /** The two families of storage keys and entry points: v1, and Core v2 with its v3
      reveal policies. */
  datatype Family = V1 | V2

  /** A v1 `BidState` or a v2 `SubmissionStateV2`. `opening` is the byte string whose hash
      was checked at reveal: be16(value) || nonce in v1, the whole envelope in v2. */
  datatype Submission = Submission(
    commitment: Digest,
    escrow: int,
    opening: Option<Bytes>,
    amount: Option<int>,
    valid: bool,
    settled: bool)

  datatype Round = Round(
    version: nat,
    mode: RoundMode,
    operator: Address,
    itemRef: Digest,
    schemaRef: Digest,
    paymentAsset: Option<Asset>,
    lotAsset: Option<Asset>,
    lotAmount: int,
    revealRound: U64,
    rule: ClearingRule,
    commitDeadline: U64,
    revealDeadline: U64,
    auditorPubkey: Bytes,
    maxParticipants: nat,
    status: Status,
    bidders: seq<Address>,
    winner: Option<Address>,
    winningBid: int)

  datatype Policy = Policy(fixedEscrow: int, eligible: seq<Address>)

  datatype RevealPolicy = Timed | OwnerTriggered(fallbackAt: U64)
  datatype RevealState = RevealState(policy: RevealPolicy, openedAt: Option<U64>)

  /** Everything the contract stores under one round id. */
  datatype Cell = Cell(
    round: Round,
    subs: map<Address, Submission>,
    policy: Option<Policy>,
    window: Option<RevealState>)

  /** The deployment: the contract's own address, the Drand schedule, the v1 payment token,
      and the two host primitives, SHA-256 and the check of a Drand signature. */
  datatype Host = Host(
    self: Address,
    genesis: U64,
    period: U64,
    usdc: Asset,
    sha: Bytes -> Digest,
    drand: (U64, Bytes) -> bool)

  /** Scheduled time of a Drand round, in saturating u64 arithmetic. */
  function TimeOfRound(h: Host, round: U64): U64 {
    SatAdd(h.genesis, SatMul(h.period, SatSub(round, 1)))
  }

  predicate Live(r: Round) {
    r.status == Open || r.status == Revealing || r.status == Cleared
  }

  predicate Terminal(r: Round) {
    r.status == Settled || r.status == Voided
  }
}
