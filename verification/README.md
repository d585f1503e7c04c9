# Sub Rosa: a verified model

Sub Rosa runs sealed rounds on Soroban. A bidder commits the hash of a payload together with an
escrow; after the commit deadline a Drand signature opens the round, envelopes are revealed, the
best valid bid wins, and the contract pays everybody out. This project models the Round contract
and the four programs that must agree with it, and proves what they are for:

- **The Round contract** (`contracts/round/src/lib.rs`), v1 and Core v2 with the v3 reveal
  policies. `Rules.dfy` says what each entry point does as a function of the round's record, the
  clock and the authorisations: the error, a host trap, or the new record with its token moves in
  order. `Contract.dfy` carries the same entry points out as an object over its storage, statement
  by statement, with the settle, refund and clear loops, and each method is proved to do what
  `Rules.dfy` says from every state. `Machine.dfy` lets the calls interleave over many rounds and
  one ledger. The theorems are about whole runs of that machine: conservation and solvency
  (`Payouts.dfy`, `Machine.dfy`), settlement that cannot fail and a guaranteed exit (`Exits.dfy`),
  the frozen bid set and the authorised opening (`Histories.dfy`), the irrelevance of reveal order
  (`RevealOrder.dfy`), the first optimum (`Optimum.dfy`, `Clearing.dfy`). `Creation.dfy` and
  `Answers.dfy` pin every entry point down independently of the rules: exactly when a call is
  accepted, exactly what it then leaves in the record, and which refusal any other input gets.
- **The payload envelope** (`packages/tlock`, `contracts/round/src/payload.rs`): the 128-bit byte
  loops, the canonical codec and the two parsers (`TwosComplement.dfy`, `Envelope.dfy`).
- **The receipt** (`packages/sdk`): exporter and offline verifier with their decimal and hex text
  (`Text.dfy`, `Receipts.dfy`, `Export.dfy`). `Soundness.dfy` says what the verifier's verdict
  means, fact by fact and in both directions; `ReadBack.dfy` shows that an export loses nothing.
- **The keeper** (`services/keeper`): the settlement guard shared by concurrent passes
  (`Guard.dfy`), the closing passes against a contract that others are driving too
  (`Keeper.dfy`, `Overtaking.dfy`), and the dry-run planner (`Planner.dfy`).
- **Paging** through a bidder index that grows while it is read (`Paging.dfy`).

`dafny verify dfyconfig.toml` checks everything.

## Assumptions

- Tokens are honest and not re-entrant: a transfer of a non-negative amount succeeds exactly when
  the sender holds it. Balances are unbounded, so overflow of i128 balances, frozen accounts and
  missing trustlines of a token are not part of the model. Payment and lot asset may be the same
  token, rounds share tokens, and operator and bidder may be the same address.
- The contract's own address never signs a call and nobody else spends its tokens. Gifts to the
  contract are allowed and show up in `Machine.Solvency` as a separate term.
- SHA-256 and the check of a Drand signature are parameters of a deployment (`Host`). No
  collision-freedom is assumed except in `RevealOrder`, and there only on the byte strings that the
  calls at hand present. The ledger clock never goes backwards.
- The configuration is set once, at deployment; `Config` errors cannot occur afterwards.
- Addresses are identified with their text form.

## Where the code and its descriptions differ

The model follows the code.

- A v3 round that `clear_v2` voids after it was opened keeps its opening time, while the offline
  verifier demands none of a voided round. `Export.ExportVerdict` shows that this, a Drand round
  number beyond the safe integers of JavaScript, and a v3 round under a zero Drand period are the
  only exports that fail, and `Export.OpenedThenVoidedIsReachable` gives a run that reaches one.
- The header of the settlement guard lists no way out of the terminal state. There is one: a
  settlement that was in flight when somebody else recorded the end, and then fails
  (`Guard.TerminalReopensExactlyWhen`, `Guard.TerminalReopens`).
- `closeRound` is described as skipping rather than erroring on a settled round. Its list of
  tolerated clear errors lacks `AlreadySettled`, so it rethrows when another caller clears and
  settles between its read and its clear (`Keeper.CloseRound` says exactly when,
  `Overtaking.OvertakenIsReachable` gives a run); `closeRoundV2` tolerates that answer.
- v1 puts no bound on the reveal deadline, so a v1 round can be created that can never be voided
  (`Exits.VoidableAtAll`, `Exits.V1AcceptsUnvoidable`).

## Model

| member | source | states |
|---|---|---|
| Machine.Solvency | contracts/round/src/lib.rs:48-1221 | over every run, in every token, the contract's balance is exactly what its live rounds have at stake, plus what it held at deployment, plus gifts |
| Machine.StepKeepsSurplus | contracts/round/src/lib.rs:48-1221 | no entry point changes the contract's surplus over its liabilities in any token; only an outside transfer does |
| Machine.RunStaysSolvent | contracts/round/src/lib.rs:48-1221 | a solvent deployment stays solvent in every token over every run |
| Machine.StepAccounts | contracts/round/src/lib.rs:48-1221 | in one step everybody's position in every round changes by exactly the net of the moves made for that round, and no other round's position changes |
| Machine.ExactPositions | contracts/round/src/lib.rs:48-1221 | over every run the net of all moves ever made for a round is, for every address and token, the position its record shows, overwritten bids included |
| Machine.FinalPayouts | contracts/round/src/lib.rs:521-1072 | of a finished round: losers are even, the winner is down the winning bid and up the lot, the operator the reverse, everybody is even if it was voided, and the contract keeps nothing |
| Machine.RunKeepsState | contracts/round/src/storage.rs:56-65 | every reachable state satisfies the record invariant for every round, ids are fresh, and no id belongs to both families |
| Payouts.OpAccounts | contracts/round/src/lib.rs:267-1221 | every accepted call on a round moves, for every address and token, exactly the difference of its positions before and after, and pays only on the round's behalf |
| Payouts.CreateAccounts | contracts/round/src/lib.rs:131-137 | creating a round takes exactly the lot from the operator into custody |
| Payouts.SettleMovesNet | contracts/round/src/lib.rs:1037-1066 | the settle loop nets: winning bid to the operator, surplus back to the winner, every loser's escrow back, whatever the addresses have in common |
| Payouts.RefundMovesNet | contracts/round/src/lib.rs:1200-1221 | the refund loop gives every unsettled escrow back to its bidder, each once |
| Payouts.SettleAccounts | contracts/round/src/lib.rs:1020-1072 | settling a cleared round discharges its whole liability in every token, lot included |
| Payouts.VoidingAccounts | contracts/round/src/lib.rs:572-593 | voiding discharges the whole liability of a round: escrows to the bidders, lot to the operator |
| Payouts.CommitAccounts | contracts/round/src/lib.rs:763-788 | a commit or overwrite changes the liability by the new escrow minus the old one, all of it to or from the bidder |
| Tokens.TransferAllMovesNet | contracts/round/src/lib.rs:1054-1066 | a sequence of transfers that succeeds changes every balance by exactly its net |
| Tokens.CoveredPayoutsSucceed | contracts/round/src/lib.rs:1037-1066 | payouts of one payer succeed one after the other when the total in each token is covered |
| Exits.SettlementCannotFail | contracts/round/src/lib.rs:1020-1072 | settling any cleared round of a solvent state succeeds without authorisation: each transfer finds its funds in turn, afterwards the liability is zero and no other round changed |
| Exits.RefundsCannotFail | contracts/round/src/lib.rs:1182-1221 | the refund loops of void and clear never lack funds |
| Exits.CommitFailsOnlyForTheBidder | contracts/round/src/lib.rs:763-788 | an admitted commit succeeds exactly when the bidder's balance plus the returned escrow covers the new one |
| Exits.NoStuckRound | contracts/round/src/lib.rs:1074-1093 | every overdue live round of a reachable state is ended by one or two calls that need no authorisation; each succeeds and the liability ends at zero |
| Exits.VoidableAtAll | contracts/round/src/lib.rs:572-593 | an open round can ever be voided exactly when its reveal deadline plus the grace period stays below the largest u64 |
| Exits.V1AcceptsUnvoidable | contracts/round/src/lib.rs:201-258 | v1 accepts terms under which the round can never be voided |
| Exits.V2IsVoidable | contracts/round/src/lib.rs:89-91 | the duration cap makes every v2 round voidable for any realistic clock |
| Histories.RunEvolves | contracts/round/src/lib.rs:267-1093 | over every run terms never change, the index only grows and only while open, the status only moves forward, a verdict and an opening time stay, a finished round is final |
| Histories.FrozenBidSet | contracts/round/src/lib.rs:711-1093 | once a round has left Open its bidders, their order, commitments, escrows and recorded reveals never change |
| Histories.CommitsAreEarly | contracts/round/src/lib.rs:732-737 | every accepted commit happens strictly before Drand's scheduled time of the round's key |
| Histories.RecordIsLastCommit | contracts/round/src/lib.rs:711-817 | over every run a submission exists exactly when a commit of that bidder was accepted, and carries the last one's commitment and escrow |
| Histories.RevealsMatchLastCommit | contracts/round/src/lib.rs:898-927 | every recorded reveal hashes to the bidder's last accepted commitment |
| Histories.OpeningEnabled | contracts/round/src/lib.rs:819-873 | exactly when a v3 round can be opened |
| Histories.FallbackIsPermissionless | contracts/round/src/lib.rs:667-699 | from the fallback to the deadline anybody with the signature can open, and at the fallback at least 300 seconds are left |
| Histories.OpeningsWereAuthorised | contracts/round/src/lib.rs:838-866 | a recorded opening time was written by an earlier opening at that time with a valid signature, before the fallback with the operator's authorisation |
| Histories.ReceiptOnlyNeverPays | contracts/round/src/lib.rs:954-968 | a receipt-only round never moves any token over any run |
| RevealOrder.RevealOrderIsIrrelevant | contracts/round/src/lib.rs:877-933 | two collections of the same reveal calls, in any order and with any repeats and junk, leave the same record |
| RevealOrder.RevealAllOutcome | contracts/round/src/lib.rs:389-446 | what a collection of reveal calls leaves of each submission: a good call of the collection if there is one, otherwise nothing new |
| RevealOrder.NobodyCanBeLockedOut | contracts/round/src/lib.rs:898-927 | whatever else is revealed before, a reveal that hashes to the bidder's commitment with an amount the mode allows, the whole escrow included, leaves the bidder revealed |
| Answers.CommitAccepted | contracts/round/src/lib.rs:267-817 | in every reachable state a commit, first or overwriting, is accepted exactly when the bidder signed, the round is open and in time, escrow, allowlist, fixed escrow and payload sizes fit, the bidder has a bid or there is a free place, and balance plus returned escrow covers the new one |
| Answers.CommitStores | contracts/round/src/lib.rs:304-330 | an accepted commit leaves exactly the new unrevealed submission, a first-time bidder last in the index, and nothing else |
| Answers.CommitRefusals | contracts/round/src/lib.rs:711-817 | which refusal every other commit gets, in order |
| Answers.OpenAccepted | contracts/round/src/lib.rs:350-384 | exactly when a v1, version 2 or v3 round can be opened, however late, and the record it leaves |
| Answers.OpenRefusals | contracts/round/src/lib.rs:819-873 | which refusal every other opening gets |
| Answers.RevealBidAccepted | contracts/round/src/lib.rs:389-446 | a v1 reveal is recorded exactly inside the window, once, with a matching hash and a value within the escrow; a positive value is valid |
| Answers.RevealEnvelopeAccepted | contracts/round/src/lib.rs:877-933 | a v2 reveal is recorded exactly inside the window, once, with a matching hash, a decodable envelope, and 0 < amount <= escrow in an auction or no escrow in a receipt-only round |
| Answers.RevealRefusals | contracts/round/src/lib.rs:877-904 | the refusals of status, time, bidder, repetition and hash |
| Answers.MatchingRevealRefusals | contracts/round/src/lib.rs:905-921 | the refusals of a reveal that matches its commitment |
| Answers.ClearAccepted | contracts/round/src/lib.rs:936-1018 | a clear succeeds exactly after the deadline of a revealing round; it leaves a receipt-only round Settled, an auction Cleared with the first unbeaten valid bidder and its amount if somebody competes, and Voided if nobody does |
| Answers.VerdictIsFirstUnbeaten | contracts/round/src/lib.rs:970-998 | the scan's winner is the first bidder whose valid amount no valid amount beats, and there is none exactly when nobody competes |
| Answers.ClearRefusals | contracts/round/src/lib.rs:936-952 | the answer of clear in every other status |
| Answers.SettleAccepted | contracts/round/src/lib.rs:521-1072 | a settlement succeeds exactly on a cleared round and marks everybody; the answer in every other status |
| Answers.VoidAccepted | contracts/round/src/lib.rs:572-1093 | a void succeeds exactly on an open round after the grace period, what it leaves, and the answer otherwise, the v1 overflow trap included |
| Answers.UnknownRound | contracts/round/src/storage.rs:67-107 | calls on an unknown round |
| Creation.V1Creates | contracts/round/src/lib.rs:201-258 | exactly when a v1 round is created, and that the record holds each term as asked |
| Creation.V2Creates | contracts/round/src/lib.rs:48-169 | exactly when a v2 round is created, and that record and partner policy hold each term as asked |
| Creation.V3Creates | contracts/round/src/lib.rs:667-699 | the same for v3 with its reveal policy |
| Creation.V1CreationRefusals | contracts/round/src/lib.rs:211-234 | which refusal unfit v1 terms get, in order |
| Creation.V2CreationRefusals | contracts/round/src/lib.rs:62-129 | which refusal unfit v2 terms get, in order |
| Creation.V3CreationRefusals | contracts/round/src/lib.rs:680-691 | an illegal reveal policy is refused first, everything else as in v2 |
| Creation.ScheduleIsClamped | contracts/round/src/drand.rs:60-64 | the scheduled time is the exact one, clamped to the largest u64 |
| Invariants.OpKeeps | contracts/round/src/lib.rs:267-1093 | every accepted call keeps the record invariant: index, timing, settlement terms, escrows, partner policy, reveals, phase and reveal window |
| Invariants.CreateV1Establishes | contracts/round/src/lib.rs:201-258 | an accepted v1 round satisfies the invariant |
| Invariants.CreateV2Establishes | contracts/round/src/lib.rs:48-169 | an accepted v2 round, with or without partner policy, satisfies the invariant |
| Invariants.CreateV3Establishes | contracts/round/src/lib.rs:667-699 | an accepted v3 round satisfies the invariant, its reveal policy included |
| Invariants.WinnerIsGood | contracts/round/src/lib.rs:970-1012 | the winning amount is positive and at most the winner's escrow |
| Optimum.LeaderIsFirstBest | contracts/round/src/lib.rs:986-998 | the scan keeps the earliest offer that no other offer beats, and none exactly when there is no offer |
| Optimum.FirstBestIsUnique | contracts/round/src/lib.rs:986-998 | there is only one such offer |
| Clearing.ScanBids | contracts/round/src/lib.rs:469-498 | the winner, best and found loop returns the first best valid offer in index order, and finds none exactly when there is none |
| Contract.HasRepeats | contracts/round/src/lib.rs:120-128 | the pairwise loop finds a repetition in the allowlist exactly when there is one |
| Contract.IsListed | contracts/round/src/lib.rs:744-750 | the eligibility loop accepts exactly the listed bidders, or everybody if the list is empty |
| Contract.RoundContract.constructor | contracts/round/src/lib.rs:175-197 | a deployment holds no rounds |
| Contract.RoundContract.CreateRound | contracts/round/src/lib.rs:201-258 | storage and outcome are those of the v1 creation rule, from every state |
| Contract.RoundContract.CheckTerms | contracts/round/src/lib.rs:72-130 | the refusal of v2 terms, in the source's order |
| Contract.RoundContract.CreateRoundV2 | contracts/round/src/lib.rs:48-169 | storage, ledger and outcome are those of the v2 creation rule; a failed lot transfer undoes everything |
| Contract.RoundContract.CreateRoundV3 | contracts/round/src/lib.rs:667-699 | the same for v3: the partner creation first, then version and reveal state |
| Contract.RoundContract.CheckCommit | contracts/round/src/lib.rs:276-302 | the refusal of a v1 commit, in the source's order |
| Contract.RoundContract.CheckCommitV2 | contracts/round/src/lib.rs:722-772 | the refusal of a v2 commit, in the source's order |
| Contract.RoundContract.ExchangeEscrow | contracts/round/src/lib.rs:304-318 | the previous escrow goes back before the new one comes in; it fails exactly when one of the transfers does |
| Contract.RoundContract.Commit | contracts/round/src/lib.rs:267-344 | storage, ledger and outcome of a v1 commit |
| Contract.RoundContract.CommitV2 | contracts/round/src/lib.rs:711-817 | storage, ledger and outcome of a v2 commit |
| Contract.RoundContract.OpenReveal | contracts/round/src/lib.rs:350-384 | storage and outcome of a v1 opening |
| Contract.RoundContract.OpenRevealV2 | contracts/round/src/lib.rs:819-873 | storage and outcome of a v2 or v3 opening, the opening time included |
| Contract.RoundContract.Reveal | contracts/round/src/lib.rs:389-446 | storage and outcome of a v1 reveal |
| Contract.RoundContract.RevealV2 | contracts/round/src/lib.rs:877-933 | storage and outcome of an envelope reveal |
| Contract.RoundContract.SettleBidders | contracts/round/src/lib.rs:1037-1060 | the settle loop makes exactly the specified transfers in order and marks every bidder settled, or fails when one of them fails |
| Contract.RoundContract.RefundBidders | contracts/round/src/lib.rs:1182-1213 | the refund loop, with its different marks in v1 and v2, makes exactly the specified transfers in order |
| Contract.RoundContract.RefundAll | contracts/round/src/lib.rs:1200-1221 | escrows first, then the lot |
| Contract.RoundContract.Clear | contracts/round/src/lib.rs:451-516 | storage, ledger and outcome of a v1 clear |
| Contract.RoundContract.ClearV2 | contracts/round/src/lib.rs:936-1018 | storage, ledger and outcome of a v2 clear in both modes |
| Contract.RoundContract.Settle | contracts/round/src/lib.rs:521-567 | storage, ledger and outcome of a v1 settlement |
| Contract.RoundContract.SettleV2 | contracts/round/src/lib.rs:1020-1072 | storage, ledger and outcome of a v2 settlement, the lot last |
| Contract.RoundContract.Void | contracts/round/src/lib.rs:572-593 | storage, ledger and outcome of a v1 void, the trap on overflow included |
| Contract.RoundContract.VoidV2 | contracts/round/src/lib.rs:1074-1093 | storage, ledger and outcome of a v2 void with its saturating grace |
| Contract.RoundContract.PerformAll | contracts/round/src/lib.rs:201-1093 | any sequence of calls on the object leaves the storage that the run of the transition system leaves |
| TwosComplement.I128ToBeBytes | packages/tlock/src/commitment.ts:19-30 | the shifting encoder writes the two's complement of every i128, and refuses every other integer |
| TwosComplement.BeBytesToI128 | packages/tlock/src/commitment.ts:33-40 | the folding decoder reads every 16-byte string back, and refuses other lengths |
| TwosComplement.DecodeOfEncode | packages/tlock/src/commitment.ts:19-40 | decoding inverts encoding on every i128 |
| TwosComplement.EncodeOfDecode | packages/tlock/src/commitment.ts:19-40 | encoding inverts decoding on every 16-byte string |
| TwosComplement.EncodeBidPreimage | packages/tlock/src/commitment.ts:44-52 | the buffer holds value and nonce, or the input is refused |
| TwosComplement.PreimageRoundTrip | packages/tlock/src/commitment.ts:44-67 | decoding a bid preimage gives the value and nonce back |
| TwosComplement.PreimageIsOnto | packages/tlock/src/commitment.ts:54-67 | every 48-byte string is the preimage of exactly the pair it decodes to |
| Envelope.EncodePayloadEnvelope | packages/tlock/src/payload.ts:62-93 | the in-place encoder writes the canonical bytes of every legal envelope and refuses every other |
| Envelope.DecodeInvertsEncode | packages/tlock/src/payload.ts:75-141 | decoding inverts encoding on every legal envelope |
| Envelope.EncodeInvertsDecode | packages/tlock/src/payload.ts:96-141 | encoding inverts decoding on every accepted byte string |
| Envelope.NoTwoEncodings | packages/tlock/src/payload.ts:96-141 | no two byte strings mean the same envelope |
| Envelope.DecodeEnvelope | contracts/round/src/payload.rs:31-87 | the on-chain parser accepts the byte strings that the off-chain decoder accepts, with the same amount and the stated error otherwise; its lengths stay in u32 |
| Envelope.ForeignVersion | contracts/round/src/payload.rs:31-43 | the parser reports a foreign version exactly for admissible lengths with the right magic bytes |
| Envelope.EncodedIsAcceptedOnChain | contracts/round/src/payload.rs:31-87 | every encoded envelope is accepted on chain with its amount |
| Envelope.AcceptedOnChainIsEncoded | contracts/round/src/payload.rs:31-87 | whatever the contract accepts is the encoding of a legal envelope with that amount |
| Text.DecimalRoundTrip | packages/sdk/src/receipt-v2.ts:81-88 | every integer survives being written as decimal text and read back |
| Text.FromHex | packages/tlock/src/commitment.ts:80-91 | hex text is read to its bytes, and refused exactly when it is not hex |
| Text.HexRoundTrip | packages/tlock/src/commitment.ts:74-91 | every byte string survives its hex text |
| Text.HexOfBytes | packages/tlock/src/commitment.ts:74-91 | hex text written again is its lower-case form |
| Text.DecimalAccepts | packages/sdk/src/receipt-v2.ts:81-88 | exactly an optional minus sign and at least one digit is read |
| Text.LeadingZero | packages/sdk/src/receipt-v2.ts:81-88 | leading zeros do not change the value |
| Receipts.VerifyReceipt | packages/sdk/src/receipt-v2.ts:96-334 | the verifier says valid exactly for acceptable receipts, and reports the first best bidder as computed winner |
| Receipts.CheckHeader | packages/sdk/src/receipt-v2.ts:109-124 | no error exactly when the header is sound |
| Receipts.CheckReveal | packages/sdk/src/receipt-v2.ts:126-156 | no error exactly when timing, reveal policy and opening time fit |
| Receipts.CheckPolicy | packages/sdk/src/receipt-v2.ts:158-202 | no error exactly when the partner policy is consistent |
| Receipts.CheckAmounts | packages/sdk/src/receipt-v2.ts:204-223 | no error exactly when assets and amounts fit the mode |
| Receipts.CheckIndex | packages/sdk/src/receipt-v2.ts:237-245 | no error exactly when bidders are distinct and match the submission keys |
| Receipts.CheckEnvelope | packages/sdk/src/receipt-v2.ts:275-296 | no error exactly when the envelope hashes to the commitment and decodes to the stated amount |
| Receipts.CheckSubmission | packages/sdk/src/receipt-v2.ts:249-320 | no error exactly when the submission is sound; the offer is what the bidder competes with |
| Receipts.CheckSubmissions | packages/sdk/src/receipt-v2.ts:247-321 | the loop checks every submission and keeps the first best offer |
| Receipts.AcceptedReveals | packages/sdk/src/receipt-v2.ts:237-321 | in an accepted receipt bidders are distinct and match the submissions, every revealed envelope hashes to its commitment and decodes to its amount |
| Receipts.AcceptedWinner | packages/sdk/src/receipt-v2.ts:298-327 | in an accepted cleared or settled auction the declared winner is the first best valid bidder and 0 < winning amount <= its escrow |
| Soundness.AcceptableMeans | packages/sdk/src/receipt-v2.ts:96-334 | the verdict is valid exactly when header, reveal policy and timing, partner policy, assets, bidders, submissions and winner satisfy the facts, stated per bidder and in integers |
| Soundness.AcceptedPolicy | packages/sdk/src/receipt-v2.ts:158-202 | under an enforced policy every bidder of an accepted receipt is on the allowlist and every auction escrow is the positive fixed escrow |
| Soundness.AcceptedTiming | packages/sdk/src/receipt-v2.ts:126-153 | an accepted v3 receipt has commit < Drand < reveal deadline, the operator as controller, a fallback that leaves 300 seconds, and an opening inside the window |
| Export.ExportReceipt | packages/sdk/src/client.ts:1209-1296 | the exporter succeeds exactly on complete records and then writes the receipt of the record |
| Export.ExportVerdict | packages/sdk/src/receipt-v2.ts:149-153 | the export of a good record verifies exactly when it is not a v3 round voided after opening and its Drand round is a safe integer |
| Export.ReachableExportsVerify | packages/sdk/src/client.ts:1209-1296 | the same for every v2 and v3 round of every reachable state |
| Export.OffersAgree | packages/sdk/src/receipt-v2.ts:298-314 | the verifier compares exactly the offers that the contract compared |
| Export.OpenedThenVoidedIsReachable | contracts/round/src/lib.rs:1000-1007 | a concrete run reaches a round whose export the verifier rejects |
| ReadBack.ExportReadsBack | packages/sdk/src/client.ts:1224-1295 | every field of an exported receipt reads back as the stored one, references, assets, policy, opening time, submissions and evidence included |
| ReadBack.ExportIsInjective | packages/sdk/src/client.ts:1209-1296 | two good records that export the same receipt are the same record |
| Guard.SettlementGuard.constructor | services/keeper/src/settlement-guard.ts:84-85 | a fresh guard tracks nothing |
| Guard.SettlementGuard.GetOrCreate | services/keeper/src/settlement-guard.ts:87-97 | a round seen for the first time becomes pending, at the end of the insertion order |
| Guard.SettlementGuard.CanSettle | services/keeper/src/settlement-guard.ts:100-114 | allowed exactly when the round is pending or new; otherwise the event names status and reason |
| Guard.SettlementGuard.MarkSubmitted | services/keeper/src/settlement-guard.ts:116-121 | the whole new book: one entry overwritten, the order kept |
| Guard.SettlementGuard.MarkTerminal | services/keeper/src/settlement-guard.ts:123-128 | likewise |
| Guard.SettlementGuard.MarkRetryable | services/keeper/src/settlement-guard.ts:130-137 | likewise, back to pending |
| Guard.SettlementGuard.GetEntry | services/keeper/src/settlement-guard.ts:139-141 | the entry of a tracked round, none otherwise |
| Guard.SettlementGuard.Entries | services/keeper/src/settlement-guard.ts:143-145 | every entry once, in insertion order |
| Guard.OneFlightPerRound | services/keeper/src/keeper.ts:111-131 | under every interleaving of passes, failures, retries and outside marks at most one settlement of a round is in flight, and no dispatch gets past the guard meanwhile |
| Guard.SuppressedExactlyWhen | services/keeper/src/settlement-guard.ts:99-137 | a dispatch is turned away exactly while one is in flight or after the end was recorded |
| Guard.SentOncePerFailure | services/keeper/src/keeper.ts:111-131 | over every interleaving at most one more settlement was sent than failed |
| Guard.TerminalReopensExactlyWhen | services/keeper/src/settlement-guard.ts:123-137 | a terminal entry opens again exactly when a settlement still in flight fails |
| Guard.TerminalIsFinal | services/keeper/src/settlement-guard.ts:123-128 | without one in flight it stays terminal whatever follows |
| Guard.TerminalReopens | services/keeper/src/keeper.ts:703-706 | a concrete interleaving that reopens a terminal entry |
| Keeper.CloseRoundV2 | services/keeper/src/keeper.ts:499-574 | with arbitrary other callers and passes during every await it never rethrows a contract error, its report is true at the last read, each flag is set exactly when this pass's own call went through, and a due round that the guard does not hold back ends Settled or Voided |
| Keeper.CloseRound | services/keeper/src/keeper.ts:423-495 | the same for v1, except that it rethrows AlreadySettled exactly when others settled the round before its clear |
| Keeper.AnotherKeeperCloses | services/keeper/src/keeper.ts:446-466 | in every good state with a due round that has a valid bid, a clear and a settle by another keeper bring the exception about |
| Overtaking.OvertakenIsReachable | services/keeper/src/keeper.ts:461-466 | a concrete run with one revealed bid reaches a state in which the v1 pass rethrows |
| Keeper.SubmitSettlement | services/keeper/src/keeper.ts:111-131 | sends exactly when the guard says pending; the settlement then succeeds or finds the round settled, and the guard records which |
| Keeper.ClearMeets | contracts/round/src/lib.rs:936-1018 | what a clear answers in each status of a good state that has left Open; it never traps |
| Keeper.SettleMeets | contracts/round/src/lib.rs:1020-1072 | a settlement of a round once seen Cleared settles it or answers AlreadySettled |
| Keeper.RunMovesOn | contracts/round/src/lib.rs:936-1072 | over every run a round moves only forward; a cleared round can only become settled |
| Planner.AnnouncedActionsAreEnabled | services/keeper/src/dry-run.ts:109-164 | void, clear and settle are announced exactly when the contract's guards let anybody make that call |
| Planner.AnnouncedActionsSucceed | services/keeper/src/dry-run.ts:109-164 | in every reachable state an announced action succeeds, and after the grace period one is announced for every unfinished round |
| Planner.IdlePhasesAreIdle | services/keeper/src/dry-run.ts:109-164 | in the phases complete, awaiting-void and awaiting-clear no call by anybody changes the round |
| Planner.AwaitingOwnerMeansGated | services/keeper/src/dry-run.ts:123-125 | awaiting-owner: an opening succeeds exactly with the operator's authorisation, after Drand time, with the signature |
| Planner.AwaitingDrandMeansOpenable | services/keeper/src/dry-run.ts:127-132 | awaiting-drand: an opening succeeds exactly with the signature, once the version's waiting time is over |
| Planner.RevealingMeansPending | services/keeper/src/dry-run.ts:134-153 | revealing: exactly while the window is open and some bidder is unrevealed |
| Planner.WaitingPhases | services/keeper/src/dry-run.ts:109-164 | exactly when complete, awaiting-clear, awaiting-void, awaiting-owner and awaiting-drand are announced |
| Planner.UnreadableCountsAsPending | services/keeper/src/dry-run.ts:138-147 | without a count the round counts as still revealing |
| Planner.CountRevealed | services/keeper/src/protocol.ts:29-47 | the number of revealed bidders, or null exactly when a submission cannot be read |
| Paging.BiddersPage | contracts/round/src/lib.rs:1143-1166 | the page at a cursor, its continuation and the error cases |
| Paging.Bidders | packages/sdk/src/client.ts:1103-1111 | the generator ends and yields exactly the index as of the last page, in order and without repeats, whatever happens between the pages |

## Left out

- Foreign cryptography: BLS12-381, hash-to-curve, SHA-256, tlock encryption and the auditor blob; hashing and signature checks are parameters.
- Events, instance TTL bumps, seal storage with its TTL, and archival: persistent storage is permanent, and the seals of an export are an arbitrary map.
- Storage keys: the records under one round id are one value; the per-family key spaces are two maps with a shared counter.
- `RoundPolicyV2.settlement`: the stored copy of the settlement terms is never read and is not modelled.
- Balances in i128: see the assumptions about tokens.
- The v1 and v2 loops that differ only in the record type share one method; where they behave differently (refund marks, void overflow, version checks, policy) the method says so.
- Text of error messages: `errorMatches` searches messages for names; tolerated errors are modelled as the set of names, so a message that happens to contain another name is not part of this model.
- JavaScript numbers: clock, deadlines and cursors of the keeper and the client are exact integers; only the safe-integer test of the verifier is modelled.
- Receipts.VerifyReceipt: its contract fixes the verdict and the computed winner, not which issue code reports which fault.
- Malformed receipts: `parseReceiptV2` is typed, so missing fields and fields of another type cannot occur; issue paths, messages and `exportedAt` are omitted.
- The exporter reads one snapshot; reads that straddle a change of the round are not modelled.
- Keeper passes that open and reveal, `voidIfStale`, `watchRound`, the RPC, submission and configuration: a reveal that races a clear is rethrown there by design, the rest is plumbing.
- RPC faults in closing passes: every read and call is answered.
- v1 receipts, redaction, the web UI, x402, agents, scripts and generated bindings.
