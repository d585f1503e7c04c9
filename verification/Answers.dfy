/** Every answer of every entry point on an existing round, in every reachable state: when
    the call is accepted, what exactly it then leaves in the record, and which refusal any
    other input gets. */
module Answers {
  import opened Base
  import opened TwosComplement
  import opened Envelope
  import opened Optimum
  import opened Tokens
  import opened Rounds
  import opened Clearing
  import opened Rules
  import opened Invariants
  import opened Machine
  import opened Exits
  import opened Histories

  /** The result of one call on a round. */
  function Called(h: Host, s: State, f: Family, id: nat, auth: set<Address>, op: Op): StepResult {
    Step(h, s, Event(auth, OnRound(f, id, op)))
  }

  /** The record of the round is now d; no other record, neither the clock nor the counter
      has changed. */
  predicate Leaves(s: State, t: State, f: Family, id: nat, d: Cell) {
    t == Store(s.(ledger := t.ledger), f, id, d)
  }

  lemma UnknownRound(h: Host, s: State, f: Family, id: nat, auth: set<Address>, op: Op)
    requires id !in Cells(s, f)
    ensures Called(h, s, f, id, auth, op) ==
            StepResult(s, if op.Commit? && op.bidder !in auth then Trap else Fail(RoundNotFound), [])
  {
  }

  /** A refused or trapped call changes nothing at all. */
  lemma RefusalChangesNothing(h: Host, s: State, f: Family, id: nat, auth: set<Address>, op: Op)
    ensures !Called(h, s, f, id, auth, op).outcome.Done? ==> Called(h, s, f, id, auth, op).state == s
  {
    hide OpAttempt, TransferAll;
  }

  // ---- Commit ----

  predicate EscrowFits(c: Cell, escrow: int) {
    if c.round.mode == Auction then escrow > 0 else escrow == 0
  }

  /** An empty or absent allowlist admits everybody. */
  predicate Listed(c: Cell, bidder: Address) {
    c.policy.None? || c.policy.value.eligible == [] || bidder in c.policy.value.eligible
  }

  predicate FixedEscrowMet(c: Cell, escrow: int) {
    c.policy.Some? && c.round.mode == Auction ==> escrow == c.policy.value.fixedEscrow
  }

  /** A bidder who already has a bid may always overwrite it; a new one needs a free place. */
  predicate HasPlace(c: Cell, bidder: Address) {
    bidder in c.subs || |c.round.bidders| < c.round.maxParticipants
  }

  /** What the bidder owns plus the escrow that comes back covers the new escrow. */
  predicate Affordable(l: Ledger, c: Cell, bidder: Address, escrow: int) {
    c.round.mode == Auction ==>
      && c.round.paymentAsset.Some?
      && Balance(l, c.round.paymentAsset.value, bidder) + (if bidder in c.subs then c.subs[bidder].escrow else 0) >= escrow
  }

  lemma CommitAdmitted(h: Host, f: Family, c: Cell, now: U64, op: Op)
    requires CellInv(h, f, c) && op.Commit?
    ensures CommitRefusal(f, c, now, op) == None <==>
            && c.round.status == Open && now <= c.round.commitDeadline
            && EscrowFits(c, op.escrow) && Listed(c, op.bidder) && FixedEscrowMet(c, op.escrow)
            && |op.ciphertext| <= 4096 && |op.auditorBlob| <= 2048
            && HasPlace(c, op.bidder)
  {
    hide NoRepeats, Verdict, OpeningOk, TimeOfRound;
  }

  /** A commit, first or overwriting, is accepted exactly when the bidder signed, the round is
      open and in time, the escrow fits mode and policy, the bidder is listed, the payloads
      are short, there is a place, and the bidder can afford it. */
  lemma CommitAccepted(h: Host, s: State, f: Family, id: nat, auth: set<Address>, op: Op)
    requires Reachable(h, s) && id in Cells(s, f) && op.Commit? && h.self !in auth
    ensures var c := Cells(s, f)[id];
            Called(h, s, f, id, auth, op).outcome.Done? <==>
              && op.bidder in auth
              && c.round.status == Open && s.now <= c.round.commitDeadline
              && EscrowFits(c, op.escrow) && Listed(c, op.bidder) && FixedEscrowMet(c, op.escrow)
              && |op.ciphertext| <= 4096 && |op.auditorBlob| <= 2048
              && HasPlace(c, op.bidder) && Affordable(s.ledger, c, op.bidder, op.escrow)
  {
    hide Reachable, StateInv, Solvent, CellInv, TransferAll, CommitRefusal, Listed, FixedEscrowMet, HasPlace;
    var c := Cells(s, f)[id];
    ReachableIsGood(h, s);
    RecordIsGood(h, s, f, id);
    CommitAdmitted(h, f, c, s.now, op);
    if op.bidder in auth && CommitRefusal(f, c, s.now, op) == None {
      CommitTerms(h, s, f, id, op);
      CommitFailsOnlyForTheBidder(h, s, f, id, auth, op);
    }
  }

  /** What an accepted commit leaves: the new commitment and escrow, nothing revealed; a
      first-time bidder stands last in the index, an overwriting one keeps the place. */
  lemma CommitStores(h: Host, s: State, f: Family, id: nat, auth: set<Address>, op: Op)
    requires id in Cells(s, f) && op.Commit? && Called(h, s, f, id, auth, op).outcome.Done?
    ensures var r, c := Called(h, s, f, id, auth, op), Cells(s, f)[id];
            && r.outcome == Done(Unit)
            && Leaves(s, r.state, f, id, c.(
                 round := c.round.(bidders := if op.bidder in c.subs then c.round.bidders else c.round.bidders + [op.bidder]),
                 subs := c.subs[op.bidder := Submission(op.commitment, op.escrow, None, None, false, false)]))
  {
    hide TransferAll, CommitRefusal;
  }

  lemma CommitRefusals(h: Host, s: State, f: Family, id: nat, auth: set<Address>, op: Op)
    requires Reachable(h, s) && id in Cells(s, f) && op.Commit? && h.self !in auth
    ensures var c, out := Cells(s, f)[id], Called(h, s, f, id, auth, op).outcome;
            var signed := op.bidder in auth;
            var early := signed && c.round.status == Open && s.now <= c.round.commitDeadline;
            var fits := early && EscrowFits(c, op.escrow);
            var listed := fits && Listed(c, op.bidder);
            var fixed := listed && FixedEscrowMet(c, op.escrow);
            var sized := fixed && |op.ciphertext| <= 4096 && |op.auditorBlob| <= 2048;
            && (!signed ==> out == Trap)
            && (signed && c.round.status != Open ==>
                  out == Fail(match c.round.status case Voided => RoundVoided case Settled => AlreadySettled case _ => WrongStatus))
            && (signed && c.round.status == Open && !early ==> out == Fail(CommitClosed))
            && (early && !fits ==> out == Fail(if c.round.mode == Auction then InvalidAmount else EscrowNotAllowed))
            && (fits && !listed ==> out == Fail(ParticipantNotEligible))
            && (listed && !fixed ==> out == Fail(EscrowPolicyMismatch))
            && (fixed && !sized ==> out == Fail(PayloadTooLarge))
            && (sized && !HasPlace(c, op.bidder) ==> out == Fail(RoundFull))
            && (sized && HasPlace(c, op.bidder) && !out.Done? ==> out == Trap)
  {
    hide Reachable, StateInv, Solvent, TransferAll, CellInv, CommitRefusal;
    var c := Cells(s, f)[id];
    ReachableIsGood(h, s);
    RecordIsGood(h, s, f, id);
    CommitRefusalInOrder(h, f, c, s.now, op);
  }

  lemma CommitRefusalInOrder(h: Host, f: Family, c: Cell, now: U64, op: Op)
    requires CellInv(h, f, c) && op.Commit?
    ensures var why := CommitRefusal(f, c, now, op);
            var early := c.round.status == Open && now <= c.round.commitDeadline;
            var fits := early && EscrowFits(c, op.escrow);
            var listed := fits && Listed(c, op.bidder);
            var fixed := listed && FixedEscrowMet(c, op.escrow);
            var sized := fixed && |op.ciphertext| <= 4096 && |op.auditorBlob| <= 2048;
            && (c.round.status != Open ==>
                  why == Some(match c.round.status case Voided => RoundVoided case Settled => AlreadySettled case _ => WrongStatus))
            && (c.round.status == Open && !early ==> why == Some(CommitClosed))
            && (early && !fits ==> why == Some(if c.round.mode == Auction then InvalidAmount else EscrowNotAllowed))
            && (fits && !listed ==> why == Some(ParticipantNotEligible))
            && (listed && !fixed ==> why == Some(EscrowPolicyMismatch))
            && (fixed && !sized ==> why == Some(PayloadTooLarge))
            && (sized && !HasPlace(c, op.bidder) ==> why == Some(RoundFull))
            && (sized && HasPlace(c, op.bidder) ==> why == None)
  {
    hide NoRepeats, Verdict, OpeningOk, TimeOfRound;
  }

  // ---- Opening ----

  /** The time at which a round may be opened: v1 and version 2 at any time after the commit
      deadline, however late; v3 only between Drand's time and the reveal deadline. */
  predicate OpeningTime(h: Host, c: Cell, now: U64) {
    && now > c.round.commitDeadline
    && (c.round.version == 3 ==> TimeOfRound(h, c.round.revealRound) <= now <= c.round.revealDeadline)
  }

  /** A v3 round records the time of its opening. */
  function OpenedCell(c: Cell, now: U64): Cell {
    c.(round := c.round.(status := Revealing),
       window := if c.window.Some? then Some(c.window.value.(openedAt := Some(now))) else None)
  }

  lemma OpenGoes(h: Host, f: Family, c: Cell, now: U64, auth: set<Address>, signature: Bytes)
    requires CellInv(h, f, c)
    ensures var a := OpenAttempt(h, f, c, now, auth, signature);
            if c.round.status == Open && OpeningTime(h, c, now) && OwnerGate(c, now, auth) && h.drand(c.round.revealRound, signature)
            then a == Go(OpenedCell(c, now), [], Unit)
            else !a.Go?
  {
    hide NoRepeats, OpeningOk, TimeOfRound, Verdict;
  }

  /** Opening succeeds exactly on an open round, at its opening time, with the round's Drand
      signature, and before the fallback of an owner-triggered policy only for the operator. */
  lemma OpenAccepted(h: Host, s: State, f: Family, id: nat, auth: set<Address>, signature: Bytes)
    requires Reachable(h, s) && id in Cells(s, f)
    ensures var r, c := Called(h, s, f, id, auth, OpenReveal(signature)), Cells(s, f)[id];
            && (r.outcome.Done? <==>
                  && c.round.status == Open && OpeningTime(h, c, s.now) && OwnerGate(c, s.now, auth)
                  && h.drand(c.round.revealRound, signature))
            && (r.outcome.Done? ==>
                  && r.outcome == Done(Unit) && r.state.ledger == s.ledger
                  && Leaves(s, r.state, f, id, OpenedCell(c, s.now)))
  {
    hide Reachable, StateInv, Solvent, TransferAll, CellInv, OpenAttempt, OpeningTime, OwnerGate, OpenedCell;
    ReachableIsGood(h, s);
    RecordIsGood(h, s, f, id);
    OpenGoes(h, f, Cells(s, f)[id], s.now, auth, signature);
    TransferNothing(s.ledger);
  }

  function OpenAnswer(a: Attempt): Outcome {
    match a case Go(_, _, value) => Done(value) case Refused(error) => Fail(error) case Trapped => Trap
  }

  lemma OpenRefusedAs(h: Host, f: Family, c: Cell, now: U64, auth: set<Address>, signature: Bytes)
    requires CellInv(h, f, c)
    ensures var out := OpenAnswer(OpenAttempt(h, f, c, now, auth, signature));
            var privacy := TimeOfRound(h, c.round.revealRound);
            && (c.round.status == Settled ==> out == Fail(AlreadySettled))
            && (c.round.status == Voided ==> out == Fail(RoundVoided))
            && (c.round.status == Cleared ==> out == Fail(AlreadyCleared))
            && (c.round.status == Revealing ==> out == Fail(RevealAlreadyOpen))
            && (c.round.status == Open && (now <= c.round.commitDeadline || (c.round.version == 3 && now < privacy)) ==>
                  out == Fail(CommitNotClosed))
            && (c.round.status == Open && c.round.version == 3 && now > c.round.revealDeadline ==> out == Fail(RevealWindowClosed))
            && (c.round.status == Open && OpeningTime(h, c, now) && !OwnerGate(c, now, auth) ==> out == Trap)
            && (c.round.status == Open && OpeningTime(h, c, now) && OwnerGate(c, now, auth) ==>
                  h.drand(c.round.revealRound, signature) || out == Fail(InvalidDrandSignature))
  {
    hide NoRepeats, OpeningOk, TimeOfRound, Verdict;
  }

  lemma OpenRefusals(h: Host, s: State, f: Family, id: nat, auth: set<Address>, signature: Bytes)
    requires Reachable(h, s) && id in Cells(s, f)
    ensures var out, c := Called(h, s, f, id, auth, OpenReveal(signature)).outcome, Cells(s, f)[id];
            var privacy := TimeOfRound(h, c.round.revealRound);
            && (c.round.status == Settled ==> out == Fail(AlreadySettled))
            && (c.round.status == Voided ==> out == Fail(RoundVoided))
            && (c.round.status == Cleared ==> out == Fail(AlreadyCleared))
            && (c.round.status == Revealing ==> out == Fail(RevealAlreadyOpen))
            && (c.round.status == Open && (s.now <= c.round.commitDeadline || (c.round.version == 3 && s.now < privacy)) ==>
                  out == Fail(CommitNotClosed))
            && (c.round.status == Open && c.round.version == 3 && s.now > c.round.revealDeadline ==> out == Fail(RevealWindowClosed))
            && (c.round.status == Open && OpeningTime(h, c, s.now) && !OwnerGate(c, s.now, auth) ==> out == Trap)
            && (c.round.status == Open && OpeningTime(h, c, s.now) && OwnerGate(c, s.now, auth) ==>
                  h.drand(c.round.revealRound, signature) || out == Fail(InvalidDrandSignature))
  {
    hide Reachable, StateInv, Solvent, TransferAll, CellInv, OpenAttempt, OpeningTime, OwnerGate, TimeOfRound;
    ReachableIsGood(h, s);
    RecordIsGood(h, s, f, id);
    OpenRefusedAs(h, f, Cells(s, f)[id], s.now, auth, signature);
  }

  // ---- Revealing ----

  /** The reveal window of a round is open for a bidder who has not revealed yet. */
  predicate CanReveal(c: Cell, now: U64, b: Address) {
    && c.round.status == Revealing && now <= c.round.revealDeadline
    && b in c.subs && c.subs[b].opening == None
  }

  /** v1: recorded exactly when value and nonce hash to the commitment and the value is within
      the escrow; only a positive value competes. */
  lemma RevealBidAccepted(h: Host, s: State, id: nat, auth: set<Address>, b: Address, value: I128, nonce: Bytes)
    requires id in s.v1
    ensures var r, c := Called(h, s, V1, id, auth, RevealBid(b, value, nonce)), s.v1[id];
            && (r.outcome.Done? <==>
                  && CanReveal(c, s.now, b)
                  && h.sha(Preimage(value, nonce)) == c.subs[b].commitment && value <= c.subs[b].escrow)
            && (r.outcome.Done? ==>
                  && r.outcome == Done(Unit) && r.state.ledger == s.ledger
                  && Leaves(s, r.state, V1, id, c.(subs := c.subs[b := c.subs[b].(
                       opening := Some(Preimage(value, nonce)), amount := Some(value), valid := value > 0)])))
  {
    TransferNothing(s.ledger);
    hide TransferAll, Preimage;
  }

  /** v2: recorded exactly when the envelope hashes to the commitment, decodes, and carries an
      amount that the mode allows: 0 < amount <= escrow in an auction, whatever it says in a
      receipt-only round without escrow. */
  predicate EnvelopeFits(h: Host, mode: RoundMode, s: Submission, envelope: Bytes) {
    && h.sha(envelope) == s.commitment
    && Decode(envelope).Ok?
    && var amount := Decode(envelope).value.amount;
       if mode == Auction then amount.Some? && 0 < amount.value <= s.escrow else s.escrow == 0
  }

  lemma RevealEnvelopeAccepted(h: Host, s: State, id: nat, auth: set<Address>, b: Address, envelope: Bytes)
    requires id in s.v2
    ensures var r, c := Called(h, s, V2, id, auth, RevealEnvelope(b, envelope)), s.v2[id];
            && (r.outcome.Done? <==> CanReveal(c, s.now, b) && EnvelopeFits(h, c.round.mode, c.subs[b], envelope))
            && (r.outcome.Done? ==>
                  && r.outcome == Done(Unit) && r.state.ledger == s.ledger
                  && Leaves(s, r.state, V2, id, c.(subs := c.subs[b := c.subs[b].(
                       opening := Some(envelope), amount := Decode(envelope).value.amount, valid := true)])))
  {
    TransferNothing(s.ledger);
    hide TransferAll, Decode;
  }

  /** The refusals that reveals of both families share come first, in this order ... */
  lemma RevealRefusals(h: Host, s: State, f: Family, id: nat, auth: set<Address>, op: Op)
    requires id in Cells(s, f) && (if f == V1 then op.RevealBid? else op.RevealEnvelope?)
    ensures var out, c := Called(h, s, f, id, auth, op).outcome, Cells(s, f)[id];
            var timely := c.round.status == Revealing && s.now <= c.round.revealDeadline;
            && (c.round.status != Revealing ==>
                  out == Fail(match c.round.status case Settled => AlreadySettled case Voided => RoundVoided case _ => RevealNotOpen))
            && (c.round.status == Revealing && !timely ==> out == Fail(RevealWindowClosed))
            && (timely && op.revealed !in c.subs ==> out == Fail(BidNotFound))
            && (timely && op.revealed in c.subs && c.subs[op.revealed].opening.Some? ==> out == Fail(AlreadyRevealed))
            && (CanReveal(c, s.now, op.revealed)
                && h.sha(if f == V1 then Preimage(op.value, op.nonce) else op.envelope) != c.subs[op.revealed].commitment ==>
                  out == Fail(HashMismatch))
  {
    hide TransferAll, Preimage, OnChain;
  }

  /** ... and a reveal that hashes to the commitment fails only on its amount or its format. */
  lemma MatchingRevealRefusals(h: Host, s: State, f: Family, id: nat, auth: set<Address>, op: Op)
    requires id in Cells(s, f) && (if f == V1 then op.RevealBid? else op.RevealEnvelope?)
    requires CanReveal(Cells(s, f)[id], s.now, op.revealed)
    requires h.sha(if f == V1 then Preimage(op.value, op.nonce) else op.envelope) == Cells(s, f)[id].subs[op.revealed].commitment
    ensures var out, c := Called(h, s, f, id, auth, op).outcome, Cells(s, f)[id];
            var escrow := c.subs[op.revealed].escrow;
            && (f == V1 && op.value > escrow ==> out == Fail(BidExceedsEscrow))
            && (f == V2 && Decode(op.envelope).Err? ==>
                  out == Fail(if Decode(op.envelope).error == BadVersion && |op.envelope| <= MAX_ENVELOPE_BYTES
                              then Error.UnsupportedVersion else Error.MalformedPayload))
            && (f == V2 && Decode(op.envelope).Ok? ==>
                  var amount := Decode(op.envelope).value.amount;
                  && (c.round.mode == Auction && amount == None ==> out == Fail(Error.MalformedPayload))
                  && (c.round.mode == Auction && amount.Some? && amount.value <= 0 ==> out == Fail(InvalidAmount))
                  && (c.round.mode == Auction && amount.Some? && amount.value > 0 && amount.value > escrow ==>
                        out == Fail(BidExceedsEscrow))
                  && (c.round.mode == ReceiptOnly && escrow != 0 ==> out == Fail(EscrowNotAllowed)))
  {
    hide TransferAll, Preimage, Decode;
  }

  // ---- Clear ----

  /** Bidder b competes: its submission is valid and shows an amount. */
  predicate Competes(c: Cell, b: Address) {
    b in c.subs && c.subs[b].valid && c.subs[b].amount.Some?
  }

  /** b's amount is an optimum of all competing amounts ... */
  predicate Unbeaten(c: Cell, b: Address)
    requires Competes(c, b)
  {
    forall a :: a in c.subs && Competes(c, a) ==>
      if c.round.rule == HighestBid then c.subs[a].amount.value <= c.subs[b].amount.value
      else c.subs[a].amount.value >= c.subs[b].amount.value
  }

  /** ... and nobody before index k in the order of the bids offers the same. */
  predicate FirstWithIt(c: Cell, k: nat)
    requires k < |c.round.bidders| && Competes(c, c.round.bidders[k])
  {
    forall j :: 0 <= j < k && Competes(c, c.round.bidders[j]) ==>
      c.subs[c.round.bidders[j]].amount != c.subs[c.round.bidders[k]].amount
  }

  ghost predicate SomebodyCompetes(c: Cell) {
    exists b :: Competes(c, b)
  }

  /** The record is as before, with this status and every submission marked settled. */
  predicate AllMarked(c: Cell, d: Cell, status: Status) {
    && d == c.(round := c.round.(status := status), subs := d.subs)
    && d.subs.Keys == c.subs.Keys
    && forall a :: a in c.subs ==> a in d.subs && d.subs[a] == c.subs[a].(settled := true)
  }

  /** What an accepted clear makes of a round. Receipt-only: settled, without a winner. Auction
      in which somebody competes: cleared, the first unbeaten bidder wins with its amount.
      Auction in which nobody does: voided. */
  ghost predicate ClearedAs(c: Cell, d: Cell) {
    if c.round.mode == ReceiptOnly then AllMarked(c, d, Settled)
    else if !SomebodyCompetes(c) then AllMarked(c, d, Voided)
    else
      exists k: nat :: k < |c.round.bidders| && Competes(c, c.round.bidders[k])
        && Unbeaten(c, c.round.bidders[k]) && FirstWithIt(c, k)
        && d == c.(round := c.round.(status := Cleared, winner := Some(c.round.bidders[k]),
                                     winningBid := c.subs[c.round.bidders[k]].amount.value))
  }

  lemma OffersAreCompetitors(c: Cell, i: nat)
    requires i < |c.round.bidders|
    ensures Offers(c)[i] == if Competes(c, c.round.bidders[i]) then c.subs[c.round.bidders[i]].amount else None
  {
  }

  lemma IndexedBids(h: Host, f: Family, c: Cell)
    requires CellInv(h, f, c)
    ensures forall a :: a in c.subs <==> a in c.round.bidders
  {
    hide NoRepeats, OpeningOk, TimeOfRound, Verdict;
  }

  lemma FirstBestIsUnbeaten(c: Cell, k: nat)
    requires forall a :: a in c.subs <==> a in c.round.bidders
    requires k < |c.round.bidders| && FirstBest(Offers(c), c.round.rule, |Offers(c)|, k)
    ensures Competes(c, c.round.bidders[k]) && Unbeaten(c, c.round.bidders[k]) && FirstWithIt(c, k)
  {
    hide Offers;
    OffersAreCompetitors(c, k);
    var best := c.subs[c.round.bidders[k]].amount.value;
    forall a | a in c.subs && Competes(c, a) ensures !Better(c.round.rule, c.subs[a].amount.value, best) {
      var j :| 0 <= j < |c.round.bidders| && c.round.bidders[j] == a;
      OffersAreCompetitors(c, j);
    }
    forall j | 0 <= j < k && Competes(c, c.round.bidders[j]) ensures c.subs[c.round.bidders[j]].amount != Some(best) {
      OffersAreCompetitors(c, j);
    }
  }

  /** The verdict is the first bidder whose amount nobody beats; there is none exactly when
      nobody competes. */
  lemma VerdictIsFirstUnbeaten(h: Host, f: Family, c: Cell)
    requires CellInv(h, f, c)
    ensures Verdict(c).Some? <==> SomebodyCompetes(c)
    ensures Verdict(c).Some? ==>
              var k := Verdict(c).value;
              Competes(c, c.round.bidders[k]) && Unbeaten(c, c.round.bidders[k]) && FirstWithIt(c, k)
              && WinningAmount(c) == c.subs[c.round.bidders[k]].amount.value
  {
    hide CellInv, Leader, FirstBest, Unbeaten, FirstWithIt, Offers;
    IndexedBids(h, f, c);
    LeaderIsFirstBest(Offers(c), c.round.rule, |Offers(c)|);
    if SomebodyCompetes(c) {
      var b :| Competes(c, b);
      var i :| 0 <= i < |c.round.bidders| && c.round.bidders[i] == b;
      OffersAreCompetitors(c, i);
    }
    if Verdict(c).Some? {
      OffersAreCompetitors(c, Verdict(c).value);
      FirstBestIsUnbeaten(c, Verdict(c).value);
    }
  }

  lemma ClearLeaves(h: Host, f: Family, id: nat, c: Cell, now: U64)
    requires CellInv(h, f, c) && c.round.status == Revealing && now > c.round.revealDeadline
    ensures var a := ClearAttempt(h, f, id, c, now);
            a.Go? && ClearedAs(c, a.cell) && a.value == Winner(a.cell.round.winner)
  {
    VerdictIsFirstUnbeaten(h, f, c);
    VoidedIsMarked(h, f, c);
    SettledIsMarked(h, f, c);
    RevealingFacts(h, f, c);
    hide CellInv, Verdict, WinningAmount, RefundAllMoves, Unbeaten, FirstWithIt, SomebodyCompetes, AllMarked, Competes, VoidedCell;
  }

  lemma RevealingFacts(h: Host, f: Family, c: Cell)
    requires CellInv(h, f, c) && c.round.status == Revealing
    ensures c.round.winner == None && (c.round.mode == ReceiptOnly ==> f == V2) && VoidedCell(f, c).round.winner == None
  {
    hide Verdict, NoRepeats, OpeningOk, TimeOfRound;
  }

  /** Clearing succeeds exactly after the deadline of a revealing round; anybody may do it, it
      never lacks funds, and what it leaves is pinned down by the reveals. */
  lemma ClearAccepted(h: Host, s: State, f: Family, id: nat, auth: set<Address>)
    requires Reachable(h, s) && id in Cells(s, f)
    ensures var r, c := Called(h, s, f, id, auth, Clear), Cells(s, f)[id];
            && (r.outcome.Done? <==> c.round.status == Revealing && s.now > c.round.revealDeadline)
            && (r.outcome.Done? ==>
                  && id in Cells(r.state, f) && ClearedAs(c, Cells(r.state, f)[id])
                  && Leaves(s, r.state, f, id, Cells(r.state, f)[id])
                  && r.outcome == Done(Winner(Cells(r.state, f)[id].round.winner)))
  {
    hide Reachable, StateInv, Solvent, CellInv, TransferAll, RefundAllMoves, ClearAttempt, ClearedAs;
    ReachableIsGood(h, s);
    RecordIsGood(h, s, f, id);
    var c := Cells(s, f)[id];
    ClearGoes(h, f, id, c, s.now);
    if c.round.status == Revealing && s.now > c.round.revealDeadline {
      ClearLeaves(h, f, id, c, s.now);
      RefundsCannotFail(h, s, f, id);
      TransferNothing(s.ledger);
    }
  }

  lemma ClearGoes(h: Host, f: Family, id: nat, c: Cell, now: U64)
    ensures var a := ClearAttempt(h, f, id, c, now);
            && (a.Go? <==> c.round.status == Revealing && now > c.round.revealDeadline)
            && (a.Go? ==> a.moves == [] || a.moves == RefundAllMoves(h, id, c))
  {
    hide Verdict, RefundAllMoves, MarkSettled;
  }

  lemma ClearRefusals(h: Host, s: State, f: Family, id: nat, auth: set<Address>)
    requires id in Cells(s, f)
    ensures var out, c := Called(h, s, f, id, auth, Clear).outcome, Cells(s, f)[id];
            match c.round.status
            case Open => out == Fail(RevealNotOpen)
            case Revealing => s.now <= c.round.revealDeadline ==> out == Fail(RevealStillOpen)
            case Cleared => out == Fail(AlreadyCleared)
            case Settled => out == Fail(AlreadySettled)
            case Voided => out == Fail(RoundVoided)
  {
    hide Verdict, RefundAllMoves, MarkSettled, TransferAll;
  }

  // ---- Settle ----

  /** Settling succeeds exactly on a cleared round, whoever calls, and marks everybody; every
      other status gets its own refusal. */
  lemma SettleAccepted(h: Host, s: State, f: Family, id: nat, auth: set<Address>)
    requires Reachable(h, s) && id in Cells(s, f)
    ensures var r, c := Called(h, s, f, id, auth, Settle), Cells(s, f)[id];
            match c.round.status
            case Cleared =>
              && r.outcome == Done(Unit)
              && id in Cells(r.state, f) && AllMarked(c, Cells(r.state, f)[id], Settled)
              && Leaves(s, r.state, f, id, Cells(r.state, f)[id])
            case Settled => r.outcome == Fail(AlreadySettled)
            case Voided => r.outcome == Fail(RoundVoided)
            case _ => r.outcome == Fail(NotCleared)
  {
    hide Reachable, StateInv, Solvent, CellInv, TransferAll, SettleMoves, AllMarked;
    ReachableIsGood(h, s);
    RecordIsGood(h, s, f, id);
    if Cells(s, f)[id].round.status == Cleared {
      SettlementIsCovered(h, s, f, id);
      SettledIsMarked(h, f, Cells(s, f)[id]);
    }
  }

  lemma SettledIsMarked(h: Host, f: Family, c: Cell)
    requires CellInv(h, f, c)
    ensures AllMarked(c, SettledCell(c), Settled)
  {
    hide Verdict, NoRepeats, OpeningOk, TimeOfRound;
    assert SettledCell(c).subs.Keys == c.subs.Keys;
  }

  // ---- Void ----

  /** Voiding succeeds exactly on an open round later than the grace period after its reveal
      deadline. An auction's submissions are then all marked settled. */
  lemma VoidAccepted(h: Host, s: State, f: Family, id: nat, auth: set<Address>)
    requires Reachable(h, s) && id in Cells(s, f)
    ensures var r, c := Called(h, s, f, id, auth, Void), Cells(s, f)[id];
            && (r.outcome.Done? <==> c.round.status == Open && s.now > c.round.revealDeadline + 3600)
            && (r.outcome.Done? ==>
                  && r.outcome == Done(Unit)
                  && id in Cells(r.state, f) && Leaves(s, r.state, f, id, Cells(r.state, f)[id])
                  && (if c.round.mode == Auction then AllMarked(c, Cells(r.state, f)[id], Voided)
                      else Cells(r.state, f)[id] == c.(round := c.round.(status := Voided))))
            && (!r.outcome.Done? ==>
                  r.outcome == match c.round.status
                               case Voided => Fail(RoundVoided)
                               case Settled => Fail(AlreadySettled)
                               case Open => if f == V1 && c.round.revealDeadline + 3600 > U64_MAX then Trap else Fail(NotVoidable)
                               case _ => Fail(NotVoidable))
  {
    hide Reachable, StateInv, Solvent, CellInv, TransferAll, RefundAllMoves, AllMarked, VoidedCell;
    ReachableIsGood(h, s);
    RecordIsGood(h, s, f, id);
    if Cells(s, f)[id].round.status == Open {
      RefundsCannotFail(h, s, f, id);
      VoidedIsMarked(h, f, Cells(s, f)[id]);
    }
  }

  lemma VoidedIsMarked(h: Host, f: Family, c: Cell)
    requires CellInv(h, f, c)
    ensures if c.round.mode == Auction then AllMarked(c, VoidedCell(f, c), Voided)
            else VoidedCell(f, c) == c.(round := c.round.(status := Voided))
  {
    hide Verdict, NoRepeats, OpeningOk, TimeOfRound;
    assert VoidedCell(f, c).subs.Keys == c.subs.Keys;
  }
}
