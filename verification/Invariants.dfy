/** The invariant of a stored round, in named parts. */
module Invariants {
  import opened Base
  import opened TwosComplement
  import opened Envelope
  import opened Optimum
  import opened Tokens
  import opened Rounds
  import opened Clearing
  import opened Rules

  /** The bidder index lists exactly the submissions, without repeats and within the cap;
      the contract itself is neither operator nor bidder. */
  ghost predicate Indexed(h: Host, c: Cell) {
    && NoRepeats(c.round.bidders)
    && (forall a :: a in c.subs <==> a in c.round.bidders)
    && |c.round.bidders| <= c.round.maxParticipants
    && c.round.operator != h.self
    && h.self !in c.subs
  }

  /** Commitments close strictly before Drand publishes the round, and the reveal window is
      open at that time. */
  ghost predicate Timed(h: Host, c: Cell) {
    && c.round.revealRound > 0
    && c.round.commitDeadline < TimeOfRound(h, c.round.revealRound) < c.round.revealDeadline
  }

  /** The settlement terms fit the family and the mode. */
  ghost predicate Settling(h: Host, f: Family, c: Cell) {
    var r := c.round;
    match f
    case V1 =>
      && r.version == 1 && r.mode == Auction && r.paymentAsset == Some(h.usdc) && r.lotAsset == None
      && r.lotAmount == 0 && r.maxParticipants == MAX_BIDDERS && c.policy == None && c.window == None
    case V2 =>
      && (r.version == 2 || r.version == 3) && 1 <= r.maxParticipants <= MAX_V2_PARTICIPANTS
      && (r.mode == Auction ==> r.paymentAsset.Some? && r.lotAsset.Some? && r.lotAmount > 0)
      && (r.mode == ReceiptOnly ==> r.paymentAsset == None && r.lotAsset == None && r.lotAmount == 0)
  }

  ghost predicate Escrowed(c: Cell) {
    forall a :: a in c.subs ==>
      if c.round.mode == Auction then c.subs[a].escrow > 0 else c.subs[a].escrow == 0
  }

  /** The partner policy was legal at creation and binds every bidder and escrow. */
  ghost predicate PolicyKept(c: Cell) {
    c.policy.Some? ==>
      var p := c.policy.value;
      && NoRepeats(p.eligible) && |p.eligible| <= c.round.maxParticipants
      && (c.round.mode == Auction ==> p.fixedEscrow > 0)
      && (c.round.mode == ReceiptOnly ==> p.fixedEscrow == 0)
      && (p.eligible != [] ==> forall a :: a in c.subs ==> a in p.eligible)
      && (forall a :: a in c.subs ==> c.subs[a].escrow == p.fixedEscrow)
  }

  /** A recorded reveal hashes to the commitment and decodes to the recorded amount. */
  ghost predicate OpeningOk(h: Host, f: Family, mode: RoundMode, s: Submission) {
    match s.opening
    case None => s.amount == None && !s.valid
    case Some(e) =>
      && h.sha(e) == s.commitment
      && (f == V1 ==>
            && |e| == PREIMAGE_BYTES && s.amount == Some(DecodePreimage(e).value.0)
            && s.amount.value <= s.escrow && (s.valid <==> s.amount.value > 0))
      && (f == V2 ==> s.valid && OnChain(e) == Ok(s.amount))
      && (f == V2 && mode == Auction ==> s.amount.Some? && 0 < s.amount.value <= s.escrow)
  }

  ghost predicate Opened(h: Host, f: Family, c: Cell) {
    forall a :: a in c.subs ==> OpeningOk(h, f, c.round.mode, c.subs[a])
  }

  /** The declared winner and winning bid are the verdict of the scan. */
  ghost predicate Decided(c: Cell) {
    && Verdict(c).Some?
    && c.round.winner == Some(c.round.bidders[Verdict(c).value])
    && c.round.winningBid == WinningAmount(c)
  }

  ghost predicate Undecided(c: Cell) {
    c.round.winner == None && c.round.winningBid == 0
  }

  ghost predicate AllSettled(c: Cell) {
    forall a :: a in c.subs ==> c.subs[a].settled
  }

  /** What the status says about reveals, the verdict and the settled marks. */
  ghost predicate Phased(c: Cell) {
    match c.round.status
    case Open => Undecided(c) && forall a :: a in c.subs ==> !c.subs[a].settled && c.subs[a].opening == None
    case Revealing => Undecided(c) && forall a :: a in c.subs ==> !c.subs[a].settled
    case Cleared => c.round.mode == Auction && Decided(c) && forall a :: a in c.subs ==> !c.subs[a].settled
    case Settled => AllSettled(c) && (if c.round.mode == Auction then Decided(c) else Undecided(c))
    case Voided => Undecided(c) && (c.round.mode == Auction ==> AllSettled(c))
  }

  /** Exactly the v3 rounds carry a reveal policy, it leaves time to reveal, and the opening
      time lies in the reveal window. */
  ghost predicate Windowed(h: Host, c: Cell) {
    && (c.window.Some? <==> c.round.version == 3)
    && (c.window.Some? ==> c.policy.Some?)
    && (c.window.Some? ==> WindowOk(h, c.round, c.window.value))
  }

  ghost predicate WindowOk(h: Host, r: Round, w: RevealState) {
    var privacy := TimeOfRound(h, r.revealRound);
    && (w.policy.OwnerTriggered? ==>
          privacy < w.policy.fallbackAt && w.policy.fallbackAt + MIN_REVEAL_WINDOW <= r.revealDeadline)
    && (w.openedAt.Some? ==> privacy <= w.openedAt.value <= r.revealDeadline)
    && (r.status == Open ==> w.openedAt == None)
    && (r.status == Revealing || r.status == Cleared || r.status == Settled ==> w.openedAt.Some?)
  }

  ghost predicate CellInv(h: Host, f: Family, c: Cell) {
    && Indexed(h, c)
    && Timed(h, c)
    && Settling(h, f, c)
    && Escrowed(c)
    && PolicyKept(c)
    && Opened(h, f, c)
    && Phased(c)
    && Windowed(h, c)
  }

  // ---- Creation establishes the invariant ----

  lemma CreateV1Establishes(h: Host, now: U64, auth: set<Address>, id: nat, t: Terms)
    requires h.self !in auth
    ensures var a := CreateV1Attempt(h, now, auth, id, t);
            a.Go? ==> CellInv(h, V1, a.cell) && a.cell.round.status == Open
  {
  }

  lemma CreateV2Establishes(h: Host, now: U64, auth: set<Address>, id: nat, t: Terms, policy: Option<Policy>)
    requires h.self !in auth
    ensures var a := CreateV2Attempt(h, now, auth, id, t, policy);
            a.Go? ==> CellInv(h, V2, a.cell) && a.cell.round.status == Open
                      && a.cell.round.version == 2 && a.cell.policy == policy
  {
  }

  lemma CreateV3Establishes(h: Host, now: U64, auth: set<Address>, id: nat, t: Terms, policy: Policy,
                            opening: RevealPolicy)
    requires h.self !in auth
    ensures var a := CreateV3Attempt(h, now, auth, id, t, policy, opening);
            a.Go? ==> CellInv(h, V2, a.cell) && a.cell.round.status == Open
  {
    CreateV2Establishes(h, now, auth, id, t, Some(policy));
  }

  // ---- Every operation keeps it ----

  lemma CommitKeeps(h: Host, f: Family, c: Cell, now: U64, op: Op)
    requires CellInv(h, f, c) && op.Commit? && op.bidder != h.self
    requires CommitRefusal(f, c, now, op) == None
    ensures CellInv(h, f, Placed(c, op.bidder, op.commitment, op.escrow))
  {
    var d := Placed(c, op.bidder, op.commitment, op.escrow);
    PlacedIsIndexed(h, f, c, now, op);
    hide Indexed, Timed, NoRepeats;
    assert Timed(h, d);
    assert Settling(h, f, d);
    assert PolicyKept(d) && Opened(h, f, d);
  }

  lemma PlacedIsIndexed(h: Host, f: Family, c: Cell, now: U64, op: Op)
    requires Indexed(h, c) && op.Commit? && op.bidder != h.self
    requires CommitRefusal(f, c, now, op) == None
    ensures Indexed(h, Placed(c, op.bidder, op.commitment, op.escrow))
  {
    var d := Placed(c, op.bidder, op.commitment, op.escrow);
    if op.bidder !in c.subs {
      NoRepeatsAppend(c.round.bidders, op.bidder);
    }
    forall a ensures a in d.subs <==> a in d.round.bidders {
    }
  }

  lemma OpenKeeps(h: Host, f: Family, c: Cell, now: U64, auth: set<Address>, signature: Bytes)
    requires CellInv(h, f, c)
    ensures var a := OpenAttempt(h, f, c, now, auth, signature);
            a.Go? ==> CellInv(h, f, a.cell)
  {
  }

  /** Recording a correct opening for one bidder of a round that is revealing. */
  lemma RevealKeeps(h: Host, f: Family, c: Cell, b: Address, s: Submission)
    requires CellInv(h, f, c) && c.round.status == Revealing && b in c.subs
    requires s.commitment == c.subs[b].commitment && s.escrow == c.subs[b].escrow && !s.settled
    requires OpeningOk(h, f, c.round.mode, s)
    ensures CellInv(h, f, c.(subs := c.subs[b := s]))
  {
    var d := c.(subs := c.subs[b := s]);
    assert forall a :: a in d.subs <==> a in c.subs;
  }

  lemma RevealBidKeeps(h: Host, c: Cell, now: U64, b: Address, value: I128, nonce: Bytes)
    requires CellInv(h, V1, c) && |nonce| == NONCE_BYTES
    ensures var a := RevealBidAttempt(h, c, now, b, value, nonce);
            a.Go? ==> CellInv(h, V1, a.cell)
  {
    var a := RevealBidAttempt(h, c, now, b, value, nonce);
    if a.Go? {
      PreimageRoundTrip(value, nonce);
      RevealKeeps(h, V1, c, b, a.cell.subs[b]);
    }
  }

  lemma RevealEnvelopeKeeps(h: Host, c: Cell, now: U64, b: Address, envelope: Bytes)
    requires CellInv(h, V2, c)
    ensures var a := RevealEnvelopeAttempt(h, c, now, b, envelope);
            a.Go? ==> CellInv(h, V2, a.cell)
  {
    var a := RevealEnvelopeAttempt(h, c, now, b, envelope);
    if a.Go? {
      RevealKeeps(h, V2, c, b, a.cell.subs[b]);
    }
  }

  /** Marking submissions settled leaves everything else of them alone. */
  lemma MarkingKeeps(h: Host, f: Family, c: Cell, d: Cell, onlyEscrowed: bool)
    requires CellInv(h, f, c)
    requires d.subs == MarkSettled(c.subs, c.round.bidders, onlyEscrowed)
    requires d.round == c.round.(status := d.round.status) && d.policy == c.policy && d.window == c.window
    ensures Indexed(h, d) && Timed(h, d) && Settling(h, f, d) && Escrowed(d) && PolicyKept(d) && Opened(h, f, d)
    ensures c.round.mode == Auction || !onlyEscrowed ==> AllSettled(d)
    ensures Verdict(d) == Verdict(c)
    ensures Verdict(c).Some? ==> WinningAmount(d) == WinningAmount(c)
  {
    hide Verdict, OnChain, DecodePreimage, TimeOfRound;
    assert forall a :: a in d.subs <==> a in c.subs;
    SameOffers(c, d);
  }

  lemma VoidingKeeps(h: Host, f: Family, c: Cell)
    requires CellInv(h, f, c) && Undecided(c) && (c.round.status == Open || c.round.status == Revealing)
    ensures CellInv(h, f, VoidedCell(f, c))
  {
    var d := VoidedCell(f, c);
    if c.round.paymentAsset.Some? {
      MarkingKeeps(h, f, c, d, f == V1);
    }
  }

  lemma ClearKeeps(h: Host, f: Family, id: nat, c: Cell, now: U64)
    requires CellInv(h, f, c)
    ensures var a := ClearAttempt(h, f, id, c, now);
            a.Go? ==> CellInv(h, f, a.cell)
  {
    var a := ClearAttempt(h, f, id, c, now);
    if a.Go? {
      if f == V2 && c.round.mode == ReceiptOnly {
        MarkingKeeps(h, f, c, a.cell, false);
      } else if Verdict(c).None? {
        VoidingKeeps(h, f, c);
      } else {
        var d := a.cell;
        SameOffers(c, d);
        assert Opened(h, f, d);
      }
    }
  }

  lemma SettleKeeps(h: Host, f: Family, id: nat, c: Cell)
    requires CellInv(h, f, c)
    ensures var a := SettleAttempt(h, f, id, c);
            a.Go? ==> CellInv(h, f, a.cell)
  {
    hide Verdict, MarkSettled, SettleMoves, Indexed, Timed, Settling, Escrowed, PolicyKept, Opened;
    var a := SettleAttempt(h, f, id, c);
    if a.Go? {
      MarkingKeeps(h, f, c, a.cell, false);
    }
  }

  lemma VoidKeeps(h: Host, f: Family, id: nat, c: Cell, now: U64)
    requires CellInv(h, f, c)
    ensures var a := VoidAttempt(h, f, id, c, now);
            a.Go? ==> CellInv(h, f, a.cell)
  {
    if VoidAttempt(h, f, id, c, now).Go? {
      VoidingKeeps(h, f, c);
    }
  }

  /** A commit needs the bidder's authorisation and a v1 reveal a 32-byte nonce; the other
      calls are open to anybody. */
  predicate WellFormed(h: Host, auth: set<Address>, op: Op) {
    && h.self !in auth
    && (op.Commit? ==> op.bidder in auth)
    && (op.RevealBid? ==> |op.nonce| == NONCE_BYTES)
  }

  lemma OpKeeps(h: Host, f: Family, id: nat, c: Cell, now: U64, auth: set<Address>, op: Op)
    requires CellInv(h, f, c) && WellFormed(h, auth, op)
    ensures var a := OpAttempt(h, f, id, c, now, auth, op);
            a.Go? ==> CellInv(h, f, a.cell)
  {
    if OpAttempt(h, f, id, c, now, auth, op).Go? {
      match op
      case Commit(_, _, _, _, _) => CommitKeeps(h, f, c, now, op);
      case OpenReveal(signature) => OpenKeeps(h, f, c, now, auth, signature);
      case RevealBid(b, value, nonce) => RevealBidKeeps(h, c, now, b, value, nonce);
      case RevealEnvelope(b, envelope) => RevealEnvelopeKeeps(h, c, now, b, envelope);
      case Clear => ClearKeeps(h, f, id, c, now);
      case Settle => SettleKeeps(h, f, id, c);
      case Void => VoidKeeps(h, f, id, c, now);
    }
  }

  /** The winning bid is positive and covered by the winner's escrow. */
  lemma WinnerIsGood(h: Host, f: Family, c: Cell)
    requires CellInv(h, f, c) && c.round.mode == Auction && Verdict(c).Some?
    ensures var b := c.round.bidders[Verdict(c).value];
            b in c.subs && 0 < WinningAmount(c) <= c.subs[b].escrow
  {
    assert OpeningOk(h, f, c.round.mode, c.subs[c.round.bidders[Verdict(c).value]]);
  }
}
