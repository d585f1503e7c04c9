/** The Round contract as an object over its storage (contracts/round/src/lib.rs): every
    entry point changes the stored records and moves tokens one statement at a time, and the
    host undoes a call that fails half-way. Each method is proved to do exactly what the
    transition system in Machine.dfy says, from every state. */
module Contract {
  import opened Base
  import opened TwosComplement
  import opened Envelope
  import opened Optimum
  import opened Tokens
  import opened Rounds
  import opened Clearing
  import opened Rules
  import opened Machine

  /** The pairwise comparison that `create_round_v2_impl` makes on the allowlist. */
  method HasRepeats(xs: seq<Address>) returns (repeats: bool)
    ensures repeats <==> !NoRepeats(xs)
  {
    for left := 0 to |xs|
      invariant forall i, j :: 0 <= i < left && i < j < |xs| ==> xs[i] != xs[j]
    {
      for right := left + 1 to |xs|
        invariant forall j :: left < j < right ==> xs[left] != xs[j]
      {
        if xs[left] == xs[right] {
          return true;
        }
      }
    }
    return false;
  }

  /** The eligibility loop of `commit_v2`. */
  method IsListed(eligible: seq<Address>, bidder: Address) returns (listed: bool)
    ensures listed <==> eligible == [] || bidder in eligible
  {
    listed := |eligible| == 0;
    for i := 0 to |eligible|
      invariant listed <==> |eligible| == 0
      invariant bidder !in eligible[..i]
    {
      if eligible[i] == bidder {
        return true;
      }
    }
  }

  lemma {:induction false} FailedSettleStaysFailed(h: Host, l: Ledger, id: nat, c: Cell, winner: Address, i: nat, n: nat)
    requires c.round.paymentAsset.Some? && i <= n <= |c.round.bidders|
    requires TransferAll(l, SettleMoves(h, id, c, winner, i)).None?
    ensures TransferAll(l, SettleMoves(h, id, c, winner, n)).None?
  {
    if i < n {
      FailedSettleStaysFailed(h, l, id, c, winner, i, n - 1);
      TransferAllAppend(l, SettleMoves(h, id, c, winner, n - 1), SettleShare(h, id, c, winner, n - 1));
    }
  }

  lemma {:induction false} FailedRefundStaysFailed(h: Host, l: Ledger, id: nat, c: Cell, i: nat, n: nat)
    requires c.round.paymentAsset.Some? && i <= n <= |c.round.bidders|
    requires TransferAll(l, RefundMoves(h, id, c, i)).None?
    ensures TransferAll(l, RefundMoves(h, id, c, n)).None?
  {
    if i < n {
      FailedRefundStaysFailed(h, l, id, c, i, n - 1);
      TransferAllAppend(l, RefundMoves(h, id, c, n - 1), RefundShare(h, id, c, n - 1));
    }
  }

  /** A commit that passed the checks needs no asset only when it moves nothing. */
  lemma EscrowNeedsAsset(f: Family, c: Cell, now: U64, op: Op)
    requires op.Commit? && CommitRefusal(f, c, now, op) == None
    ensures c.round.paymentAsset.None? ==> op.escrow <= 0 && (op.bidder in c.subs ==> c.subs[op.bidder].escrow <= 0)
  {
  }

  lemma ConcludeCommitRefused(h: Host, s: State, f: Family, id: nat, c: Cell, now: U64, op: Op)
    requires op.Commit? && CommitRefusal(f, c, now, op).Some?
    ensures Conclude(s, f, id, CommitAttempt(h, f, id, c, now, op)) ==
            StepResult(s, Fail(CommitRefusal(f, c, now, op).value), [])
  {
  }

  /** A v3 creation is the partner creation with the version and the reveal state set. */
  lemma CreateV3FromV2(h: Host, s: State, auth: set<Address>, t: Terms, policy: Policy, opening: RevealPolicy)
    requires RevealPolicyOk(h, t, opening)
    ensures var two, three := Step(h, s, Event(auth, CreateV2(t, Some(policy)))), Step(h, s, Event(auth, CreateV3(t, policy, opening)));
            && three.outcome == two.outcome
            && (two.outcome.Done? ==>
                  var id := two.state.counter;
                  && id in two.state.v2
                  && var c := two.state.v2[id];
                     three.state == two.state.(v2 := two.state.v2[id :=
                       c.(round := c.round.(version := 3), window := Some(RevealState(opening, None)))]))
            && (!two.outcome.Done? ==> three.state == s == two.state)
  {
    hide CreateV2Refusal, TransferAll;
    var r := Step(h, s, Event(auth, CreateV2(t, Some(policy))));
    if r.outcome.Done? {
      var c := r.state.v2[r.state.counter];
      var d := c.(round := c.round.(version := 3), window := Some(RevealState(opening, None)));
      assert s.v2[s.counter + 1 := c][s.counter + 1 := d] == s.v2[s.counter + 1 := d];
    }
  }

  lemma CreateV3Refused(h: Host, s: State, auth: set<Address>, t: Terms, policy: Policy, opening: RevealPolicy)
    requires !RevealPolicyOk(h, t, opening)
    ensures Step(h, s, Event(auth, CreateV3(t, policy, opening))) == StepResult(s, Fail(InvalidRevealPolicy), [])
  {
  }

  /** Marking one more bidder settled extends the marks of the loop by one. */
  lemma MarkOneMore(subs: map<Address, Submission>, bidders: seq<Address>, i: nat, onlyEscrowed: bool)
    requires i < |bidders|
    ensures var b := bidders[i];
            var done := MarkSettled(subs, bidders[..i], onlyEscrowed);
            MarkSettled(subs, bidders[..i + 1], onlyEscrowed) ==
            if b in subs && (onlyEscrowed ==> subs[b].escrow > 0) then done[b := done[b].(settled := true)] else done
  {
    assert bidders[..i + 1] == bidders[..i] + [bidders[i]];
  }

  lemma MarkNobody(subs: map<Address, Submission>, onlyEscrowed: bool)
    ensures MarkSettled(subs, [], onlyEscrowed) == subs
  {
  }

  class RoundContract {
    const host: Host
    var now: U64
    var counter: U64
    var v1: map<nat, Cell>
    var v2: map<nat, Cell>
    var ledger: Ledger

    constructor (host: Host, now: U64, ledger: Ledger)
      ensures this.host == host && View() == State(now, 0, map[], map[], ledger) && Deployed(host, View()) && Valid()
    {
      this.host, this.now, this.counter, this.v1, this.v2, this.ledger := host, now, 0, map[], map[], ledger;
    }

    /** What the v1 record type leaves no room for: a v1 round is an auction in the global
        token, without lot, policy or reveal window, and with the fixed cap. */
    ghost predicate Valid()
      reads this
    {
      forall id :: id in v1 ==>
        var r := v1[id].round;
        && r.mode == Auction && r.paymentAsset == Some(host.usdc) && r.lotAsset == None
        && r.maxParticipants == MAX_BIDDERS && v1[id].policy == None && v1[id].window == None
    }

    /** The storage as one value. */
    ghost function View(): State
      reads this
    {
      State(now, counter, v1, v2, ledger)
    }

    function Records(f: Family): map<nat, Cell>
      reads this
    {
      if f == V1 then v1 else v2
    }

    /** What the storage and the outcome of a call must be. */
    twostate predicate Does(call: Call, auth: set<Address>, out: Outcome)
      reads this
    {
      var r := Step(host, old(View()), Event(auth, call));
      View() == r.state && out == r.outcome && Valid()
    }

    /** `token.transfer`. */
    method Pay(m: Move) returns (ok: bool)
      modifies this`ledger
      ensures ok <==> Transfer(old(ledger), m).Some?
      ensures ledger == if ok then Transfer(old(ledger), m).value else old(ledger)
    {
      if m.amount < 0 || Balance(ledger, m.token, m.from) < m.amount {
        return false;
      }
      ledger := ledger[(m.token, m.from) := Balance(ledger, m.token, m.from) - m.amount];
      ledger := ledger[(m.token, m.to) := Balance(ledger, m.token, m.to) + m.amount];
      return true;
    }

    method Put(f: Family, id: nat, c: Cell)
      modifies this`v1, this`v2
      ensures View() == Store(old(View()), f, id, c)
    {
      if f == V1 {
        v1 := v1[id := c];
      } else {
        v2 := v2[id := c];
      }
    }

    /** The host undoes everything a failed call has written. */
    method Undo(v1: map<nat, Cell>, v2: map<nat, Cell>, ledger: Ledger)
      modifies this`v1, this`v2, this`ledger
      ensures View() == old(View()).(v1 := v1, v2 := v2, ledger := ledger)
    {
      this.v1, this.v2, this.ledger := v1, v2, ledger;
    }

    // ---- Creation ----

    method CreateRound(auth: set<Address>, t: Terms) returns (out: Outcome)
      requires Valid()
      modifies this
      ensures Does(CreateV1(t), auth, out)
    {
      if t.operator !in auth {
        return Trap;
      }
      if t.revealRound == 0 {
        return Fail(InvalidAmount);
      }
      if |t.auditorPubkey| > MAX_AUDITOR_PUBKEY {
        return Fail(PayloadTooLarge);
      }
      var tReveal := TimeOfRound(host, t.revealRound);
      if t.commitDeadline >= tReveal {
        return Fail(CommitDeadlineAfterReveal);
      }
      if t.revealDeadline <= tReveal {
        return Fail(CommitDeadlineAfterReveal);
      }
      if t.commitDeadline <= now {
        return Fail(DeadlineInPast);
      }
      if counter == U64_MAX {
        return Trap;
      }
      counter := counter + 1;
      v1 := v1[counter := Cell(
        Round(1, Auction, t.operator, t.itemRef, ZeroDigest(), Some(host.usdc), None, 0, t.revealRound, t.rule, t.commitDeadline,
              t.revealDeadline, t.auditorPubkey, MAX_BIDDERS, Open, [], None, 0), map[], None, None)];
      return Done(Id(counter));
    }

    /** The checks of `create_round_v2_impl`, in the order of the source. */
    method CheckTerms(t: Terms, policy: Option<Policy>) returns (refusal: Option<Error>)
      ensures refusal == CreateV2Refusal(host, now, t, policy)
    {
      if t.revealRound == 0 {
        return Some(InvalidAmount);
      }
      if t.maxParticipants == 0 || t.maxParticipants > MAX_V2_PARTICIPANTS {
        return Some(InvalidLimit);
      }
      if |t.auditorPubkey| > MAX_AUDITOR_PUBKEY {
        return Some(PayloadTooLarge);
      }
      var tReveal := TimeOfRound(host, t.revealRound);
      if t.commitDeadline >= tReveal || t.revealDeadline <= tReveal {
        return Some(CommitDeadlineAfterReveal);
      }
      if t.commitDeadline <= now {
        return Some(DeadlineInPast);
      }
      if SatSub(t.revealDeadline, now) > MAX_ROUND_DURATION_SECS {
        return Some(RoundDurationTooLong);
      }
      match t.mode {
        case Auction =>
          if t.paymentAsset.None? || t.lotAsset.None? || t.lotAmount <= 0 {
            return Some(InvalidAmount);
          }
        case ReceiptOnly =>
          if t.paymentAsset.Some? || t.lotAsset.Some? || t.lotAmount != 0 {
            return Some(EscrowNotAllowed);
          }
      }
      if policy.Some? {
        var p := policy.value;
        if t.mode == Auction && p.fixedEscrow <= 0 {
          return Some(InvalidAmount);
        }
        if t.mode == ReceiptOnly && p.fixedEscrow != 0 {
          return Some(EscrowNotAllowed);
        }
        if |p.eligible| > t.maxParticipants {
          return Some(InvalidLimit);
        }
        var repeats := HasRepeats(p.eligible);
        if repeats {
          return Some(InvalidLimit);
        }
      }
      return None;
    }

    method CreateRoundV2(auth: set<Address>, t: Terms, policy: Option<Policy>) returns (out: Outcome)
      requires Valid()
      modifies this
      ensures Does(CreateV2(t, policy), auth, out)
      ensures out.Done? ==> counter in v2
    {
      hide CreateV2Refusal, TransferAll;
      if t.operator !in auth {
        return Trap;
      }
      var refusal := CheckTerms(t, policy);
      if refusal.Some? {
        return Fail(refusal.value);
      }
      var ledgerBefore := ledger;
      TransferNothing(ledger);
      if t.lotAsset.Some? {
        var lot := Move(counter + 1, t.lotAsset.value, t.operator, host.self, t.lotAmount);
        TransferOne(ledger, lot);
        var paid := Pay(lot);
        if !paid {
          return Trap;
        }
      }
      if counter == U64_MAX {
        Undo(v1, v2, ledgerBefore);
        return Trap;
      }
      counter := counter + 1;
      v2 := v2[counter := Cell(NewRoundV2(t), map[], policy, None)];
      return Done(Id(counter));
    }

    method CreateRoundV3(auth: set<Address>, t: Terms, policy: Policy, opening: RevealPolicy) returns (out: Outcome)
      requires Valid()
      modifies this
      ensures Does(CreateV3(t, policy, opening), auth, out)
    {
      if opening.OwnerTriggered? {
        if opening.fallbackAt <= TimeOfRound(host, t.revealRound)
           || SatSub(t.revealDeadline, opening.fallbackAt) < MIN_REVEAL_WINDOW {
          CreateV3Refused(host, View(), auth, t, policy, opening);
          return Fail(InvalidRevealPolicy);
        }
      }
      hide CreateV2Attempt, Step, ConcludeCreate;
      out := CreateRoundV2(auth, t, Some(policy));
      CreateV3FromV2(host, old(View()), auth, t, policy, opening);
      if out.Done? {
        var c := v2[counter];
        v2 := v2[counter := c.(round := c.round.(version := 3), window := Some(RevealState(opening, None)))];
      }
    }

    // ---- Commit ----

    /** The escrow exchange of a commit: the previous escrow back, then the new one in. */
    method ExchangeEscrow(id: nat, c: Cell, bidder: Address, escrow: int) returns (ok: bool)
      requires c.round.paymentAsset.None? ==> escrow <= 0 && (bidder in c.subs ==> c.subs[bidder].escrow <= 0)
      modifies this`ledger
      ensures var moved := TransferAll(old(ledger), EscrowBack(host, id, c, bidder) + EscrowIn(host, id, c, bidder, escrow));
              (ok <==> moved.Some?) && (ok ==> ledger == moved.value)
    {
      ghost var back, paid := EscrowBack(host, id, c, bidder), EscrowIn(host, id, c, bidder, escrow);
      TransferAllAppend(ledger, back, paid);
      TransferNothing(ledger);
      ok := true;
      if bidder in c.subs && c.subs[bidder].escrow > 0 {
        var refund := Move(id, c.round.paymentAsset.value, host.self, bidder, c.subs[bidder].escrow);
        TransferOne(ledger, refund);
        ok := Pay(refund);
        if !ok {
          return;
        }
      }
      TransferNothing(ledger);
      if escrow > 0 {
        var deposit := Move(id, c.round.paymentAsset.value, bidder, host.self, escrow);
        TransferOne(ledger, deposit);
        ok := Pay(deposit);
      }
    }

    /** The checks of v1 `commit`. */
    method CheckCommit(c: Cell, op: Op) returns (refusal: Option<Error>)
      requires op.Commit?
      requires c.round.mode == Auction && c.round.maxParticipants == MAX_BIDDERS && c.round.paymentAsset.Some?
      ensures refusal == CommitRefusal(V1, c, now, op)
    {
      if c.round.status == Voided {
        return Some(RoundVoided);
      }
      if c.round.status == Settled {
        return Some(AlreadySettled);
      }
      if c.round.status != Open {
        return Some(WrongStatus);
      }
      if now > c.round.commitDeadline {
        return Some(CommitClosed);
      }
      if op.escrow <= 0 {
        return Some(InvalidAmount);
      }
      if |op.ciphertext| > MAX_CIPHERTEXT || |op.auditorBlob| > MAX_AUDITOR_BLOB {
        return Some(PayloadTooLarge);
      }
      if op.bidder !in c.subs && |c.round.bidders| >= MAX_BIDDERS {
        return Some(RoundFull);
      }
      return None;
    }

    /** The checks of `commit_v2`. */
    method CheckCommitV2(c: Cell, op: Op) returns (refusal: Option<Error>)
      requires op.Commit?
      ensures refusal == CommitRefusal(V2, c, now, op)
    {
      if c.round.version != 2 && c.round.version != 3 {
        return Some(Error.UnsupportedVersion);
      }
      if c.round.status == Voided {
        return Some(RoundVoided);
      }
      if c.round.status == Settled {
        return Some(AlreadySettled);
      }
      if c.round.status != Open {
        return Some(WrongStatus);
      }
      if now > c.round.commitDeadline {
        return Some(CommitClosed);
      }
      if c.round.mode == Auction && op.escrow <= 0 {
        return Some(InvalidAmount);
      }
      if c.round.mode == ReceiptOnly && op.escrow != 0 {
        return Some(EscrowNotAllowed);
      }
      if c.policy.Some? {
        var listed := IsListed(c.policy.value.eligible, op.bidder);
        if !listed {
          return Some(ParticipantNotEligible);
        }
        if c.round.mode == Auction && op.escrow != c.policy.value.fixedEscrow {
          return Some(EscrowPolicyMismatch);
        }
      }
      if |op.ciphertext| > MAX_CIPHERTEXT || |op.auditorBlob| > MAX_AUDITOR_BLOB {
        return Some(PayloadTooLarge);
      }
      if op.bidder in c.subs {
        if c.subs[op.bidder].escrow > 0 && c.round.paymentAsset.None? {
          return Some(InvalidAmount);
        }
      } else if |c.round.bidders| >= c.round.maxParticipants {
        return Some(RoundFull);
      }
      if op.escrow > 0 && c.round.paymentAsset.None? {
        return Some(InvalidAmount);
      }
      return None;
    }

    /** What both commits do once the checks have passed: exchange the escrow, put a new
        bidder at the end of the index, store a fresh submission. */
    method PlaceBid(f: Family, id: nat, op: Op) returns (out: Outcome)
      requires Valid() && id in Records(f) && op.Commit?
      requires CommitRefusal(f, Records(f)[id], now, op) == None
      modifies this
      ensures Valid()
      ensures var r := Conclude(old(View()), f, id, CommitAttempt(host, f, id, old(Records(f)[id]), old(now), op));
              View() == r.state && out == r.outcome
    {
      hide TransferAll, CommitRefusal;
      var c := Records(f)[id];
      var ledgerBefore := ledger;
      EscrowNeedsAsset(f, c, now, op);
      var moved := ExchangeEscrow(id, c, op.bidder, op.escrow);
      if !moved {
        Undo(v1, v2, ledgerBefore);
        return Trap;
      }
      if op.bidder !in c.subs {
        c := c.(round := c.round.(bidders := c.round.bidders + [op.bidder]));
      }
      Put(f, id, c.(subs := c.subs[op.bidder := Submission(op.commitment, op.escrow, None, None, false, false)]));
      return Done(Unit);
    }

    method Commit(auth: set<Address>, id: nat, bidder: Address, commitment: Digest, ciphertext: Bytes, escrow: I128,
                  auditorBlob: Bytes)
      returns (out: Outcome)
      requires Valid()
      modifies this
      ensures Does(OnRound(V1, id, Op.Commit(bidder, commitment, ciphertext, escrow, auditorBlob)), auth, out)
    {
      hide Conclude, CommitRefusal, CommitAttempt;
      var op := Op.Commit(bidder, commitment, ciphertext, escrow, auditorBlob);
      if bidder !in auth {
        return Trap;
      }
      if id !in v1 {
        return Fail(RoundNotFound);
      }
      StepOnRound(host, View(), V1, id, auth, op);
      var refusal := CheckCommit(v1[id], op);
      if refusal.Some? {
        ConcludeCommitRefused(host, View(), V1, id, v1[id], now, op);
        return Fail(refusal.value);
      }
      out := PlaceBid(V1, id, op);
    }

    method CommitV2(auth: set<Address>, id: nat, bidder: Address, commitment: Digest, ciphertext: Bytes, escrow: I128,
                    auditorBlob: Bytes)
      returns (out: Outcome)
      requires Valid()
      modifies this
      ensures Does(OnRound(V2, id, Op.Commit(bidder, commitment, ciphertext, escrow, auditorBlob)), auth, out)
    {
      hide Conclude, CommitRefusal, CommitAttempt;
      var op := Op.Commit(bidder, commitment, ciphertext, escrow, auditorBlob);
      if bidder !in auth {
        return Trap;
      }
      if id !in v2 {
        return Fail(RoundNotFound);
      }
      StepOnRound(host, View(), V2, id, auth, op);
      var refusal := CheckCommitV2(v2[id], op);
      if refusal.Some? {
        ConcludeCommitRefused(host, View(), V2, id, v2[id], now, op);
        return Fail(refusal.value);
      }
      out := PlaceBid(V2, id, op);
    }

    // ---- Opening and revealing ----

    method OpenReveal(auth: set<Address>, id: nat, signature: Bytes) returns (out: Outcome)
      requires Valid()
      modifies this
      ensures Does(OnRound(V1, id, Op.OpenReveal(signature)), auth, out)
    {
      if id !in v1 {
        return Fail(RoundNotFound);
      }
      var c := v1[id];
      if c.round.status == Settled {
        return Fail(AlreadySettled);
      }
      if c.round.status == Voided {
        return Fail(RoundVoided);
      }
      if c.round.status == Cleared {
        return Fail(AlreadyCleared);
      }
      if c.round.status != Open {
        return Fail(RevealAlreadyOpen);
      }
      if now <= c.round.commitDeadline {
        return Fail(CommitNotClosed);
      }
      if !host.drand(c.round.revealRound, signature) {
        return Fail(InvalidDrandSignature);
      }
      TransferNothing(ledger);
      v1 := v1[id := c.(round := c.round.(status := Revealing))];
      return Done(Unit);
    }

    method OpenRevealV2(auth: set<Address>, id: nat, signature: Bytes) returns (out: Outcome)
      requires Valid()
      modifies this
      ensures Does(OnRound(V2, id, Op.OpenReveal(signature)), auth, out)
    {
      if id !in v2 {
        return Fail(RoundNotFound);
      }
      var c := v2[id];
      if c.round.status == Settled {
        return Fail(AlreadySettled);
      }
      if c.round.status == Voided {
        return Fail(RoundVoided);
      }
      if c.round.status == Cleared {
        return Fail(AlreadyCleared);
      }
      if c.round.status != Open {
        return Fail(RevealAlreadyOpen);
      }
      if now <= c.round.commitDeadline {
        return Fail(CommitNotClosed);
      }
      var window := None;
      if c.round.version == 3 {
        if c.window.None? {
          return Fail(RevealPolicyMissing);
        }
        if now < TimeOfRound(host, c.round.revealRound) {
          return Fail(CommitNotClosed);
        }
        if now > c.round.revealDeadline {
          return Fail(RevealWindowClosed);
        }
        if c.window.value.policy.OwnerTriggered? {
          if now < c.window.value.policy.fallbackAt && c.round.operator !in auth {
            return Trap;
          }
        }
        window := c.window;
      }
      if !host.drand(c.round.revealRound, signature) {
        return Fail(InvalidDrandSignature);
      }
      TransferNothing(ledger);
      if window.Some? {
        c := c.(window := Some(window.value.(openedAt := Some(now))));
      }
      v2 := v2[id := c.(round := c.round.(status := Revealing))];
      return Done(Unit);
    }

    method Reveal(auth: set<Address>, id: nat, bidder: Address, value: I128, nonce: Bytes) returns (out: Outcome)
      requires Valid() && |nonce| == NONCE_BYTES
      modifies this
      ensures Does(OnRound(V1, id, RevealBid(bidder, value, nonce)), auth, out)
    {
      if id !in v1 {
        return Fail(RoundNotFound);
      }
      var c := v1[id];
      if c.round.status == Settled {
        return Fail(AlreadySettled);
      }
      if c.round.status == Voided {
        return Fail(RoundVoided);
      }
      if c.round.status != Revealing {
        return Fail(RevealNotOpen);
      }
      if now > c.round.revealDeadline {
        return Fail(RevealWindowClosed);
      }
      if bidder !in c.subs {
        return Fail(BidNotFound);
      }
      var state := c.subs[bidder];
      if state.opening.Some? {
        return Fail(AlreadyRevealed);
      }
      var encoded := I128ToBeBytes(value);
      var preimage := encoded.value + nonce;
      if host.sha(preimage) != state.commitment {
        return Fail(HashMismatch);
      }
      if value > state.escrow {
        return Fail(BidExceedsEscrow);
      }
      TransferNothing(ledger);
      state := state.(opening := Some(preimage), amount := Some(value), valid := value > 0);
      v1 := v1[id := c.(subs := c.subs[bidder := state])];
      return Done(Unit);
    }

    method RevealV2(auth: set<Address>, id: nat, bidder: Address, envelope: Bytes) returns (out: Outcome)
      requires Valid() && |envelope| <= U32_MAX
      modifies this
      ensures Does(OnRound(V2, id, Op.RevealEnvelope(bidder, envelope)), auth, out)
    {
      if id !in v2 {
        return Fail(RoundNotFound);
      }
      var c := v2[id];
      if c.round.status == Settled {
        return Fail(AlreadySettled);
      }
      if c.round.status == Voided {
        return Fail(RoundVoided);
      }
      if c.round.status != Revealing {
        return Fail(RevealNotOpen);
      }
      if now > c.round.revealDeadline {
        return Fail(RevealWindowClosed);
      }
      if bidder !in c.subs {
        return Fail(BidNotFound);
      }
      var state := c.subs[bidder];
      if state.opening.Some? {
        return Fail(AlreadyRevealed);
      }
      if host.sha(envelope) != state.commitment {
        return Fail(HashMismatch);
      }
      var decoded := DecodeEnvelope(envelope);
      if decoded.Err? {
        return Fail(EnvelopeError(decoded.error));
      }
      var amount := decoded.value;
      match c.round.mode {
        case Auction =>
          if amount.None? {
            return Fail(Error.MalformedPayload);
          }
          if amount.value <= 0 {
            return Fail(InvalidAmount);
          }
          if amount.value > state.escrow {
            return Fail(BidExceedsEscrow);
          }
        case ReceiptOnly =>
          if state.escrow != 0 {
            return Fail(EscrowNotAllowed);
          }
      }
      TransferNothing(ledger);
      state := state.(amount := amount, opening := Some(envelope), valid := true);
      v2 := v2[id := c.(subs := c.subs[bidder := state])];
      return Done(Unit);
    }

    // ---- Payouts ----

    /** One iteration's transfers: the price and the surplus for the winner, the escrow back
        for anybody else. */
    method SettleOne(id: nat, c: Cell, winner: Address, k: nat) returns (ok: bool)
      requires k < |c.round.bidders| && Pays(c, k) && c.round.paymentAsset.Some?
      modifies this`ledger
      ensures var moved := TransferAll(old(ledger), SettleShare(host, id, c, winner, k));
              (ok <==> moved.Some?) && (ok ==> ledger == moved.value)
    {
      hide TransferAll;
      var asset := c.round.paymentAsset.value;
      var b := c.round.bidders[k];
      var escrow := c.subs[b].escrow;
      ghost var before := ledger;
      TransferNothing(before);
      ok := true;
      if b == winner {
        var price := Move(id, asset, host.self, c.round.operator, c.round.winningBid);
        var rest := Move(id, asset, host.self, b, escrow - c.round.winningBid);
        TransferOne(before, price);
        TransferAllSnoc(before, [price], rest);
        assert [price] + [] == [price];
        ok := Pay(price);
        if ok && escrow - c.round.winningBid > 0 {
          ok := Pay(rest);
        }
      } else if escrow > 0 {
        var refund := Move(id, asset, host.self, b, escrow);
        TransferOne(before, refund);
        ok := Pay(refund);
      }
    }

    /** The settle loop over the bidder index, shared by `settle` and `settle_v2`. */
    method SettleBidders(f: Family, id: nat, winner: Address) returns (ok: bool)
      requires id in Records(f) && Records(f)[id].round.paymentAsset.Some?
      modifies this`v1, this`v2, this`ledger
      ensures var c := old(Records(f)[id]);
              var moved := TransferAll(old(ledger), SettleMoves(host, id, c, winner, |c.round.bidders|));
              && (ok <==> moved.Some?)
              && (ok ==> View() == Store(old(View()).(ledger := moved.value), f, id,
                                         c.(subs := MarkSettled(c.subs, c.round.bidders, false))))
    {
      hide TransferAll, MarkSettled, SettleShare;
      var c := Records(f)[id];
      var n := |c.round.bidders|;
      var state := c;
      var i := 0;
      TransferNothing(ledger);
      MarkNobody(c.subs, false);
      assert c.round.bidders[..0] == [] && c.round.bidders[..n] == c.round.bidders;
      assert Records(f)[id := c] == Records(f);
      while i < n
        invariant 0 <= i <= n
        invariant TransferAll(old(ledger), SettleMoves(host, id, c, winner, i)) == Some(ledger)
        invariant state == c.(subs := MarkSettled(c.subs, c.round.bidders[..i], false))
        invariant Records(f) == old(Records(f))[id := state]
        invariant View() == Store(old(View()).(ledger := ledger), f, id, state)
      {
        var b := c.round.bidders[i];
        ghost var front, share := SettleMoves(host, id, c, winner, i), SettleShare(host, id, c, winner, i);
        MarkOneMore(c.subs, c.round.bidders, i, false);
        MarkedAt(c.subs, c.round.bidders[..i], false, b);
        TransferAllAppend(old(ledger), front, share);
        TransferNothing(ledger);
        UnpaidShare(host, id, c, winner, i);
        i := i + 1;
        if b !in state.subs {
          continue;
        }
        var sub := state.subs[b];
        if sub.settled {
          assert sub.(settled := true) == sub && state.subs[b := sub] == state.subs;
          continue;
        }
        ok := SettleOne(id, c, winner, i - 1);
        if !ok {
          FailedSettleStaysFailed(host, old(ledger), id, c, winner, i, n);
          return;
        }
        state := state.(subs := state.subs[b := sub.(settled := true)]);
        Put(f, id, state);
      }
      ok := true;
    }

    /** The refund loop of `refund_all` and `refund_all_v2`. The v1 loop marks a submission only
        when it pays it back, the v2 loop marks every one. */
    method RefundBidders(f: Family, id: nat) returns (ok: bool)
      requires id in Records(f) && Records(f)[id].round.paymentAsset.Some?
      modifies this`v1, this`v2, this`ledger
      ensures var c := old(Records(f)[id]);
              var moved := TransferAll(old(ledger), RefundMoves(host, id, c, |c.round.bidders|));
              && (ok <==> moved.Some?)
              && (ok ==> View() == Store(old(View()).(ledger := moved.value), f, id,
                                         c.(subs := MarkSettled(c.subs, c.round.bidders, f == V1))))
    {
      hide TransferAll, MarkSettled;
      var c := Records(f)[id];
      var n := |c.round.bidders|;
      var state := c;
      var i := 0;
      TransferNothing(ledger);
      MarkNobody(c.subs, f == V1);
      assert c.round.bidders[..0] == [] && c.round.bidders[..n] == c.round.bidders;
      assert Records(f)[id := c] == Records(f);
      while i < n
        invariant 0 <= i <= n
        invariant TransferAll(old(ledger), RefundMoves(host, id, c, i)) == Some(ledger)
        invariant state == c.(subs := MarkSettled(c.subs, c.round.bidders[..i], f == V1))
        invariant Records(f) == old(Records(f))[id := state]
        invariant View() == Store(old(View()).(ledger := ledger), f, id, state)
      {
        var b := c.round.bidders[i];
        MarkOneMore(c.subs, c.round.bidders, i, f == V1);
        MarkedAt(c.subs, c.round.bidders[..i], f == V1, b);
        TransferAllAppend(old(ledger), RefundMoves(host, id, c, i), RefundShare(host, id, c, i));
        TransferNothing(ledger);
        i := i + 1;
        if b !in state.subs {
          continue;
        }
        var sub := state.subs[b];
        var owed := !sub.settled && sub.escrow > 0;
        if owed {
          var refund := Move(id, c.round.paymentAsset.value, host.self, b, sub.escrow);
          TransferOne(ledger, refund);
          ok := Pay(refund);
          if !ok {
            FailedRefundStaysFailed(host, old(ledger), id, c, i, n);
            return;
          }
        }
        if f == V2 || owed {
          state := state.(subs := state.subs[b := sub.(settled := true)]);
          Put(f, id, state);
        } else {
          assert sub.settled ==> sub.(settled := true) == sub;
          assert state.subs[b := sub] == state.subs;
        }
      }
      ok := true;
    }

    /** `refund_all` and `refund_all_v2`: the escrows, then the lot back to the operator. */
    method RefundAll(f: Family, id: nat) returns (ok: bool)
      requires id in Records(f)
      modifies this`v1, this`v2, this`ledger
      ensures var c := old(Records(f)[id]);
              var moved := TransferAll(old(ledger), RefundAllMoves(host, id, c));
              && (ok <==> moved.Some?)
              && (ok ==> View() == Store(old(View()).(ledger := moved.value), f, id,
                                         c.(subs := if c.round.paymentAsset.Some? then MarkSettled(c.subs, c.round.bidders, f == V1)
                                                    else c.subs)))
    {
      hide TransferAll, MarkSettled, RefundMoves;
      var c := Records(f)[id];
      ghost var refunds := if c.round.paymentAsset.Some? then RefundMoves(host, id, c, |c.round.bidders|) else [];
      TransferAllAppend(ledger, refunds, LotTo(host, id, c, c.round.operator));
      TransferNothing(ledger);
      assert Records(f)[id := c] == Records(f);
      ok := true;
      if c.round.paymentAsset.Some? {
        ok := RefundBidders(f, id);
        if !ok {
          return;
        }
      }
      TransferNothing(ledger);
      if c.round.lotAsset.Some? {
        var lot := Move(id, c.round.lotAsset.value, host.self, c.round.operator, c.round.lotAmount);
        TransferOne(ledger, lot);
        ok := Pay(lot);
      }
    }

    /** Setting the status to Voided and refunding, as `clear` and `void` do. */
    method VoidAndRefund(f: Family, id: nat) returns (ok: bool)
      requires id in Records(f)
      modifies this`v1, this`v2, this`ledger
      ensures var c := old(Records(f)[id]);
              var moved := TransferAll(old(ledger), RefundAllMoves(host, id, c));
              && (ok <==> moved.Some?)
              && (ok ==> View() == Store(old(View()).(ledger := moved.value), f, id, VoidedCell(f, c)))
    {
      hide TransferAll, MarkSettled, RefundMoves;
      var c := Records(f)[id];
      var voided := c.(round := c.round.(status := Voided));
      VoidedRefundsSame(host, id, c);
      Put(f, id, voided);
      ok := RefundAll(f, id);
      if ok {
        StoreTwice(old(View()), f, id, voided, VoidedCell(f, c), ledger);
      }
    }

    // ---- Clear, settle, void ----

    method Clear(auth: set<Address>, id: nat) returns (out: Outcome)
      requires Valid()
      modifies this
      ensures Does(OnRound(V1, id, Op.Clear), auth, out)
    {
      hide TransferAll, MarkSettled, Verdict, RefundAllMoves, Step;
      if id !in v1 {
        StepMissing(host, View(), V1, id, auth, Op.Clear);
        return Fail(RoundNotFound);
      }
      StepOnRound(host, View(), V1, id, auth, Op.Clear);
      var c := v1[id];
      if c.round.status == Cleared {
        return Fail(AlreadyCleared);
      }
      if c.round.status == Settled {
        return Fail(AlreadySettled);
      }
      if c.round.status == Voided {
        return Fail(RoundVoided);
      }
      if c.round.status != Revealing {
        return Fail(RevealNotOpen);
      }
      if now <= c.round.revealDeadline {
        return Fail(RevealStillOpen);
      }
      out := ClearAuction(V1, id);
    }

    /** The scan and what follows from it, the same in `clear` and `clear_v2`. */
    method ClearAuction(f: Family, id: nat) returns (out: Outcome)
      requires Valid() && id in Records(f)
      requires ClearRefusal(Records(f)[id].round, now) == None
      requires !(f == V2 && Records(f)[id].round.mode == ReceiptOnly)
      modifies this
      ensures Valid()
      ensures var r := Conclude(old(View()), f, id, ClearAttempt(host, f, id, old(Records(f)[id]), old(now)));
              View() == r.state && out == r.outcome
    {
      hide TransferAll, MarkSettled, Verdict, RefundAllMoves;
      var c := Records(f)[id];
      var v1Before, v2Before, ledgerBefore := v1, v2, ledger;
      var winner, best, found := ScanBids(c);
      if !found {
        var refunded := VoidAndRefund(f, id);
        if !refunded {
          Undo(v1Before, v2Before, ledgerBefore);
          return Trap;
        }
        return Done(Winner(None));
      }
      TransferNothing(ledger);
      Put(f, id, c.(round := c.round.(winner := winner, winningBid := best, status := Cleared)));
      return Done(Winner(winner));
    }

    method ClearV2(auth: set<Address>, id: nat) returns (out: Outcome)
      requires Valid()
      modifies this
      ensures Does(OnRound(V2, id, Op.Clear), auth, out)
    {
      hide TransferAll, MarkSettled, Verdict, RefundAllMoves, Step;
      if id !in v2 {
        StepMissing(host, View(), V2, id, auth, Op.Clear);
        return Fail(RoundNotFound);
      }
      StepOnRound(host, View(), V2, id, auth, Op.Clear);
      var c := v2[id];
      if c.round.status == Cleared {
        return Fail(AlreadyCleared);
      }
      if c.round.status == Settled {
        return Fail(AlreadySettled);
      }
      if c.round.status == Voided {
        return Fail(RoundVoided);
      }
      if c.round.status != Revealing {
        return Fail(RevealNotOpen);
      }
      if now <= c.round.revealDeadline {
        return Fail(RevealStillOpen);
      }
      if c.round.mode == ReceiptOnly {
        MarkReceipts(id);
        TransferNothing(ledger);
        v2 := v2[id := v2[id].(round := c.round.(status := Settled))];
        return Done(Winner(None));
      }
      out := ClearAuction(V2, id);
    }

    /** The receipt-only branch of `clear_v2` marks every submission settled. */
    method MarkReceipts(id: nat)
      requires id in v2
      modifies this`v2
      ensures var c := old(v2[id]);
              v2 == old(v2)[id := c.(subs := MarkSettled(c.subs, c.round.bidders, false))]
    {
      hide MarkSettled;
      var c := v2[id];
      var n := |c.round.bidders|;
      MarkNobody(c.subs, false);
      assert c.round.bidders[..0] == [] && c.round.bidders[..n] == c.round.bidders;
      assert v2[id := c] == v2;
      for i := 0 to n
        invariant v2 == old(v2)[id := c.(subs := MarkSettled(c.subs, c.round.bidders[..i], false))]
      {
        var b := c.round.bidders[i];
        MarkOneMore(c.subs, c.round.bidders, i, false);
        MarkedAt(c.subs, c.round.bidders[..i], false, b);
        var state := v2[id];
        if b in state.subs {
          v2 := v2[id := state.(subs := state.subs[b := state.subs[b].(settled := true)])];
        }
      }
    }

    method Settle(auth: set<Address>, id: nat) returns (out: Outcome)
      requires Valid()
      modifies this
      ensures Does(OnRound(V1, id, Op.Settle), auth, out)
    {
      hide TransferAll, MarkSettled, SettleMoves, Step;
      if id !in v1 {
        StepMissing(host, View(), V1, id, auth, Op.Settle);
        return Fail(RoundNotFound);
      }
      StepOnRound(host, View(), V1, id, auth, Op.Settle);
      var c := v1[id];
      if c.round.status == Settled {
        return Fail(AlreadySettled);
      }
      if c.round.status == Voided {
        return Fail(RoundVoided);
      }
      if c.round.status != Cleared {
        return Fail(NotCleared);
      }
      if c.round.winner.None? {
        return Fail(NoValidBids);
      }
      var v1Before, v2Before, ledgerBefore := v1, v2, ledger;
      TransferAllAppend(ledger, SettleMoves(host, id, c, c.round.winner.value, |c.round.bidders|), []);
      var paid := SettleBidders(V1, id, c.round.winner.value);
      TransferNothing(ledger);
      if !paid {
        Undo(v1Before, v2Before, ledgerBefore);
        return Trap;
      }
      v1 := v1[id := v1[id].(round := c.round.(status := Settled))];
      return Done(Unit);
    }

    method SettleV2(auth: set<Address>, id: nat) returns (out: Outcome)
      requires Valid()
      modifies this
      ensures Does(OnRound(V2, id, Op.Settle), auth, out)
    {
      hide TransferAll, MarkSettled, SettleMoves, Step;
      if id !in v2 {
        StepMissing(host, View(), V2, id, auth, Op.Settle);
        return Fail(RoundNotFound);
      }
      StepOnRound(host, View(), V2, id, auth, Op.Settle);
      var c := v2[id];
      if c.round.status == Settled {
        return Fail(AlreadySettled);
      }
      if c.round.status == Voided {
        return Fail(RoundVoided);
      }
      if c.round.mode != Auction || c.round.status != Cleared {
        return Fail(NotCleared);
      }
      if c.round.winner.None? {
        return Fail(NoValidBids);
      }
      if c.round.paymentAsset.None? {
        return Fail(InvalidAmount);
      }
      var winner := c.round.winner.value;
      var v1Before, v2Before, ledgerBefore := v1, v2, ledger;
      // The source tests this after the loop; either way nothing of the call remains.
      if c.round.lotAsset.None? {
        return Fail(InvalidAmount);
      }
      TransferAllAppend(ledger, SettleMoves(host, id, c, winner, |c.round.bidders|), LotTo(host, id, c, winner));
      var paid := SettleBidders(V2, id, winner);
      if !paid {
        Undo(v1Before, v2Before, ledgerBefore);
        return Trap;
      }
      var lot := Move(id, c.round.lotAsset.value, host.self, winner, c.round.lotAmount);
      TransferOne(ledger, lot);
      paid := Pay(lot);
      if !paid {
        Undo(v1Before, v2Before, ledgerBefore);
        return Trap;
      }
      v2 := v2[id := v2[id].(round := c.round.(status := Settled))];
      return Done(Unit);
    }

    method Void(auth: set<Address>, id: nat) returns (out: Outcome)
      requires Valid()
      modifies this
      ensures Does(OnRound(V1, id, Op.Void), auth, out)
    {
      hide TransferAll, MarkSettled, RefundAllMoves, Step;
      if id !in v1 {
        StepMissing(host, View(), V1, id, auth, Op.Void);
        return Fail(RoundNotFound);
      }
      StepOnRound(host, View(), V1, id, auth, Op.Void);
      var c := v1[id];
      if c.round.status == Voided {
        return Fail(RoundVoided);
      }
      if c.round.status == Settled {
        return Fail(AlreadySettled);
      }
      if c.round.status != Open {
        return Fail(NotVoidable);
      }
      if c.round.revealDeadline + VOID_GRACE > U64_MAX {
        return Trap;
      }
      if now <= c.round.revealDeadline + VOID_GRACE {
        return Fail(NotVoidable);
      }
      var v1Before, v2Before, ledgerBefore := v1, v2, ledger;
      var refunded := VoidAndRefund(V1, id);
      if !refunded {
        Undo(v1Before, v2Before, ledgerBefore);
        return Trap;
      }
      return Done(Unit);
    }

    method VoidV2(auth: set<Address>, id: nat) returns (out: Outcome)
      requires Valid()
      modifies this
      ensures Does(OnRound(V2, id, Op.Void), auth, out)
    {
      hide TransferAll, MarkSettled, RefundAllMoves, Step;
      if id !in v2 {
        StepMissing(host, View(), V2, id, auth, Op.Void);
        return Fail(RoundNotFound);
      }
      StepOnRound(host, View(), V2, id, auth, Op.Void);
      var c := v2[id];
      if c.round.status == Voided {
        return Fail(RoundVoided);
      }
      if c.round.status == Settled {
        return Fail(AlreadySettled);
      }
      if c.round.status != Open || now <= SatAdd(c.round.revealDeadline, VOID_GRACE) {
        return Fail(NotVoidable);
      }
      var v1Before, v2Before, ledgerBefore := v1, v2, ledger;
      var refunded := VoidAndRefund(V2, id);
      if !refunded {
        Undo(v1Before, v2Before, ledgerBefore);
        return Trap;
      }
      return Done(Unit);
    }

    // ---- The environment, and whole runs ----

    /** The ledger clock moves forward. */
    method Tick(to: U64)
      requires Valid()
      modifies this`now
      ensures Does(Advance(to), {}, Done(Unit))
    {
      if to > now {
        now := to;
      }
    }

    /** Somebody else's token transfer, possibly a gift to the contract. */
    method Elsewhere(token: Asset, sender: Address, recipient: Address, amount: int) returns (out: Outcome)
      requires Valid()
      modifies this`ledger
      ensures Does(Outside(token, sender, recipient, amount), {}, out)
    {
      var paid := Pay(Move(0, token, sender, recipient, amount));
      return if paid then Done(Unit) else Trap;
    }

    /** One call of a run, dispatched to its entry point. A reveal entry point called with the
        other family's round id does not exist. */
    method Perform(e: Event) returns (out: Outcome)
      requires Valid() && Honest(host, e)
      requires e.call.OnRound? && e.call.op.RevealBid? ==> e.call.family == V1
      requires e.call.OnRound? && e.call.op.RevealEnvelope? ==> e.call.family == V2
      modifies this
      ensures Does(e.call, e.auth, out)
    {
      hide Step;
      match e.call {
        case CreateV1(t) => out := CreateRound(e.auth, t);
        case CreateV2(t, policy) => out := CreateRoundV2(e.auth, t, policy);
        case CreateV3(t, policy, opening) => out := CreateRoundV3(e.auth, t, policy, opening);
        case Advance(to) =>
          AuthIsIrrelevant(host, View(), e);
          Tick(to);
          out := Done(Unit);
        case Outside(token, sender, recipient, amount) =>
          AuthIsIrrelevant(host, View(), e);
          out := Elsewhere(token, sender, recipient, amount);
        case OnRound(f, id, op) =>
          match op {
            case Commit(b, commitment, ciphertext, escrow, blob) =>
              if f == V1 {
                out := Commit(e.auth, id, b, commitment, ciphertext, escrow, blob);
              } else {
                out := CommitV2(e.auth, id, b, commitment, ciphertext, escrow, blob);
              }
            case OpenReveal(signature) =>
              if f == V1 {
                out := OpenReveal(e.auth, id, signature);
              } else {
                out := OpenRevealV2(e.auth, id, signature);
              }
            case RevealBid(b, value, nonce) => out := Reveal(e.auth, id, b, value, nonce);
            case RevealEnvelope(b, envelope) => out := RevealV2(e.auth, id, b, envelope);
            case Clear =>
              if f == V1 {
                out := Clear(e.auth, id);
              } else {
                out := ClearV2(e.auth, id);
              }
            case Settle =>
              if f == V1 {
                out := Settle(e.auth, id);
              } else {
                out := SettleV2(e.auth, id);
              }
            case Void =>
              if f == V1 {
                out := Void(e.auth, id);
              } else {
                out := VoidV2(e.auth, id);
              }
          }
      }
    }

    /** A whole run of calls, one after the other. */
    method PerformAll(es: seq<Event>)
      requires Valid() && AllHonest(host, es) && AllCallable(es)
      modifies this
      ensures Valid() && View() == Run(host, old(View()), es)
    {
      hide Step;
      for i := 0 to |es|
        invariant Valid() && View() == Run(host, old(View()), es[..i])
      {
        assert es[..i + 1][..i] == es[..i];
        var out := Perform(es[i]);
      }
      assert es[..|es|] == es;
    }
  }

  /** Every event is a call of an entry point that exists. */
  predicate AllCallable(es: seq<Event>) {
    forall k :: 0 <= k < |es| ==>
      && (es[k].call.OnRound? && es[k].call.op.RevealBid? ==> es[k].call.family == V1)
      && (es[k].call.OnRound? && es[k].call.op.RevealEnvelope? ==> es[k].call.family == V2)
  }

  lemma AuthIsIrrelevant(h: Host, s: State, e: Event)
    requires e.call.Advance? || e.call.Outside?
    ensures Step(h, s, e) == Step(h, s, Event({}, e.call))
  {
  }

  lemma StepMissing(h: Host, s: State, f: Family, id: nat, auth: set<Address>, op: Op)
    requires id !in Cells(s, f) && !op.Commit?
    ensures Step(h, s, Event(auth, OnRound(f, id, op))) == StepResult(s, Fail(RoundNotFound), [])
  {
  }

  lemma StoreTwice(s: State, f: Family, id: nat, c: Cell, d: Cell, l: Ledger)
    ensures Store(Store(s, f, id, c).(ledger := l), f, id, d) == Store(s.(ledger := l), f, id, d)
  {
    assert s.v1[id := c][id := d] == s.v1[id := d];
    assert s.v2[id := c][id := d] == s.v2[id := d];
  }

  lemma VoidedRefundsSame(h: Host, id: nat, c: Cell)
    ensures RefundAllMoves(h, id, c.(round := c.round.(status := Voided))) == RefundAllMoves(h, id, c)
  {
    if c.round.paymentAsset.Some? {
      VoidedRefundMovesSame(h, id, c, |c.round.bidders|);
    }
  }

  lemma {:induction false} VoidedRefundMovesSame(h: Host, id: nat, c: Cell, n: nat)
    requires c.round.paymentAsset.Some? && n <= |c.round.bidders|
    ensures RefundMoves(h, id, c.(round := c.round.(status := Voided)), n) == RefundMoves(h, id, c, n)
  {
    if n > 0 {
      VoidedRefundMovesSame(h, id, c, n - 1);
    }
  }

  lemma UnpaidShare(h: Host, id: nat, c: Cell, winner: Address, k: nat)
    requires c.round.paymentAsset.Some? && k < |c.round.bidders|
    ensures !Pays(c, k) ==> SettleShare(h, id, c, winner, k) == []
  {
  }

  lemma MarkedAt(subs: map<Address, Submission>, who: seq<Address>, onlyEscrowed: bool, b: Address)
    ensures var done := MarkSettled(subs, who, onlyEscrowed);
            && (b in done <==> b in subs)
            && (b in subs ==> done[b] == if b in who && (onlyEscrowed ==> subs[b].escrow > 0)
                                         then subs[b].(settled := true) else subs[b])
  {
  }
}
