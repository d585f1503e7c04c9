/** Settlement cannot fail, and no round gets stuck. */
module Exits {
  import opened Base
  import opened Optimum
  import opened Tokens
  import opened Rounds
  import opened Clearing
  import opened Rules
  import opened Invariants
  import opened Payouts
  import opened Machine

  lemma {:induction false} EscrowSumIsCovered(h: Host, f: Family, c: Cell, n: nat)
    requires CellInv(h, f, c) && n <= |c.round.bidders|
    ensures EscrowSum(c, n) >= 0
  {
    if n > 0 {
      EscrowSumIsCovered(h, f, c, n - 1);
    }
  }

  lemma HeldIsNonnegative(h: Host, f: Family, c: Cell, token: Asset)
    requires CellInv(h, f, c)
    ensures Held(c, token) >= 0
  {
    EscrowSumIsCovered(h, f, c, |c.round.bidders|);
  }

  lemma HeldAtIsNonnegative(h: Host, s: State, id: nat, token: Asset)
    requires StateInv(h, s)
    ensures PositionAt(h, s, id, token, h.self) >= 0
  {
    hide CellInv, Held;
    if id in s.v1 {
      HeldIsNonnegative(h, V1, s.v1[id], token);
    } else if id in s.v2 {
      HeldIsNonnegative(h, V2, s.v2[id], token);
    }
  }

  lemma {:induction false} HeldCoversEach(h: Host, s: State, id: nat, token: Asset, n: nat)
    requires StateInv(h, s) && 0 < id <= n
    ensures HeldUpTo(h, s, token, n) >= PositionAt(h, s, id, token, h.self)
    ensures n > 1 && id != n ==> HeldUpTo(h, s, token, n - 1) >= 0
  {
    hide CellInv, PositionAt;
    HeldAtIsNonnegative(h, s, n, token);
    if id < n {
      HeldCoversEach(h, s, id, token, n - 1);
      HeldAtIsNonnegative(h, s, id, token);
    } else {
      HeldUpToIsNonnegative(h, s, token, n - 1);
    }
  }

  lemma {:induction false} HeldUpToIsNonnegative(h: Host, s: State, token: Asset, n: nat)
    requires StateInv(h, s)
    ensures HeldUpTo(h, s, token, n) >= 0
  {
    if n > 0 {
      hide CellInv, PositionAt;
      HeldUpToIsNonnegative(h, s, token, n - 1);
      HeldAtIsNonnegative(h, s, n, token);
    }
  }

  /** In a solvent state the contract can cover every payout that stays within what it holds
      for the paying round. */
  lemma PayoutsAreCovered(h: Host, s: State, f: Family, id: nat, d: Cell, ms: seq<Move>)
    requires StateInv(h, s) && Solvent(h, s) && id in Cells(s, f) && CellInv(h, f, d)
    requires PaidOutBy(ms, h.self)
    requires forall token :: Accounts(h, id, Cells(s, f)[id], d, ms, token, h.self)
    ensures TransferAll(s.ledger, ms).Some?
  {
    var c := Cells(s, f)[id];
    forall token ensures Balance(s.ledger, token, h.self) + Net(ms, token, h.self) >= 0 {
      hide CellInv, Net, Held, HeldUpTo;
      assert Accounts(h, id, c, d, ms, token, h.self);
      HeldIsNonnegative(h, f, d, token);
      assert Surplus(h, s, token) >= 0;
      HeldCoversEach(h, s, id, token, s.counter);
      assert PositionAt(h, s, id, token, h.self) == Held(c, token);
    }
    CoveredPayoutsSucceed(s.ledger, ms, h.self);
  }

  lemma {:induction false} PrefixesSucceed(l: Ledger, ms: seq<Move>, n: nat)
    requires TransferAll(l, ms).Some? && n <= |ms|
    ensures TransferAll(l, ms[..n]).Some?
    decreases |ms|
  {
    if n < |ms| {
      PrefixesSucceed(l, ms[..|ms| - 1], n);
      assert ms[..|ms| - 1][..n] == ms[..n];
    } else {
      assert ms[..n] == ms;
    }
  }

  function CallOn(f: Family, id: nat, op: Op): Event {
    Event({}, OnRound(f, id, op))
  }

  /** What a successful closing call leaves behind: the round is final and the contract holds
      nothing for it any more; no other round is touched. */
  ghost predicate Closed(h: Host, s: State, t: State, f: Family, id: nat) {
    && id in Cells(t, f) && Terminal(Cells(t, f)[id].round)
    && (forall token :: PositionAt(h, t, id, token, h.self) == 0)
    && (forall other :: other != id ==> At(t, other) == At(s, other))
    && t.now == s.now && t.counter == s.counter
  }

  lemma ConcludeCloses(h: Host, s: State, f: Family, id: nat, a: Attempt)
    requires StateInv(h, s) && id in Cells(s, f)
    requires a.Go? && Terminal(a.cell.round) && TransferAll(s.ledger, a.moves).Some?
    ensures var r := Conclude(s, f, id, a);
            r.outcome == Done(a.value) && Closed(h, s, r.state, f, id) && Cells(r.state, f)[id] == a.cell
  {
    hide CellInv, TransferAll, EscrowSum;
  }

  lemma SettlementIsCovered(h: Host, s: State, f: Family, id: nat)
    requires StateInv(h, s) && Solvent(h, s)
    requires id in Cells(s, f) && Cells(s, f)[id].round.status == Cleared
    ensures var a := SettleAttempt(h, f, id, Cells(s, f)[id]);
            a.Go? && TransferAll(s.ledger, a.moves).Some?
  {
    var c := Cells(s, f)[id];
    var a := SettleAttempt(h, f, id, c);
    SettleKeeps(h, f, id, c);
    ClearedSettles(h, f, id, c);
    hide CellInv, TransferAll, SettleAttempt, Net;
    forall token ensures Accounts(h, id, c, a.cell, a.moves, token, h.self) {
      SettleAccounts(h, f, id, c, token, h.self);
    }
    SettleAccounts(h, f, id, c, h.usdc, h.self);
    PayoutsAreCovered(h, s, f, id, a.cell, a.moves);
  }

  lemma SettlementSucceeds(h: Host, s: State, f: Family, id: nat)
    requires StateInv(h, s) && Solvent(h, s)
    requires id in Cells(s, f) && Cells(s, f)[id].round.status == Cleared
    ensures var a := SettleAttempt(h, f, id, Cells(s, f)[id]);
            a.Go? && forall n :: 0 <= n <= |a.moves| ==> TransferAll(s.ledger, a.moves[..n]).Some?
    ensures var r := Step(h, s, CallOn(f, id, Settle));
            && r.outcome == Done(Unit) && Closed(h, s, r.state, f, id)
            && Cells(r.state, f)[id].round.status == Settled
  {
    hide StateInv, Solvent, TransferAll, SettleAttempt, Closed, Step, Conclude;
    var a := SettleAttempt(h, f, id, Cells(s, f)[id]);
    SettlementIsCovered(h, s, f, id);
    SettleValue(h, f, id, Cells(s, f)[id]);
    ConcludeCloses(h, s, f, id, a);
    StepOnRound(h, s, f, id, {}, Settle);
    AllPrefixesSucceed(s.ledger, a.moves);
  }

  /** In every reachable state, settling a cleared round never fails: every transfer of the
      loops finds its funds at its own place in the order, nobody's authorisation is needed,
      and afterwards the round is settled, the contract holds nothing for it, and no other
      round has changed. */
  lemma SettlementCannotFail(h: Host, s: State, f: Family, id: nat)
    requires Reachable(h, s) && id in Cells(s, f) && Cells(s, f)[id].round.status == Cleared
    ensures var a := SettleAttempt(h, f, id, Cells(s, f)[id]);
            a.Go? && forall n :: 0 <= n <= |a.moves| ==> TransferAll(s.ledger, a.moves[..n]).Some?
    ensures var r := Step(h, s, CallOn(f, id, Settle));
            && r.outcome == Done(Unit) && Closed(h, s, r.state, f, id)
            && Cells(r.state, f)[id].round.status == Settled
  {
    hide Reachable, StateInv, Solvent, TransferAll, SettleAttempt, Closed, Step;
    ReachableIsGood(h, s);
    SettlementSucceeds(h, s, f, id);
  }

  lemma SettleValue(h: Host, f: Family, id: nat, c: Cell)
    requires SettleAttempt(h, f, id, c).Go?
    ensures SettleAttempt(h, f, id, c).value == Unit && SettleAttempt(h, f, id, c).cell.round.status == Settled
  {
  }

  lemma AllPrefixesSucceed(l: Ledger, ms: seq<Move>)
    requires TransferAll(l, ms).Some?
    ensures forall n :: 0 <= n <= |ms| ==> TransferAll(l, ms[..n]).Some?
  {
    forall n | 0 <= n <= |ms| ensures TransferAll(l, ms[..n]).Some? {
      PrefixesSucceed(l, ms, n);
    }
  }

  lemma ClearedSettles(h: Host, f: Family, id: nat, c: Cell)
    requires CellInv(h, f, c) && c.round.status == Cleared
    ensures SettleAttempt(h, f, id, c).Go?
  {
  }

  /** Voiding, by `void` or by a `clear` that finds no valid bid, never fails for funds. */
  lemma RefundsCannotFail(h: Host, s: State, f: Family, id: nat)
    requires StateInv(h, s) && Solvent(h, s) && id in Cells(s, f)
    requires Cells(s, f)[id].round.status == Open || Cells(s, f)[id].round.status == Revealing
    ensures TransferAll(s.ledger, RefundAllMoves(h, id, Cells(s, f)[id])).Some?
  {
    var c := Cells(s, f)[id];
    VoidingKeeps(h, f, c);
    hide CellInv, TransferAll, RefundAllMoves, Net, VoidedCell;
    forall token ensures Accounts(h, id, c, VoidedCell(f, c), RefundAllMoves(h, id, c), token, h.self) {
      VoidingAccounts(h, f, id, c, token, h.self);
    }
    VoidingAccounts(h, f, id, c, h.usdc, h.self);
    PayoutsAreCovered(h, s, f, id, VoidedCell(f, c), RefundAllMoves(h, id, c));
  }

  /** An accepted commit can only fail on the bidder's own balance: the previous escrow is
      always there to go back first. */
  lemma CommitFailsOnlyForTheBidder(h: Host, s: State, f: Family, id: nat, auth: set<Address>, op: Op)
    requires StateInv(h, s) && Solvent(h, s) && id in Cells(s, f)
    requires op.Commit? && op.bidder in auth && h.self !in auth
    requires CommitRefusal(f, Cells(s, f)[id], s.now, op) == None
    ensures var c := Cells(s, f)[id];
            Step(h, s, Event(auth, OnRound(f, id, op))).outcome.Done? <==>
              c.round.mode == ReceiptOnly
              || Balance(s.ledger, c.round.paymentAsset.value, op.bidder) + EscrowOf(c, op.bidder) >= op.escrow
  {
    hide StateInv, Solvent, TransferAll, Step, CommitRefusal;
    var c := Cells(s, f)[id];
    CommitTerms(h, s, f, id, op);
    StepOnRound(h, s, f, id, auth, op);
    if c.round.mode == Auction {
      if op.bidder in c.subs {
        FundsForEscrow(h, s, f, id, op.bidder, c.round.paymentAsset.value);
      }
      CommitTransfers(h, s.ledger, id, c, op.bidder, op.escrow);
    } else {
      TransferNothing(s.ledger);
    }
  }

  lemma CommitTerms(h: Host, s: State, f: Family, id: nat, op: Op)
    requires StateInv(h, s) && id in Cells(s, f) && op.Commit?
    requires CommitRefusal(f, Cells(s, f)[id], s.now, op) == None
    ensures var c := Cells(s, f)[id];
            && Live(c.round) && EscrowOf(c, op.bidder) >= 0
            && (op.bidder in c.subs && c.round.mode == Auction ==> EscrowOf(c, op.bidder) > 0)
            && (c.round.mode == Auction ==> op.escrow > 0 && c.round.paymentAsset.Some?)
            && (c.round.mode == ReceiptOnly ==>
                  EscrowBack(h, id, c, op.bidder) + EscrowIn(h, id, c, op.bidder, op.escrow) == [])
  {
  }

  lemma FundsForEscrow(h: Host, s: State, f: Family, id: nat, b: Address, token: Asset)
    requires StateInv(h, s) && Solvent(h, s) && id in Cells(s, f)
    requires Live(Cells(s, f)[id].round) && PaidIn(Cells(s, f)[id], token) && b in Cells(s, f)[id].subs
    ensures Balance(s.ledger, token, h.self) >= EscrowOf(Cells(s, f)[id], b)
  {
    hide CellInv, Held;
    assert Surplus(h, s, token) >= 0;
    HeldCoversEach(h, s, id, token, s.counter);
    EscrowWithinHeld(h, f, Cells(s, f)[id], b, token);
  }

  lemma CommitTransfers(h: Host, l: Ledger, id: nat, c: Cell, b: Address, escrow: int)
    requires c.round.paymentAsset.Some? && escrow > 0 && b != h.self
    requires b in c.subs ==> 0 < EscrowOf(c, b) <= Balance(l, c.round.paymentAsset.value, h.self)
    ensures TransferAll(l, EscrowBack(h, id, c, b) + EscrowIn(h, id, c, b, escrow)).Some? <==>
            Balance(l, c.round.paymentAsset.value, b) + EscrowOf(c, b) >= escrow
  {
    var back, paid := EscrowBack(h, id, c, b), EscrowIn(h, id, c, b, escrow);
    TransferAllAppend(l, back, paid);
    TransferOne(l, paid[0]);
    if b in c.subs {
      TransferOne(l, back[0]);
      TransferOne(TransferAll(l, back).value, paid[0]);
    } else {
      TransferNothing(l);
    }
  }

  lemma EscrowWithinHeld(h: Host, f: Family, c: Cell, b: Address, token: Asset)
    requires CellInv(h, f, c) && Live(c.round) && PaidIn(c, token) && b in c.subs
    ensures EscrowOf(c, b) <= Held(c, token)
  {
    var k :| 0 <= k < |c.round.bidders| && c.round.bidders[k] == b;
    EscrowWithinSum(h, f, c, k, |c.round.bidders|);
  }

  lemma {:induction false} EscrowWithinSum(h: Host, f: Family, c: Cell, k: nat, n: nat)
    requires CellInv(h, f, c) && k < n <= |c.round.bidders|
    ensures EscrowOf(c, c.round.bidders[k]) <= EscrowSum(c, n)
  {
    if k < n - 1 {
      EscrowWithinSum(h, f, c, k, n - 1);
    } else {
      EscrowSumIsCovered(h, f, c, n - 1);
    }
  }

  // ---- No stuck round ----

  /** The time from which anybody can drive a live round to its end. */
  predicate Overdue(f: Family, c: Cell, now: U64) {
    match c.round.status
    case Open => (f == V1 ==> c.round.revealDeadline + VOID_GRACE <= U64_MAX) && now > SatAdd(c.round.revealDeadline, VOID_GRACE)
    case Revealing => now > c.round.revealDeadline
    case Cleared => true
    case _ => false
  }

  /** The calls that end a round; nobody has to authorise any of them. */
  function ExitPlan(c: Cell): seq<Op> {
    match c.round.status
    case Open => [Void]
    case Revealing => if c.round.mode == ReceiptOnly || Verdict(c).None? then [Clear] else [Clear, Settle]
    case Cleared => [Settle]
    case _ => []
  }

  lemma VoidExits(h: Host, s: State, f: Family, id: nat)
    requires StateInv(h, s) && Solvent(h, s) && id in Cells(s, f)
    requires Cells(s, f)[id].round.status == Open && Overdue(f, Cells(s, f)[id], s.now)
    ensures var r := Step(h, s, CallOn(f, id, Void)); r.outcome.Done? && Closed(h, s, r.state, f, id)
  {
    hide StateInv, TransferAll, RefundAllMoves, Closed, Step, Conclude, Solvent, VoidedCell;
    RefundsCannotFail(h, s, f, id);
    StepOnRound(h, s, f, id, {}, Void);
    VoidedIsTerminal(f, Cells(s, f)[id]);
    ConcludeCloses(h, s, f, id, VoidAttempt(h, f, id, Cells(s, f)[id], s.now));
  }

  lemma VoidedIsTerminal(f: Family, c: Cell)
    ensures VoidedCell(f, c).round.status == Voided
  {
  }

  lemma ReceiptOnlyIsV2(h: Host, s: State, f: Family, id: nat)
    requires StateInv(h, s) && id in Cells(s, f) && Cells(s, f)[id].round.mode == ReceiptOnly
    ensures f == V2
  {
  }

  lemma ClearExits(h: Host, s: State, f: Family, id: nat)
    requires StateInv(h, s) && Solvent(h, s) && id in Cells(s, f)
    requires Cells(s, f)[id].round.status == Revealing && Overdue(f, Cells(s, f)[id], s.now)
    requires ExitPlan(Cells(s, f)[id]) == [Clear]
    ensures var r := Step(h, s, CallOn(f, id, Clear)); r.outcome.Done? && Closed(h, s, r.state, f, id)
  {
    hide StateInv, TransferAll, RefundAllMoves, Closed, Verdict, Step, Conclude, Solvent, MarkSettled, VoidedCell;
    var c := Cells(s, f)[id];
    RefundsCannotFail(h, s, f, id);
    TransferNothing(s.ledger);
    if c.round.mode == ReceiptOnly {
      ReceiptOnlyIsV2(h, s, f, id);
    }
    VoidedIsTerminal(f, c);
    StepOnRound(h, s, f, id, {}, Clear);
    ConcludeCloses(h, s, f, id, ClearAttempt(h, f, id, c, s.now));
  }

  lemma ClearClears(h: Host, s: State, f: Family, id: nat)
    requires id in Cells(s, f)
    requires Cells(s, f)[id].round.status == Revealing && Overdue(f, Cells(s, f)[id], s.now)
    requires ExitPlan(Cells(s, f)[id]) == [Clear, Settle]
    ensures var r := Step(h, s, CallOn(f, id, Clear));
            && r.outcome.Done? && id in Cells(r.state, f) && Cells(r.state, f)[id].round.status == Cleared
            && (forall other :: other != id ==> At(r.state, other) == At(s, other))
            && r.state.now == s.now && r.state.counter == s.counter
  {
    TransferNothing(s.ledger);
    StepOnRound(h, s, f, id, {}, Clear);
    hide TransferAll, Verdict, Step;
  }

  lemma OneStepKeepsGood(h: Host, s: State, e: Event)
    requires StateInv(h, s) && Solvent(h, s) && Honest(h, e)
    ensures var t := Step(h, s, e).state; StateInv(h, t) && Solvent(h, t)
  {
    hide CellInv, Step, Solvent;
    RunStaysSolvent(h, s, [e]);
    RunKeepsState(h, s, [e]);
    assert [e][..0] == [];
    assert Run(h, s, [e][..0]) == s && Run(h, s, [e]) == Step(h, s, e).state;
  }

  lemma ClosedAfter(h: Host, s: State, t: State, u: State, f: Family, id: nat)
    requires forall other :: other != id ==> At(t, other) == At(s, other)
    requires t.now == s.now && t.counter == s.counter && Closed(h, t, u, f, id)
    ensures Closed(h, s, u, f, id)
  {
  }

  /** From every reachable state, an overdue live round of either family is ended by at most
      two calls that nobody has to authorise; each of them succeeds, and afterwards the round
      is Settled or Voided and the contract holds nothing for it. */
  lemma NoStuckRound(h: Host, s: State, f: Family, id: nat)
    requires Reachable(h, s) && id in Cells(s, f) && Overdue(f, Cells(s, f)[id], s.now)
    ensures var plan := ExitPlan(Cells(s, f)[id]);
            && 1 <= |plan| <= 2
            && var first := Step(h, s, CallOn(f, id, plan[0]));
            && first.outcome.Done?
            && (|plan| == 1 ==> Closed(h, s, first.state, f, id))
            && (|plan| == 2 ==>
                  var second := Step(h, first.state, CallOn(f, id, plan[1]));
                  second.outcome.Done? && Closed(h, s, second.state, f, id))
  {
    ReachableIsGood(h, s);
    var c := Cells(s, f)[id];
    hide Reachable, StateInv, Step, Solvent, Verdict, Closed;
    match c.round.status
    case Open => VoidExits(h, s, f, id);
    case Cleared => SettlementSucceeds(h, s, f, id);
    case Revealing =>
      if ExitPlan(c) == [Clear] {
        ClearExits(h, s, f, id);
      } else {
        ClearClears(h, s, f, id);
        var t := Step(h, s, CallOn(f, id, Clear)).state;
        OneStepKeepsGood(h, s, CallOn(f, id, Clear));
        SettlementSucceeds(h, t, f, id);
        ClosedAfter(h, s, t, Step(h, t, CallOn(f, id, Settle)).state, f, id);
      }
    case _ =>
  }

  /** An open round can be voided at some time that the u64 clock can show exactly when its
      reveal deadline plus the grace period stays below the largest u64. v2 saturates the sum,
      v1 traps on overflow; either way a later deadline can never be voided. */
  lemma VoidableAtAll(h: Host, f: Family, id: nat, c: Cell)
    requires c.round.status == Open
    ensures (exists now: U64 :: VoidAttempt(h, f, id, c, now).Go?) <==> c.round.revealDeadline + VOID_GRACE < U64_MAX
  {
    if c.round.revealDeadline + VOID_GRACE < U64_MAX {
      assert VoidAttempt(h, f, id, c, U64_MAX).Go?;
    }
  }

  /** v1 accepts a reveal deadline with which the round can never be voided ... */
  lemma V1AcceptsUnvoidable(h: Host, now: U64, t: Terms)
    requires t.revealRound > 0 && |t.auditorPubkey| == 0 && t.revealDeadline == U64_MAX
    requires now < t.commitDeadline < TimeOfRound(h, t.revealRound) < U64_MAX
    ensures var a := CreateV1Attempt(h, now, {t.operator}, 1, t);
            a.Go? && forall later: U64 :: !VoidAttempt(h, V1, 1, a.cell, later).Go?
  {
    VoidableAtAll(h, V1, 1, CreateV1Attempt(h, now, {t.operator}, 1, t).cell);
  }

  /** ... while the duration cap of v2 rules that out for any realistic clock. */
  lemma V2IsVoidable(h: Host, now: U64, auth: set<Address>, id: nat, t: Terms, policy: Option<Policy>)
    requires now + MAX_ROUND_DURATION_SECS + VOID_GRACE < U64_MAX
    requires CreateV2Attempt(h, now, auth, id, t, policy).Go?
    ensures exists later: U64 :: VoidAttempt(h, V2, id, CreateV2Attempt(h, now, auth, id, t, policy).cell, later).Go?
  {
    VoidableAtAll(h, V2, id, CreateV2Attempt(h, now, auth, id, t, policy).cell);
  }
}
