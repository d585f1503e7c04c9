/** Whose money a round holds, and how every operation moves it. */
module Payouts {
  import opened Base
  import opened Optimum
  import opened Tokens
  import opened Rounds
  import opened Clearing
  import opened Rules
  import opened Invariants

  predicate PaidIn(c: Cell, token: Asset) {
    c.round.paymentAsset == Some(token)
  }

  predicate LotIs(c: Cell, token: Asset) {
    c.round.lotAsset == Some(token)
  }

  function EscrowOf(c: Cell, a: Address): int {
    if a in c.subs then c.subs[a].escrow else 0
  }

  /** The escrows of the first n bidders. */
  function EscrowSum(c: Cell, n: nat): int
    requires n <= |c.round.bidders|
  {
    if n == 0 then 0 else EscrowSum(c, n - 1) + EscrowOf(c, c.round.bidders[n - 1])
  }

  /** What the contract holds in `token` on behalf of a round: every escrow and the lot while
      the round is live, nothing afterwards. */
  function Held(c: Cell, token: Asset): int {
    if !Live(c.round) then 0
    else (if PaidIn(c, token) then EscrowSum(c, |c.round.bidders|) else 0)
         + (if LotIs(c, token) then c.round.lotAmount else 0)
  }

  /** What anybody else is up or down in `token` because of a round: escrow and lot are out
      while the round is live; a settled auction has moved the winning bid to the operator
      and the lot to the winner; everything else is back where it came from. */
  function Gain(c: Cell, token: Asset, a: Address): int {
    var r := c.round;
    if Live(r) then
      (if PaidIn(c, token) then -EscrowOf(c, a) else 0)
      - (if LotIs(c, token) && a == r.operator then r.lotAmount else 0)
    else if r.status == Settled && r.winner.Some? then
      (if PaidIn(c, token) then Sale(r.winningBid, a, r.operator, r.winner.value) else 0)
      + (if LotIs(c, token) then Sale(r.lotAmount, a, r.winner.value, r.operator) else 0)
    else 0
  }

  /** The effect on `a` of `amount` passing from `payer` to `payee`. */
  function Sale(amount: int, a: Address, payee: Address, payer: Address): int {
    (if a == payee then amount else 0) - (if a == payer then amount else 0)
  }

  /** The position of anybody, the contract included, in one round and one token. */
  function Position(h: Host, c: Cell, token: Asset, a: Address): int {
    if a == h.self then Held(c, token) else Gain(c, token, a)
  }

  // ---- The settle loop ----

  /** What the settle loop can rely on in a cleared round. */
  ghost predicate Payable(h: Host, c: Cell, winner: Address) {
    && Indexed(h, c) && c.round.paymentAsset.Some?
    && (forall a :: a in c.subs ==> !c.subs[a].settled && c.subs[a].escrow > 0)
    && winner in c.subs && 0 < c.round.winningBid <= c.subs[winner].escrow
  }

  function SettleNet(h: Host, c: Cell, winner: Address, token: Asset, a: Address, bidder: Address): int {
    if !PaidIn(c, token) then 0
    else if a == h.self then -EscrowOf(c, bidder)
    else (if a == bidder then EscrowOf(c, bidder) else 0)
         + (if bidder == winner then Sale(c.round.winningBid, a, c.round.operator, winner) else 0)
  }

  lemma ShareNet(h: Host, id: nat, c: Cell, winner: Address, k: nat, token: Asset, a: Address)
    requires Payable(h, c, winner) && k < |c.round.bidders|
    ensures Net(SettleShare(h, id, c, winner, k), token, a) == SettleNet(h, c, winner, token, a, c.round.bidders[k])
    ensures Payouts(SettleShare(h, id, c, winner, k), id, h.self)
  {
    hide Net;
    NetOfNone(token, a);
    NotBefore(c.round.bidders, k);
    var b := c.round.bidders[k];
    var escrow := c.subs[b].escrow;
    if b == winner {
      var price := PayTo(h, id, c, c.round.operator, c.round.winningBid);
      NetOfOne(price[0], token, a);
      var surplus := escrow - c.round.winningBid;
      if surplus > 0 {
        var rest := PayTo(h, id, c, b, surplus);
        NetOfOne(rest[0], token, a);
        NetAppend(price, rest, token, a);
      } else {
        assert price + [] == price;
      }
    } else {
      NetOfOne(PayTo(h, id, c, b, escrow)[0], token, a);
    }
  }

  /** Whether `a` is among the first n bidders. */
  predicate Among(c: Cell, n: nat, a: Address)
    requires n <= |c.round.bidders|
  {
    a in c.round.bidders[..n]
  }

  lemma AmongStep(c: Cell, n: nat, a: Address)
    requires 0 < n <= |c.round.bidders| && NoRepeats(c.round.bidders)
    ensures Among(c, n, a) <==> Among(c, n - 1, a) || a == c.round.bidders[n - 1]
    ensures !(Among(c, n - 1, a) && a == c.round.bidders[n - 1])
  {
    NotBefore(c.round.bidders, n - 1);
    assert c.round.bidders[..n] == c.round.bidders[..n - 1] + [c.round.bidders[n - 1]];
  }

  function SettledNet(h: Host, c: Cell, winner: Address, n: nat, token: Asset, a: Address): int
    requires n <= |c.round.bidders|
  {
    if !PaidIn(c, token) then 0
    else if a == h.self then -EscrowSum(c, n)
    else (if Among(c, n, a) then EscrowOf(c, a) else 0)
         + (if Among(c, n, winner) then Sale(c.round.winningBid, a, c.round.operator, winner) else 0)
  }

  lemma SettledNetStep(h: Host, c: Cell, winner: Address, n: nat, token: Asset, a: Address)
    requires Payable(h, c, winner) && 0 < n <= |c.round.bidders|
    ensures SettledNet(h, c, winner, n, token, a) ==
            SettledNet(h, c, winner, n - 1, token, a) + SettleNet(h, c, winner, token, a, c.round.bidders[n - 1])
  {
    AmongStep(c, n, a);
    AmongStep(c, n, winner);
  }

  /** After n iterations: the first n escrows are out of the contract and back with their
      bidders, less the price, which passed from the winner to the operator once. */
  lemma {:induction false} SettleMovesNet(h: Host, id: nat, c: Cell, winner: Address, n: nat, token: Asset, a: Address)
    requires Payable(h, c, winner) && n <= |c.round.bidders|
    ensures Payouts(SettleMoves(h, id, c, winner, n), id, h.self)
    ensures Net(SettleMoves(h, id, c, winner, n), token, a) == SettledNet(h, c, winner, n, token, a)
  {
    hide Net;
    NetOfNone(token, a);
    if n > 0 {
      var front, share := SettleMoves(h, id, c, winner, n - 1), SettleShare(h, id, c, winner, n - 1);
      SettleMovesNet(h, id, c, winner, n - 1, token, a);
      ShareNet(h, id, c, winner, n - 1, token, a);
      SettledNetStep(h, c, winner, n, token, a);
      NetAppend(front, share, token, a);
      PayoutsAppend(front, share, id, h.self);
    }
  }

  // ---- The refund loop ----

  function RefundedNet(h: Host, c: Cell, n: nat, token: Asset, a: Address): int
    requires n <= |c.round.bidders|
  {
    if !PaidIn(c, token) then 0
    else if a == h.self then -EscrowSum(c, n)
    else if Among(c, n, a) then EscrowOf(c, a) else 0
  }

  lemma RefundShareNet(h: Host, id: nat, c: Cell, k: nat, token: Asset, a: Address)
    requires Indexed(h, c) && c.round.paymentAsset.Some? && k < |c.round.bidders|
    requires forall b :: b in c.subs ==> !c.subs[b].settled && c.subs[b].escrow > 0
    ensures Payouts(RefundShare(h, id, c, k), id, h.self)
    ensures Net(RefundShare(h, id, c, k), token, a) ==
            RefundedNet(h, c, k + 1, token, a) - RefundedNet(h, c, k, token, a)
  {
    hide Net;
    NetOfNone(token, a);
    NotBefore(c.round.bidders, k);
    AmongStep(c, k + 1, a);
    var b := c.round.bidders[k];
    assert b in c.subs;
    NetOfOne(RefundShare(h, id, c, k)[0], token, a);
  }

  lemma {:induction false} RefundMovesNet(h: Host, id: nat, c: Cell, n: nat, token: Asset, a: Address)
    requires Indexed(h, c) && c.round.paymentAsset.Some? && n <= |c.round.bidders|
    requires forall b :: b in c.subs ==> !c.subs[b].settled && c.subs[b].escrow > 0
    ensures Payouts(RefundMoves(h, id, c, n), id, h.self)
    ensures Net(RefundMoves(h, id, c, n), token, a) == RefundedNet(h, c, n, token, a)
  {
    hide Net;
    NetOfNone(token, a);
    if n > 0 {
      var front, share := RefundMoves(h, id, c, n - 1), RefundShare(h, id, c, n - 1);
      RefundMovesNet(h, id, c, n - 1, token, a);
      RefundShareNet(h, id, c, n - 1, token, a);
      NetAppend(front, share, token, a);
      PayoutsAppend(front, share, id, h.self);
    }
  }

  lemma LotNet(h: Host, id: nat, c: Cell, who: Address, token: Asset, a: Address)
    requires who != h.self && c.round.lotAmount >= 0
    ensures Payouts(LotTo(h, id, c, who), id, h.self)
    ensures Net(LotTo(h, id, c, who), token, a) == if LotIs(c, token) then Sale(c.round.lotAmount, a, who, h.self) else 0
  {
    hide Net;
    NetOfNone(token, a);
    if c.round.lotAsset.Some? {
      NetOfOne(LotTo(h, id, c, who)[0], token, a);
    }
  }

  // ---- Every operation moves exactly the difference of positions ----

  /** The moves of an operation are on behalf of its round and account for the change of
      everybody's position in every token. */
  ghost predicate Accounts(h: Host, id: nat, c: Cell, d: Cell, ms: seq<Move>, token: Asset, a: Address) {
    && AllOf(ms, id)
    && Net(ms, token, a) == Position(h, d, token, a) - Position(h, c, token, a)
  }

  lemma {:induction false} EscrowSumFrame(c: Cell, d: Cell, n: nat)
    requires n <= |c.round.bidders| && n <= |d.round.bidders|
    requires c.round.bidders[..n] == d.round.bidders[..n]
    requires forall k :: 0 <= k < n ==> EscrowOf(c, c.round.bidders[k]) == EscrowOf(d, c.round.bidders[k])
    ensures EscrowSum(c, n) == EscrowSum(d, n)
  {
    if n > 0 {
      assert c.round.bidders[..n - 1] == c.round.bidders[..n][..n - 1];
      assert d.round.bidders[..n - 1] == d.round.bidders[..n][..n - 1];
      assert c.round.bidders[n - 1] == c.round.bidders[..n][n - 1] == d.round.bidders[..n][n - 1] == d.round.bidders[n - 1];
      EscrowSumFrame(c, d, n - 1);
    }
  }

  /** Replacing one bidder's escrow changes the sum by the difference. */
  lemma {:induction false} EscrowSumReplace(c: Cell, d: Cell, n: nat, b: Address)
    requires c.round.bidders == d.round.bidders && NoRepeats(c.round.bidders) && n <= |c.round.bidders|
    requires forall a :: a != b ==> EscrowOf(c, a) == EscrowOf(d, a)
    ensures EscrowSum(d, n) - EscrowSum(c, n) ==
            if b in c.round.bidders[..n] then EscrowOf(d, b) - EscrowOf(c, b) else 0
  {
    if n > 0 {
      EscrowSumReplace(c, d, n - 1, b);
      NotBefore(c.round.bidders, n - 1);
      assert c.round.bidders[..n] == c.round.bidders[..n - 1] + [c.round.bidders[n - 1]];
    }
  }

  lemma CommitEscrows(h: Host, f: Family, c: Cell, now: U64, op: Op)
    requires CellInv(h, f, c) && op.Commit? && CommitRefusal(f, c, now, op) == None
    ensures var d := Placed(c, op.bidder, op.commitment, op.escrow);
            EscrowSum(d, |d.round.bidders|) == EscrowSum(c, |c.round.bidders|) + op.escrow - EscrowOf(c, op.bidder)
  {
    var d := Placed(c, op.bidder, op.commitment, op.escrow);
    var n := |c.round.bidders|;
    if op.bidder in c.subs {
      EscrowSumReplace(c, d, n, op.bidder);
      assert c.round.bidders[..n] == c.round.bidders;
    } else {
      assert d.round.bidders[..n] == c.round.bidders[..n];
      EscrowSumFrame(c, d, n);
    }
  }

  /** A commit's moves: the previous escrow back, the new one in. */
  lemma CommitNet(h: Host, id: nat, c: Cell, bidder: Address, escrow: int, token: Asset, a: Address)
    requires escrow >= 0 && EscrowOf(c, bidder) >= 0
    ensures var ms := EscrowBack(h, id, c, bidder) + EscrowIn(h, id, c, bidder, escrow);
            && AllOf(ms, id)
            && Net(ms, token, a) == if PaidIn(c, token) then Sale(escrow - EscrowOf(c, bidder), a, h.self, bidder) else 0
  {
    hide Net;
    NetOfNone(token, a);
    var back := EscrowBack(h, id, c, bidder);
    var paid := EscrowIn(h, id, c, bidder, escrow);
    NetAppend(back, paid, token, a);
    if back != [] {
      NetOfOne(back[0], token, a);
    }
    if paid != [] {
      NetOfOne(paid[0], token, a);
    }
  }

  lemma CommitAccounts(h: Host, f: Family, id: nat, c: Cell, now: U64, op: Op, token: Asset, a: Address)
    requires CellInv(h, f, c) && op.Commit? && op.bidder != h.self && CommitRefusal(f, c, now, op) == None
    ensures var ms := EscrowBack(h, id, c, op.bidder) + EscrowIn(h, id, c, op.bidder, op.escrow);
            Accounts(h, id, c, Placed(c, op.bidder, op.commitment, op.escrow), ms, token, a)
  {
    hide Net;
    NetOfNone(token, a);
    CommitEscrows(h, f, c, now, op);
    CommitNet(h, id, c, op.bidder, op.escrow, token, a);
    var d := Placed(c, op.bidder, op.commitment, op.escrow);
    assert EscrowOf(d, a) == if a == op.bidder then op.escrow else EscrowOf(c, a);
  }

  lemma EverybodyIsAmong(h: Host, c: Cell, a: Address)
    requires Indexed(h, c)
    ensures Among(c, |c.round.bidders|, a) <==> a in c.subs
  {
    assert c.round.bidders[..|c.round.bidders|] == c.round.bidders;
  }

  lemma VoidingAccounts(h: Host, f: Family, id: nat, c: Cell, token: Asset, a: Address)
    requires CellInv(h, f, c) && (c.round.status == Open || c.round.status == Revealing)
    ensures Accounts(h, id, c, VoidedCell(f, c), RefundAllMoves(h, id, c), token, a)
    ensures PaidOutBy(RefundAllMoves(h, id, c), h.self)
  {
    hide Net, RefundMoves, NoRepeats, OpeningOk;
    NetOfNone(token, a);
    var n := |c.round.bidders|;
    var refunds := if c.round.paymentAsset.Some? then RefundMoves(h, id, c, n) else [];
    var lot := LotTo(h, id, c, c.round.operator);
    if c.round.paymentAsset.Some? {
      RefundMovesNet(h, id, c, n, token, a);
    }
    EverybodyIsAmong(h, c, a);
    LotNet(h, id, c, c.round.operator, token, a);
    NetAppend(refunds, lot, token, a);
    PayoutsAppend(refunds, lot, id, h.self);
  }

  /** What clearing established is what the settle loop needs. */
  lemma ClearedIsPayable(h: Host, f: Family, c: Cell)
    requires CellInv(h, f, c) && c.round.status == Cleared
    ensures c.round.winner.Some? && Payable(h, c, c.round.winner.value)
  {
    WinnerIsGood(h, f, c);
  }

  lemma SettleAccounts(h: Host, f: Family, id: nat, c: Cell, token: Asset, a: Address)
    requires CellInv(h, f, c) && SettleAttempt(h, f, id, c).Go?
    ensures var t := SettleAttempt(h, f, id, c);
            Accounts(h, id, c, t.cell, t.moves, token, a) && PaidOutBy(t.moves, h.self)
  {
    hide Net, SettleMoves, NoRepeats, Verdict, OpeningOk;
    NetOfNone(token, a);
    var n := |c.round.bidders|;
    ClearedIsPayable(h, f, c);
    var winner := c.round.winner.value;
    SettleMovesNet(h, id, c, winner, n, token, a);
    EverybodyIsAmong(h, c, a);
    EverybodyIsAmong(h, c, winner);
    var lot := if f == V2 then LotTo(h, id, c, winner) else [];
    LotNet(h, id, c, winner, token, a);
    NetAppend(SettleMoves(h, id, c, winner, n), lot, token, a);
    PayoutsAppend(SettleMoves(h, id, c, winner, n), lot, id, h.self);
  }

  /** An operation without moves that keeps bidders and escrows, between two live records. */
  lemma QuietAccounts(h: Host, id: nat, c: Cell, d: Cell, token: Asset, a: Address)
    requires Live(c.round) && Live(d.round)
    requires d.round == c.round.(status := d.round.status, winner := d.round.winner, winningBid := d.round.winningBid)
    requires forall b :: EscrowOf(c, b) == EscrowOf(d, b)
    ensures Accounts(h, id, c, d, [], token, a)
  {
    hide Net;
    NetOfNone(token, a);
    EscrowSumFrame(c, d, |c.round.bidders|);
  }

  /** A receipt-only round has nothing at stake for anybody. */
  lemma NoStake(h: Host, f: Family, c: Cell, token: Asset, a: Address)
    requires CellInv(h, f, c) && c.round.mode == ReceiptOnly
    ensures Position(h, c, token, a) == 0
  {
  }

  /** The conservation law: whatever the operation, its moves are exactly the change of
      everybody's position in that round, token by token. */
  lemma OpAccounts(h: Host, f: Family, id: nat, c: Cell, now: U64, auth: set<Address>, op: Op, token: Asset, a: Address)
    requires CellInv(h, f, c) && WellFormed(h, auth, op) && OpAttempt(h, f, id, c, now, auth, op).Go?
    ensures var t := OpAttempt(h, f, id, c, now, auth, op);
            Accounts(h, id, c, t.cell, t.moves, token, a)
  {
    hide Net, SettleMoves, RefundMoves, NoRepeats, Verdict;
    NetOfNone(token, a);
    var t := OpAttempt(h, f, id, c, now, auth, op);
    match op
    case Commit(_, _, _, _, _) => CommitAccounts(h, f, id, c, now, op, token, a);
    case OpenReveal(_) => QuietAccounts(h, id, c, t.cell, token, a);
    case RevealBid(_, _, _) => QuietAccounts(h, id, c, t.cell, token, a);
    case RevealEnvelope(_, _) => QuietAccounts(h, id, c, t.cell, token, a);
    case Clear =>
      if f == V2 && c.round.mode == ReceiptOnly {
        OpKeeps(h, f, id, c, now, auth, op);
        NoStake(h, f, c, token, a);
        NoStake(h, f, t.cell, token, a);
      } else if Verdict(c).None? {
        VoidingAccounts(h, f, id, c, token, a);
      } else {
        QuietAccounts(h, id, c, t.cell, token, a);
      }
    case Settle => SettleAccounts(h, f, id, c, token, a);
    case Void => VoidingAccounts(h, f, id, c, token, a);
  }

  /** Creating a round takes the lot into custody and nothing else. */
  lemma CreateAccounts(h: Host, id: nat, c: Cell, t: Terms, token: Asset, a: Address)
    requires c.round.status == Open && c.round.bidders == [] && c.subs == map[] && t.operator != h.self
    requires c.round.operator == t.operator && c.round.lotAsset == t.lotAsset && c.round.lotAmount == t.lotAmount
    ensures AllOf(LotIn(h, id, t), id) && Net(LotIn(h, id, t), token, a) == Position(h, c, token, a)
  {
    hide Net;
    NetOfNone(token, a);
    if t.lotAsset.Some? {
      NetOfOne(LotIn(h, id, t)[0], token, a);
    }
  }

  /** A receipt-only round never moves any token. */
  lemma ReceiptOnlyIsQuiet(h: Host, f: Family, id: nat, c: Cell, now: U64, auth: set<Address>, op: Op)
    requires CellInv(h, f, c) && c.round.mode == ReceiptOnly && OpAttempt(h, f, id, c, now, auth, op).Go?
    ensures OpAttempt(h, f, id, c, now, auth, op).moves == []
  {
    hide Net;
  }
}
