/** A SEP-41-like ledger of honest tokens, and the accounting of lists of token moves. */
module Tokens {
  import opened Base

  /** An account or contract, by its (never empty) Stellar address. */
  type StrkeyText = s: string | s != "" witness "G"
  datatype Address = Strkey(text: StrkeyText)
  type Asset = Address

  /** One token transfer, with the round on whose behalf it was made (0: none). */
  datatype Move = Move(round: nat, token: Asset, from: Address, to: Address, amount: int)

  type Ledger = map<(Asset, Address), int>

  function Balance(l: Ledger, token: Asset, who: Address): int {
    if (token, who) in l then l[(token, who)] else 0
  }

  /** A transfer fails on a negative amount or an insufficient balance. */
  function Transfer(l: Ledger, m: Move): Option<Ledger> {
    if m.amount < 0 || Balance(l, m.token, m.from) < m.amount then None
    else
      var debited := l[(m.token, m.from) := Balance(l, m.token, m.from) - m.amount];
      Some(debited[(m.token, m.to) := Balance(debited, m.token, m.to) + m.amount])
  }

  /** The transfers one after the other; the first that fails fails the whole list. */
  function TransferAll(l: Ledger, ms: seq<Move>): Option<Ledger> {
    if ms == [] then Some(l)
    else
      match TransferAll(l, ms[..|ms| - 1])
      case None => None
      case Some(l1) => Transfer(l1, ms[|ms| - 1])
  }

  lemma TransferAllSnoc(l: Ledger, ms: seq<Move>, m: Move)
    ensures TransferAll(l, ms + [m]) ==
            match TransferAll(l, ms) case None => None case Some(l1) => Transfer(l1, m)
  {
    assert (ms + [m])[..|ms|] == ms;
  }

  lemma {:induction false} TransferAllAppend(l: Ledger, xs: seq<Move>, ys: seq<Move>)
    ensures TransferAll(l, xs + ys) ==
            match TransferAll(l, xs) case None => None case Some(l1) => TransferAll(l1, ys)
    decreases |ys|
  {
    if ys == [] {
      assert xs + ys == xs;
    } else {
      var front, last := ys[..|ys| - 1], ys[|ys| - 1];
      TransferAllAppend(l, xs, front);
      assert xs + ys == (xs + front) + [last];
      TransferAllSnoc(l, xs + front, last);
    }
  }

  lemma TransferNothing(l: Ledger)
    ensures TransferAll(l, []) == Some(l)
  {
  }

  lemma TransferOne(l: Ledger, m: Move)
    ensures TransferAll(l, [m]) == Transfer(l, m)
  {
    TransferAllSnoc(l, [], m);
    assert [] + [m] == [m];
  }

  // ---- Net flows ----

  /** What a move adds to the holding of `who` in `token`. */
  function Flow(m: Move, token: Asset, who: Address): int {
    if m.token != token then 0
    else (if m.to == who then m.amount else 0) - (if m.from == who then m.amount else 0)
  }

  function Net(ms: seq<Move>, token: Asset, who: Address): int {
    if ms == [] then 0 else Net(ms[..|ms| - 1], token, who) + Flow(ms[|ms| - 1], token, who)
  }

  /** The part of the net flow that was made on behalf of one round. */
  function RoundNet(ms: seq<Move>, round: nat, token: Asset, who: Address): int {
    if ms == [] then 0
    else RoundNet(ms[..|ms| - 1], round, token, who)
         + (if ms[|ms| - 1].round == round then Flow(ms[|ms| - 1], token, who) else 0)
  }

  lemma NetOfNone(token: Asset, who: Address)
    ensures Net([], token, who) == 0
  {
  }

  lemma NetOfOne(m: Move, token: Asset, who: Address)
    ensures Net([m], token, who) == Flow(m, token, who)
  {
    assert [m][..0] == [];
  }

  lemma RoundNetOfNone(round: nat, token: Asset, who: Address)
    ensures RoundNet([], round, token, who) == 0
  {
  }

  lemma NetSnoc(ms: seq<Move>, m: Move, token: Asset, who: Address)
    ensures Net(ms + [m], token, who) == Net(ms, token, who) + Flow(m, token, who)
  {
    assert (ms + [m])[..|ms|] == ms;
  }

  lemma {:induction false} NetAppend(xs: seq<Move>, ys: seq<Move>, token: Asset, who: Address)
    ensures Net(xs + ys, token, who) == Net(xs, token, who) + Net(ys, token, who)
    decreases |ys|
  {
    if ys == [] {
      assert xs + ys == xs;
    } else {
      NetAppend(xs, ys[..|ys| - 1], token, who);
      assert xs + ys == (xs + ys[..|ys| - 1]) + [ys[|ys| - 1]];
      NetSnoc(xs + ys[..|ys| - 1], ys[|ys| - 1], token, who);
    }
  }

  lemma {:induction false} RoundNetAppend(xs: seq<Move>, ys: seq<Move>, round: nat, token: Asset, who: Address)
    ensures RoundNet(xs + ys, round, token, who) == RoundNet(xs, round, token, who) + RoundNet(ys, round, token, who)
    decreases |ys|
  {
    if ys == [] {
      assert xs + ys == xs;
    } else {
      RoundNetAppend(xs, ys[..|ys| - 1], round, token, who);
      assert (xs + ys)[..|xs + ys| - 1] == xs + ys[..|ys| - 1];
    }
  }

  predicate AllOf(ms: seq<Move>, round: nat) {
    forall k :: 0 <= k < |ms| ==> ms[k].round == round
  }

  lemma {:induction false} RoundNetOfOneRound(ms: seq<Move>, round: nat, other: nat, token: Asset, who: Address)
    requires AllOf(ms, round)
    ensures RoundNet(ms, other, token, who) == if other == round then Net(ms, token, who) else 0
  {
    if ms != [] {
      RoundNetOfOneRound(ms[..|ms| - 1], round, other, token, who);
    }
  }

  /** A successful list of transfers changes every balance by its net flow, so it neither
      creates nor destroys any token. */
  lemma {:induction false} TransferAllMovesNet(l: Ledger, ms: seq<Move>, token: Asset, who: Address)
    requires TransferAll(l, ms).Some?
    ensures Balance(TransferAll(l, ms).value, token, who) == Balance(l, token, who) + Net(ms, token, who)
  {
    if ms != [] {
      TransferAllMovesNet(l, ms[..|ms| - 1], token, who);
    }
  }

  /** Payments out of one account to others. */
  predicate PaidOutBy(ms: seq<Move>, payer: Address) {
    forall k :: 0 <= k < |ms| ==> ms[k].from == payer && ms[k].to != payer && ms[k].amount >= 0
  }

  /** Payments by one account on behalf of one round. */
  predicate Payouts(ms: seq<Move>, round: nat, payer: Address) {
    AllOf(ms, round) && PaidOutBy(ms, payer)
  }

  lemma PayoutsAppend(xs: seq<Move>, ys: seq<Move>, round: nat, payer: Address)
    requires Payouts(xs, round, payer) && Payouts(ys, round, payer)
    ensures Payouts(xs + ys, round, payer)
  {
  }

  lemma {:induction false} PayoutsOnlyLower(ms: seq<Move>, payer: Address, token: Asset)
    requires PaidOutBy(ms, payer)
    ensures Net(ms, token, payer) <= 0
  {
    if ms != [] {
      PayoutsOnlyLower(ms[..|ms| - 1], payer, token);
    }
  }

  /** Payments succeed, each at its own place in the list, as soon as the payer can cover
      their total in every token. */
  lemma {:induction false} CoveredPayoutsSucceed(l: Ledger, ms: seq<Move>, payer: Address)
    requires PaidOutBy(ms, payer)
    requires forall token :: Balance(l, token, payer) + Net(ms, token, payer) >= 0
    ensures TransferAll(l, ms).Some?
  {
    if ms != [] {
      var front, last := ms[..|ms| - 1], ms[|ms| - 1];
      forall token ensures Balance(l, token, payer) + Net(front, token, payer) >= 0 {
        assert Net(ms, token, payer) == Net(front, token, payer) + Flow(last, token, payer);
      }
      CoveredPayoutsSucceed(l, front, payer);
      TransferAllMovesNet(l, front, last.token, payer);
    }
  }
}
