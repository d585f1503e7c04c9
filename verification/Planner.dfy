/** The keeper's dry-run planner (services/keeper/src/dry-run.ts) against the guards of the
    contract: what it announces is what the contract will do. */
module Planner {
  import opened Base
  import opened TwosComplement
  import opened Envelope
  import opened Optimum
  import opened Tokens
  import opened Rounds
  import opened Clearing
  import opened Rules
  import opened Invariants
  import opened Machine
  import opened Exits
  import opened Histories

  datatype Phase =
    | AwaitingDrand | AwaitingOwner | AwaitingVoid | StaleOpen
    | RevealingBids | AwaitingClear | ReadyToClear | ReadyToSettle | Complete

  /** `decideKeeperDryRunAction`. */
  function Decide(status: Status, revealDeadline: U64, bidderCount: nat, revealedCount: Option<nat>, now: U64,
                  revealState: Option<RevealState>): Phase
  {
    match status
    case Open =>
      var voidAfter := revealDeadline + VOID_GRACE;
      if revealState.Some? && now <= voidAfter && now > revealDeadline then AwaitingVoid
      else if revealState.Some? && now <= voidAfter && revealState.value.policy.OwnerTriggered?
              && now < revealState.value.policy.fallbackAt then AwaitingOwner
      else if now > voidAfter then StaleOpen
      else AwaitingDrand
    case Revealing =>
      if now > revealDeadline then ReadyToClear
      else
        var pending := if revealedCount.None? then None
                       else Some(if bidderCount < revealedCount.value then 0 else bidderCount - revealedCount.value);
        if pending.None? || pending.value > 0 then RevealingBids else AwaitingClear
    case Cleared => ReadyToSettle
    case Settled => Complete
    case Voided => Complete
  }

  predicate IsRevealed(c: Cell, b: Address) {
    b in c.subs && c.subs[b].opening.Some?
  }

  /** The filter of `countKeeperRevealed` over the first n bidders of the index. */
  function RevealedUpTo(c: Cell, n: nat): (count: nat)
    requires n <= |c.round.bidders|
    ensures count <= n
    ensures count == n <==> forall i :: 0 <= i < n ==> IsRevealed(c, c.round.bidders[i])
  {
    if n == 0 then 0 else RevealedUpTo(c, n - 1) + (if IsRevealed(c, c.round.bidders[n - 1]) then 1 else 0)
  }

  /** `countKeeperRevealed` over submissions that can all be read; one that cannot gives null. */
  method CountRevealed(c: Cell) returns (count: Option<nat>)
    ensures count.Some? <==> forall b :: b in c.round.bidders ==> b in c.subs
    ensures count.Some? ==> count.value == RevealedUpTo(c, |c.round.bidders|)
  {
    var n: nat := 0;
    for i := 0 to |c.round.bidders|
      invariant forall b :: b in c.round.bidders[..i] ==> b in c.subs
      invariant n == RevealedUpTo(c, i)
    {
      var b := c.round.bidders[i];
      assert c.round.bidders[..i + 1] == c.round.bidders[..i] + [b];
      if b !in c.subs {
        return None;
      }
      if c.subs[b].opening.Some? {
        n := n + 1;
      }
    }
    assert c.round.bidders[..|c.round.bidders|] == c.round.bidders;
    return Some(n);
  }

  /** The plan for a stored round: only a v3 round has a reveal state to read. */
  function Plan(c: Cell, now: U64): Phase {
    Decide(c.round.status, c.round.revealDeadline, |c.round.bidders|, Some(RevealedUpTo(c, |c.round.bidders|)), now,
           if c.round.status == Open then c.window else None)
  }

  /** The three actions that the planner announces are exactly the permissionless closing
      calls that the contract accepts at that time. */
  lemma AnnouncedActionsAreEnabled(h: Host, f: Family, id: nat, c: Cell, now: U64)
    requires CellInv(h, f, c)
    ensures Plan(c, now) == StaleOpen <==> VoidAttempt(h, f, id, c, now).Go?
    ensures Plan(c, now) == ReadyToClear <==> ClearAttempt(h, f, id, c, now).Go?
    ensures Plan(c, now) == ReadyToSettle <==> SettleAttempt(h, f, id, c).Go?
    ensures Plan(c, now) == StaleOpen || Plan(c, now) == ReadyToClear || Plan(c, now) == ReadyToSettle <==> Overdue(f, c, now)
  {
    hide RefundAllMoves, SettleMoves, MarkSettled, NoRepeats, TimeOfRound, VoidedCell, OpeningOk, RevealedUpTo;
    if c.round.status == Cleared {
      ClearedSettles(h, f, id, c);
    }
  }

  /** When each of the waiting phases is announced; the other phases follow from the lemmas on
      the actions. */
  lemma WaitingPhases(h: Host, f: Family, c: Cell, now: U64)
    requires CellInv(h, f, c)
    ensures var late, graced := now > c.round.revealDeadline, now <= c.round.revealDeadline + 3600;
            var owned := c.window.Some? && c.window.value.policy.OwnerTriggered? && now < c.window.value.policy.fallbackAt;
            && (Plan(c, now) == Complete <==> c.round.status == Settled || c.round.status == Voided)
            && (Plan(c, now) == AwaitingClear <==>
                  c.round.status == Revealing && !late && forall b :: b in c.subs ==> c.subs[b].opening.Some?)
            && (Plan(c, now) == AwaitingVoid <==> c.round.status == Open && c.round.version == 3 && late && graced)
            && (Plan(c, now) == AwaitingOwner <==> c.round.status == Open && !late && owned)
            && (Plan(c, now) == AwaitingDrand <==> c.round.status == Open && graced && (c.round.version == 3 ==> !late && !owned))
  {
    hide NoRepeats, OpeningOk, TimeOfRound, Verdict;
    if forall i :: 0 <= i < |c.round.bidders| ==> IsRevealed(c, c.round.bidders[i]) {
      forall b | b in c.subs ensures c.subs[b].opening.Some? {
        var i :| 0 <= i < |c.round.bidders| && c.round.bidders[i] == b;
        assert IsRevealed(c, c.round.bidders[i]);
      }
    }
  }

  /** If some submission cannot be read, a round in its window counts as still revealing. */
  lemma UnreadableCountsAsPending(revealDeadline: U64, bidderCount: nat, now: U64, w: Option<RevealState>)
    requires now <= revealDeadline
    ensures Decide(Revealing, revealDeadline, bidderCount, None, now, w) == RevealingBids
  {
  }

  function Announced(p: Phase): Option<Op> {
    match p
    case StaleOpen => Some(Void)
    case ReadyToClear => Some(Clear)
    case ReadyToSettle => Some(Settle)
    case _ => None
  }

  /** In every reachable state an announced action not only passes the guards but succeeds,
      transfers included; and once the grace period is over, the planner announces one for
      every round that has not ended. */
  lemma AnnouncedActionsSucceed(h: Host, s: State, f: Family, id: nat)
    requires Reachable(h, s) && id in Cells(s, f)
    ensures var c := Cells(s, f)[id];
            var action := Announced(Plan(c, s.now));
            && (action.Some? ==> Step(h, s, CallOn(f, id, action.value)).outcome.Done?)
            && (s.now > c.round.revealDeadline + VOID_GRACE ==> action.Some? || Terminal(c.round))
  {
    hide Reachable, StateInv, Solvent, Step, Closed, Verdict, CellInv;
    ReachableIsGood(h, s);
    var c := Cells(s, f)[id];
    if Announced(Plan(c, s.now)).Some? {
      RecordIsGood(h, s, f, id);
      AnnouncedActionsAreEnabled(h, f, id, c, s.now);
      NoStuckRound(h, s, f, id);
    }
  }

  predicate Idle(p: Phase) {
    p == Complete || p == AwaitingVoid || p == AwaitingClear
  }

  lemma IdleRefusesReveals(h: Host, f: Family, c: Cell, now: U64, b: Address)
    requires CellInv(h, f, c) && Idle(Plan(c, now))
    ensures RevealRefusal(c, now, b).Some?
  {
    hide NoRepeats, Verdict, OpeningOk;
    if b in c.subs && c.round.status == Revealing && now <= c.round.revealDeadline {
      var i :| 0 <= i < |c.round.bidders| && c.round.bidders[i] == b;
      assert IsRevealed(c, c.round.bidders[i]);
    }
  }

  lemma IdleFacts(h: Host, f: Family, c: Cell, now: U64)
    requires CellInv(h, f, c) && Idle(Plan(c, now))
    ensures match c.round.status
            case Open =>
              && f == V2 && c.round.version == 3 && c.window.Some?
              && c.round.commitDeadline < c.round.revealDeadline < now <= c.round.revealDeadline + VOID_GRACE
            case Revealing => now <= c.round.revealDeadline
            case Cleared => false
            case _ => true
  {
    hide NoRepeats, Verdict, OpeningOk;
  }

  /** In the three idle phases no call by anybody can change the round. */
  lemma IdlePhasesAreIdle(h: Host, f: Family, id: nat, c: Cell, now: U64, auth: set<Address>, op: Op)
    requires CellInv(h, f, c) && Idle(Plan(c, now))
    ensures !OpAttempt(h, f, id, c, now, auth, op).Go?
  {
    hide CellInv, Idle, Plan, RevealRefusal, RefundAllMoves, SettleMoves, MarkSettled, VoidedCell, Verdict, Preimage, OnChain;
    IdleFacts(h, f, c, now);
    if op.RevealBid? || op.RevealEnvelope? {
      IdleRefusesReveals(h, f, c, now, op.revealed);
    }
  }

  /** Awaiting the owner: every opening that succeeds was authorised by the operator. */
  lemma AwaitingOwnerMeansGated(h: Host, c: Cell, now: U64, auth: set<Address>, signature: Bytes)
    requires CellInv(h, V2, c) && Plan(c, now) == AwaitingOwner
    ensures OpenAttempt(h, V2, c, now, auth, signature).Go? <==>
              TimeOfRound(h, c.round.revealRound) <= now && c.round.operator in auth && h.drand(c.round.revealRound, signature)
  {
    OpeningEnabled(h, c, now, auth, signature);
  }

  /** Awaiting Drand: anybody who holds the round's signature can open, and nobody else; a
      v3 round also waits for the scheduled time of the Drand round. */
  lemma AwaitingDrandMeansOpenable(h: Host, f: Family, c: Cell, now: U64, auth: set<Address>, signature: Bytes)
    requires CellInv(h, f, c) && Plan(c, now) == AwaitingDrand
    ensures OpenAttempt(h, f, c, now, auth, signature).Go? <==>
              && h.drand(c.round.revealRound, signature)
              && (if c.round.version == 3 then TimeOfRound(h, c.round.revealRound) <= now else now > c.round.commitDeadline)
  {
    hide NoRepeats, OpeningOk, RevealedUpTo;
  }

  /** While bids are being revealed the round cannot be cleared, and some bidder is left. */
  lemma RevealingMeansPending(h: Host, f: Family, id: nat, c: Cell, now: U64)
    requires CellInv(h, f, c)
    ensures Plan(c, now) == RevealingBids <==>
              c.round.status == Revealing && now <= c.round.revealDeadline && exists b :: b in c.subs && !IsRevealed(c, b)
    ensures Plan(c, now) == RevealingBids ==> ClearAttempt(h, f, id, c, now) == Refused(RevealStillOpen)
  {
    hide RefundAllMoves, SettleMoves, MarkSettled, NoRepeats, VoidedCell, OpeningOk, Verdict;
    if forall i :: 0 <= i < |c.round.bidders| ==> IsRevealed(c, c.round.bidders[i]) {
      forall b | b in c.subs ensures IsRevealed(c, b) {
        var i :| 0 <= i < |c.round.bidders| && c.round.bidders[i] == b;
      }
    }
  }
}
