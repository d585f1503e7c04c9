/** The closing passes of the keeper (services/keeper/src/keeper.ts, `closeRound` and
    `closeRoundV2`) against a contract and a guard that others are also driving. Whatever
    the others do between two awaits of the pass is a parameter. */
module Keeper {
  import opened Base
  import opened Optimum
  import opened Tokens
  import opened Rounds
  import opened Clearing
  import opened Rules
  import opened Invariants
  import opened Machine
  import opened Exits
  import opened Histories
  import opened Contract
  import G = Guard

  /** What others do to the contract and to the shared guard while the pass waits. */
  datatype Interlude = Interlude(events: seq<Event>, deeds: seq<G.Deed>)

  /** The awaits of a closing pass: until the clear is executed, until the round is read
      again, until the guard is asked, until the settlement is executed, until its result is
      back, and until the round is read a last time. */
  datatype Others = Others(beforeClear: Interlude, beforeRead: Interlude, beforeAsk: Interlude, beforeSettle: Interlude,
                           beforeResult: Interlude, beforeLast: Interlude)

  datatype CloseResult = CloseResult(
    roundId: nat,
    cleared: bool,
    settled: bool,
    voided: bool,
    winner: Option<Address>,
    finalStatus: Status,
    skipped: seq<Skip>)

  datatype Skip = WindowOpen | ClearSkipped(error: Error) | Suppressed | SettleSkipped(error: Error) | AlreadyEnded | VoidedAtClear

  /** A pass reports, or rethrows what the contract answered. */
  datatype Ending = Report(result: CloseResult) | Throw(outcome: Outcome)

  ghost predicate Fair(h: Host, i: Interlude) {
    AllHonest(h, i.events) && AllCallable(i.events)
  }

  ghost predicate AllFair(h: Host, o: Others) {
    Fair(h, o.beforeClear) && Fair(h, o.beforeRead) && Fair(h, o.beforeAsk) && Fair(h, o.beforeSettle)
    && Fair(h, o.beforeResult) && Fair(h, o.beforeLast)
  }

  predicate ToleratedByClear(f: Family, e: Error) {
    e == AlreadyCleared || e == RevealStillOpen || e == WrongStatus || e == RoundVoided || (f == V2 && e == AlreadySettled)
  }

  predicate ToleratedBySettle(e: Error) {
    e == AlreadySettled || e == NotCleared || e == WrongStatus
  }

  // ---- What the pass can meet ----

  /** The records satisfy the invariant and every liability is covered, as in all reachable
      states. */
  ghost predicate Good(h: Host, s: State) {
    StateInv(h, s) && Solvent(h, s)
  }

  lemma RunStaysGood(h: Host, s: State, es: seq<Event>)
    requires Good(h, s) && AllHonest(h, es)
    ensures Good(h, Run(h, s, es))
  {
    hide StateInv, Solvent;
    RunKeepsState(h, s, es);
    RunStaysSolvent(h, s, es);
  }

  /** How far a round can get from one status to another, with the clock. */
  predicate Later(f: Family, c: Cell, d: Cell) {
    && Rank(d.round.status) <= Rank(c.round.status)
    && (c.round.status != Open ==> d.round.status != Open)
    && (c.round.winner.Some? ==> d.round.winner == c.round.winner)
    && (c.round.status == Cleared ==> d.round.status == Cleared || d.round.status == Settled)
    && d.round.revealDeadline == c.round.revealDeadline && d.round.mode == c.round.mode
    && (Terminal(c.round) ==> d == c)
  }

  lemma EvolvingIsLater(h: Host, f: Family, c: Cell, d: Cell)
    requires CellInv(h, f, c) && CellInv(h, f, d) && Evolves(c, d)
    ensures Later(f, c, d)
  {
    hide Verdict, NoRepeats, SameBids, RevealsKept, OpeningOk;
  }

  lemma {:induction false} RunMovesOn(h: Host, s: State, es: seq<Event>, f: Family, id: nat)
    requires Good(h, s) && AllHonest(h, es) && id in Cells(s, f)
    ensures var t := Run(h, s, es);
            s.now <= t.now && id in Cells(t, f) && Later(f, Cells(s, f)[id], Cells(t, f)[id])
  {
    hide Solvent, CellInv, Evolves, Later;
    RunEvolves(h, s, es, f, id);
    RunKeepsState(h, s, es);
    EvolvingIsLater(h, f, Cells(s, f)[id], Cells(Run(h, s, es), f)[id]);
    ClockMovesOn(h, s, es);
  }

  lemma {:induction false} ClockMovesOn(h: Host, s: State, es: seq<Event>)
    ensures s.now <= Run(h, s, es).now
  {
    if es != [] {
      hide Step;
      ClockMovesOn(h, s, es[..|es| - 1]);
      StepMovesClock(h, Run(h, s, es[..|es| - 1]), es[|es| - 1]);
    }
  }

  lemma StepMovesClock(h: Host, s: State, e: Event)
    ensures s.now <= Step(h, s, e).state.now
  {
    hide OpAttempt, CreateV1Attempt, CreateV2Attempt, CreateV3Attempt, TransferAll;
  }

  /** A clear of a round that has left Open: it succeeds after the deadline if the round is
      still revealing, and otherwise says how far the round already is. It never traps. */
  lemma ClearMeets(h: Host, s: State, f: Family, id: nat)
    requires Good(h, s) && id in Cells(s, f) && Cells(s, f)[id].round.status != Open
    ensures var r := Step(h, s, CallOn(f, id, Clear));
            var c := Cells(s, f)[id];
            match c.round.status
            case Revealing =>
              if s.now <= c.round.revealDeadline then r.outcome == Fail(RevealStillOpen) && r.state == s
              else id in Cells(r.state, f) && r.outcome == Done(Winner(Cells(r.state, f)[id].round.winner))
                   && Rank(Cells(r.state, f)[id].round.status) <= 1
                   && (c.round.mode == ReceiptOnly ==> Cells(r.state, f)[id].round.status == Settled)
            case Cleared => r.outcome == Fail(AlreadyCleared) && r.state == s
            case Settled => r.outcome == Fail(AlreadySettled) && r.state == s
            case _ => r.outcome == Fail(RoundVoided) && r.state == s
  {
    hide Solvent, TransferAll, RefundAllMoves, Verdict, Step, MarkSettled, CellInv;
    StepOnRound(h, s, f, id, {}, Clear);
    if Cells(s, f)[id].round.status == Revealing {
      RefundsCannotFail(h, s, f, id);
      TransferNothing(s.ledger);
      NoWinnerYet(h, f, Cells(s, f)[id]);
      if Cells(s, f)[id].round.mode == ReceiptOnly {
        ReceiptOnlyIsV2(h, s, f, id);
      }
    }
  }

  lemma NoWinnerYet(h: Host, f: Family, c: Cell)
    requires CellInv(h, f, c) && (c.round.status == Open || c.round.status == Revealing)
    ensures c.round.winner == None
  {
    hide Verdict, NoRepeats;
  }

  /** A settlement of a round that was seen Cleared either settles it or finds it settled. */
  lemma SettleMeets(h: Host, s: State, f: Family, id: nat)
    requires Good(h, s) && id in Cells(s, f)
    requires Cells(s, f)[id].round.status == Cleared || Cells(s, f)[id].round.status == Settled
    ensures var r := Step(h, s, CallOn(f, id, Settle));
            && id in Cells(r.state, f) && Cells(r.state, f)[id].round.status == Settled
            && r.outcome == if Cells(s, f)[id].round.status == Cleared then Done(Unit) else Fail(AlreadySettled)
  {
    hide StateInv, Solvent, TransferAll, Step, SettleMoves, MarkSettled, Closed;
    StepOnRound(h, s, f, id, {}, Settle);
    if Cells(s, f)[id].round.status == Cleared {
      SettlementSucceeds(h, s, f, id);
    }
  }

  /** A settlement and a clear by somebody else can both fall into one await. */
  lemma AnotherKeeperCloses(h: Host, s: State, f: Family, id: nat)
    requires Good(h, s) && id in Cells(s, f) && Cells(s, f)[id].round.status == Revealing
    requires Overdue(f, Cells(s, f)[id], s.now) && ExitPlan(Cells(s, f)[id]) == [Clear, Settle]
    ensures var es := [CallOn(f, id, Clear), CallOn(f, id, Settle)];
            && Fair(h, Interlude(es, []))
            && id in Cells(Run(h, s, es), f) && Cells(Run(h, s, es), f)[id].round.status == Settled
  {
    hide StateInv, Solvent, Step, Verdict;
    var one, es := [CallOn(f, id, Clear)], [CallOn(f, id, Clear), CallOn(f, id, Settle)];
    assert one[..0] == [] && es[..1] == one;
    assert Run(h, s, one[..0]) == s;
    RunStaysGood(h, s, one);
    ClearClears(h, s, f, id);
    var t := Step(h, s, CallOn(f, id, Clear)).state;
    assert Run(h, s, one) == t;
    SettlementSucceeds(h, t, f, id);
    assert Run(h, s, es) == Step(h, t, CallOn(f, id, Settle)).state;
  }

  // ---- The passes ----

  /** Others run against the contract and the guard while the pass waits. */
  method Await(contract: RoundContract, guard: G.SettlementGuard, i: Interlude, ghost f: Family, ghost id: nat)
    requires contract.Valid() && Good(contract.host, contract.View()) && G.Kept(guard.View())
    requires Fair(contract.host, i) && id in contract.Records(f)
    modifies contract, guard
    ensures contract.Valid() && Good(contract.host, contract.View()) && G.Kept(guard.View())
    ensures contract.View() == Run(contract.host, old(contract.View()), i.events)
    ensures guard.View() == G.DoneAll(old(guard.View()), i.deeds)
    ensures old(contract.now) <= contract.now
    ensures id in contract.Records(f) && Later(f, old(contract.Records(f)[id]), contract.Records(f)[id])
  {
    hide Good, Later;
    RunStaysGood(contract.host, contract.View(), i.events);
    RunMovesOn(contract.host, contract.View(), i.events, f, id);
    contract.PerformAll(i.events);
    guard.ApplyAll(i.deeds);
  }

  /** The clear call of a pass. */
  method CallClear(contract: RoundContract, f: Family, id: nat) returns (out: Outcome)
    requires contract.Valid() && Good(contract.host, contract.View())
    requires id in contract.Records(f) && contract.Records(f)[id].round.status != Open
    modifies contract
    ensures contract.Valid() && Good(contract.host, contract.View())
    ensures old(contract.now) <= contract.now
    ensures id in contract.Records(f) && Later(f, old(contract.Records(f)[id]), contract.Records(f)[id])
    ensures out.Done? ==> out == Done(Winner(contract.Records(f)[id].round.winner))
                          && Rank(contract.Records(f)[id].round.status) <= 1
    ensures !out.Done? ==> match old(contract.Records(f)[id]).round.status
                           case Revealing => out == Fail(RevealStillOpen)
                                             && old(contract.now <= contract.Records(f)[id].round.revealDeadline)
                           case Cleared => out == Fail(AlreadyCleared)
                           case Settled => out == Fail(AlreadySettled)
                           case _ => out == Fail(RoundVoided)
    ensures out.Done? <==> old(contract.Records(f)[id]).round.status == Revealing
                           && old(contract.now > contract.Records(f)[id].round.revealDeadline)
    ensures out.Done? && old(contract.Records(f)[id]).round.mode == ReceiptOnly ==> contract.Records(f)[id].round.status == Settled
    ensures contract.View() == Step(contract.host, old(contract.View()), CallOn(f, id, Op.Clear)).state
  {
    hide Good, Later, Step;
    ghost var s := contract.View();
    ClearMeets(contract.host, s, f, id);
    OneCall(contract.host, s, CallOn(f, id, Clear), f, id);
    if f == V1 {
      out := contract.Clear({}, id);
    } else {
      out := contract.ClearV2({}, id);
    }
  }

  lemma OneCall(h: Host, s: State, e: Event, f: Family, id: nat)
    requires Good(h, s) && Honest(h, e) && id in Cells(s, f)
    ensures var t := Step(h, s, e).state;
            Good(h, t) && s.now <= t.now && id in Cells(t, f) && Later(f, Cells(s, f)[id], Cells(t, f)[id])
  {
    hide Good, Later, Step;
    assert [e][..0] == [];
    assert Run(h, s, [e][..0]) == s && Run(h, s, [e]) == Step(h, s, e).state;
    RunStaysGood(h, s, [e]);
    RunMovesOn(h, s, [e], f, id);
  }

  /** The settle call of a pass. */
  method CallSettle(contract: RoundContract, f: Family, id: nat) returns (out: Outcome)
    requires contract.Valid() && Good(contract.host, contract.View()) && id in contract.Records(f)
    requires var st := contract.Records(f)[id].round.status; st == Cleared || st == Settled
    modifies contract
    ensures contract.Valid() && Good(contract.host, contract.View())
    ensures id in contract.Records(f) && contract.Records(f)[id].round.status == Settled
    ensures out == if old(contract.Records(f)[id]).round.status == Cleared then Done(Unit) else Fail(AlreadySettled)
    ensures Later(f, old(contract.Records(f)[id]), contract.Records(f)[id])
    ensures contract.View() == Step(contract.host, old(contract.View()), CallOn(f, id, Op.Settle)).state
  {
    hide Good, Later, Step;
    ghost var s := contract.View();
    SettleMeets(contract.host, s, f, id);
    OneCall(contract.host, s, CallOn(f, id, Settle), f, id);
    if f == V1 {
      out := contract.Settle({}, id);
    } else {
      out := contract.SettleV2({}, id);
    }
  }

  /** What a pass can learn from the clear of a round it saw revealing. */
  ghost predicate ClearAnswer(out: Outcome, c: Cell, d: Cell, now: U64) {
    if out.Done? then out == Done(Winner(d.round.winner)) && Rank(d.round.status) <= 1
    else
      || (out == Fail(RevealStillOpen) && now <= c.round.revealDeadline)
      || ((out == Fail(AlreadyCleared) || out == Fail(AlreadySettled) || out == Fail(RoundVoided)) && Rank(d.round.status) <= 1)
  }

  predicate StatusIs(s: State, f: Family, id: nat, status: Status) {
    id in Cells(s, f) && Cells(s, f)[id].round.status == status
  }

  /** The contract when the clear call of a pass is executed ... */
  function AtClear(h: Host, s: State, o: Others): State {
    Run(h, s, o.beforeClear.events)
  }

  /** ... when the pass reads the round again, if it tried to clear at all ... */
  function AtSecondRead(h: Host, s: State, f: Family, id: nat, o: Others): State {
    if StatusIs(s, f, id, Revealing) then Run(h, Step(h, AtClear(h, s, o), CallOn(f, id, Op.Clear)).state, o.beforeRead.events) else s
  }

  /** ... and when its settle call is executed. */
  function AtSettle(h: Host, s: State, f: Family, id: nat, o: Others): State {
    Run(h, Run(h, AtSecondRead(h, s, f, id, o), o.beforeAsk.events), o.beforeSettle.events)
  }

  /** The guard's book when the pass asks it. */
  function AtAsk(s: State, b: G.Book, f: Family, id: nat, o: Others): G.Book {
    G.DoneAll(if StatusIs(s, f, id, Revealing) then G.DoneAll(G.DoneAll(b, o.beforeClear.deeds), o.beforeRead.deeds) else b,
              o.beforeAsk.deeds)
  }

  /** The clear call of a pass that found the round revealing is the one that clears it. */
  predicate ClearsIt(h: Host, s: State, f: Family, id: nat, o: Others) {
    var t := AtClear(h, s, o);
    StatusIs(t, f, id, Revealing) && t.now > Cells(t, f)[id].round.revealDeadline
  }

  /** The pass leaves because its own clock says that the reveal window is still open. */
  predicate LeavesEarly(s: State, f: Family, id: nat, clock: nat) {
    StatusIs(s, f, id, Revealing) && clock <= Cells(s, f)[id].round.revealDeadline
  }

  /** The pass sees the round cleared and wants to settle it. */
  predicate WantsToSettle(h: Host, s: State, f: Family, id: nat, clock: nat, o: Others) {
    !LeavesEarly(s, f, id, clock) && StatusIs(AtSecondRead(h, s, f, id, o), f, id, Cleared)
  }

  /** Exactly when each flag of a report is set: cleared if this pass's clear was the one that
      went through; suppressed if it wanted to settle and the guard's entry was not pending;
      settled if its settlement was the one that went through, or, receipt-only, if its clear
      was. */
  ghost predicate FlagsTell(h: Host, s: State, b: G.Book, guarded: bool, f: Family, id: nat, clock: nat, o: Others, r: CloseResult) {
    && id in Cells(s, f)
    && (r.cleared <==> StatusIs(s, f, id, Revealing) && !LeavesEarly(s, f, id, clock) && ClearsIt(h, s, f, id, o))
    && (Suppressed in r.skipped <==>
          WantsToSettle(h, s, f, id, clock, o) && guarded && G.StatusOf(AtAsk(s, b, f, id, o), id) != G.Pending)
    && (r.settled <==>
          if Cells(s, f)[id].round.mode == ReceiptOnly then r.cleared
          else WantsToSettle(h, s, f, id, clock, o) && Suppressed !in r.skipped
               && StatusIs(AtSettle(h, s, f, id, o), f, id, Cleared))
  }

  /** The clear phase: from the first read of a revealing round to the second read. */
  method ClearPhase(contract: RoundContract, guard: G.SettlementGuard, f: Family, id: nat, o: Others) returns (out: Outcome)
    requires contract.Valid() && Good(contract.host, contract.View()) && G.Kept(guard.View())
    requires AllFair(contract.host, o) && id in contract.Records(f) && contract.Records(f)[id].round.status == Revealing
    modifies contract, guard
    ensures contract.Valid() && Good(contract.host, contract.View()) && G.Kept(guard.View())
    ensures id in contract.Records(f) && Later(f, old(contract.Records(f)[id]), contract.Records(f)[id])
    ensures ClearAnswer(out, old(contract.Records(f)[id]), contract.Records(f)[id], old(contract.now))
    ensures out.Done? <==> ClearsIt(contract.host, old(contract.View()), f, id, o)
    ensures out == Fail(AlreadySettled) <==> StatusIs(AtClear(contract.host, old(contract.View()), o), f, id, Settled)
    ensures contract.View() == AtSecondRead(contract.host, old(contract.View()), f, id, o)
    ensures guard.View() == G.DoneAll(G.DoneAll(old(guard.View()), o.beforeClear.deeds), o.beforeRead.deeds)
    ensures out.Done? && old(contract.Records(f)[id]).round.mode == ReceiptOnly ==> contract.Records(f)[id].round.status == Settled
  {
    hide Good, Step, Run, Fair, G.Kept, G.DoneAll, G.StatusOf;
    Await(contract, guard, o.beforeClear, f, id);
    out := CallClear(contract, f, id);
    UndecidedUntilCleared(contract.host, contract.View(), f, id);
    Await(contract, guard, o.beforeRead, f, id);
  }

  /** The clear branch of a closing pass: whether its clear went through, with which winner,
      what it skips over, and the error it rethrows: only v1 does, and only AlreadySettled. */
  method ClearOrSkip(contract: RoundContract, guard: G.SettlementGuard, f: Family, id: nat, o: Others)
    returns (cleared: bool, winner: Option<Address>, skips: seq<Skip>, rethrows: bool, out: Outcome)
    requires contract.Valid() && Good(contract.host, contract.View()) && G.Kept(guard.View())
    requires AllFair(contract.host, o) && id in contract.Records(f) && contract.Records(f)[id].round.status == Revealing
    modifies contract, guard
    ensures contract.Valid() && Good(contract.host, contract.View()) && G.Kept(guard.View())
    ensures id in contract.Records(f) && Later(f, old(contract.Records(f)[id]), contract.Records(f)[id])
    ensures contract.View() == AtSecondRead(contract.host, old(contract.View()), f, id, o)
    ensures guard.View() == G.DoneAll(G.DoneAll(old(guard.View()), o.beforeClear.deeds), o.beforeRead.deeds)
    ensures cleared <==> ClearsIt(contract.host, old(contract.View()), f, id, o)
    ensures cleared ==> winner == contract.Records(f)[id].round.winner
    ensures !cleared ==> winner == None
    ensures cleared && old(contract.Records(f)[id]).round.mode == ReceiptOnly ==> contract.Records(f)[id].round.status == Settled
    ensures cleared || old(contract.now > contract.Records(f)[id].round.revealDeadline) ==>
              Rank(contract.Records(f)[id].round.status) <= 1
    ensures Suppressed !in skips
    ensures rethrows <==> f == V1 && StatusIs(AtClear(contract.host, old(contract.View()), o), f, id, Settled)
    ensures rethrows ==> out == Fail(AlreadySettled)
  {
    hide Good, Step, Later, StatusIs, ClearsIt, AtClear, AtSecondRead, AllFair, G.Kept, G.DoneAll;
    out := ClearPhase(contract, guard, f, id, o);
    cleared, winner, skips, rethrows := false, None, [], false;
    if out.Done? {
      cleared, winner := true, out.value.winner;
    } else if out.Fail? && ToleratedByClear(f, out.error) {
      skips := [ClearSkipped(out.error)];
    } else {
      rethrows := true;
    }
  }

  /** The awaited settlement of a round that was seen cleared. */
  method AwaitSettlement(contract: RoundContract, guard: G.SettlementGuard, f: Family, id: nat, o: Others)
    returns (out: Outcome)
    requires contract.Valid() && Good(contract.host, contract.View()) && G.Kept(guard.View())
    requires AllFair(contract.host, o) && id in contract.Records(f)
    requires var st := contract.Records(f)[id].round.status; st == Cleared || st == Settled
    modifies contract, guard
    ensures contract.Valid() && Good(contract.host, contract.View()) && G.Kept(guard.View())
    ensures id in contract.Records(f) && Later(f, old(contract.Records(f)[id]), contract.Records(f)[id])
    ensures (out == Done(Unit) || out == Fail(AlreadySettled)) && contract.Records(f)[id].round.status == Settled
    ensures out.Done? <==> StatusIs(Run(contract.host, old(contract.View()), o.beforeSettle.events), f, id, Cleared)
  {
    hide Good, Step, Run, Fair, G.Kept, G.DoneAll;
    Await(contract, guard, o.beforeSettle, f, id);
    out := CallSettle(contract, f, id);
    Await(contract, guard, o.beforeResult, f, id);
  }

  /** `submitSettlement`: asking and reserving is one step; the settlement of a round that was
      seen cleared either succeeds or finds it settled, and the guard records which. A pass
      that is turned away was so because the entry was not pending. */
  method SubmitSettlement(contract: RoundContract, guard: G.SettlementGuard, guarded: bool, f: Family, id: nat, at: nat,
                          message: string, o: Others)
    returns (sent: bool, out: Outcome)
    requires contract.Valid() && Good(contract.host, contract.View()) && G.Kept(guard.View())
    requires AllFair(contract.host, o) && id in contract.Records(f)
    requires var st := contract.Records(f)[id].round.status; st == Cleared || st == Settled
    modifies contract, guard
    ensures contract.Valid() && Good(contract.host, contract.View()) && G.Kept(guard.View())
    ensures id in contract.Records(f) && Later(f, old(contract.Records(f)[id]), contract.Records(f)[id])
    ensures sent <==> !guarded || G.StatusOf(old(guard.View()), id) == G.Pending
    ensures sent ==> (out == Done(Unit) || out == Fail(AlreadySettled)) && contract.Records(f)[id].round.status == Settled
    ensures sent ==> (out.Done? <==> StatusIs(Run(contract.host, old(contract.View()), o.beforeSettle.events), f, id, Cleared))
    ensures sent && guarded ==> G.StatusOf(guard.View(), id) == if out.Done? then G.Finished else G.Pending
    ensures !sent ==> contract.View() == old(contract.View())
  {
    hide Good, Step, Run, Fair, Later, AllFair, StatusIs, G.Kept, G.DoneAll, G.Tracked, G.Marked, G.StatusOf;
    StaysWhereItIs(f, contract.Records(f)[id]);
    out := Done(Unit);
    if guarded {
      var check := guard.CanSettle(id, at);
      if check.Skipped? {
        return false, out;
      }
      guard.MarkSubmitted(id, at);
    }
    out := AwaitSettlement(contract, guard, f, id, o);
    if guarded {
      if out.Done? {
        MarkedStatus(guard.View(), id, at, G.Finished, "settled on-chain");
        guard.MarkTerminal(id, at, "settled on-chain");
      } else {
        MarkedStatus(guard.View(), id, at, G.Pending, "retryable: " + message);
        guard.MarkRetryable(id, at, message);
      }
    }
    sent := true;
  }

  /** The settle phase: from the read of a cleared round to the last read. */
  method SettlePhase(contract: RoundContract, guard: G.SettlementGuard, guarded: bool, f: Family, id: nat, at: nat,
                     message: string, o: Others)
    returns (sent: bool, out: Outcome)
    requires contract.Valid() && Good(contract.host, contract.View()) && G.Kept(guard.View())
    requires AllFair(contract.host, o) && id in contract.Records(f) && contract.Records(f)[id].round.status == Cleared
    modifies contract, guard
    ensures contract.Valid() && Good(contract.host, contract.View()) && G.Kept(guard.View())
    ensures id in contract.Records(f) && Later(f, old(contract.Records(f)[id]), contract.Records(f)[id])
    ensures sent <==> !guarded || G.StatusOf(G.DoneAll(old(guard.View()), o.beforeAsk.deeds), id) == G.Pending
    ensures sent ==> (out.Done? <==>
              StatusIs(Run(contract.host, Run(contract.host, old(contract.View()), o.beforeAsk.events), o.beforeSettle.events), f, id, Cleared))
    ensures sent ==> (out == Done(Unit) || out == Fail(AlreadySettled)) && contract.Records(f)[id].round.status == Settled
  {
    hide Good, Step, Run, Fair, G.Kept, G.DoneAll, G.StatusOf;
    Await(contract, guard, o.beforeAsk, f, id);
    sent, out := SubmitSettlement(contract, guard, guarded, f, id, at, message, o);
    Await(contract, guard, o.beforeLast, f, id);
  }

  /** The settle branch of a closing pass: what it reports, what it skips over, and the error
      it would rethrow, which never happens. */
  method SettleOrSkip(contract: RoundContract, guard: G.SettlementGuard, guarded: bool, f: Family, id: nat, at: nat,
                      message: string, o: Others)
    returns (settled: bool, skips: seq<Skip>, rethrows: bool, out: Outcome)
    requires contract.Valid() && Good(contract.host, contract.View()) && G.Kept(guard.View())
    requires AllFair(contract.host, o) && id in contract.Records(f) && contract.Records(f)[id].round.status == Cleared
    modifies contract, guard
    ensures contract.Valid() && Good(contract.host, contract.View()) && G.Kept(guard.View())
    ensures id in contract.Records(f) && Later(f, old(contract.Records(f)[id]), contract.Records(f)[id])
    ensures !rethrows
    ensures Suppressed in skips <==> guarded && G.StatusOf(G.DoneAll(old(guard.View()), o.beforeAsk.deeds), id) != G.Pending
    ensures settled <==>
              && Suppressed !in skips
              && StatusIs(Run(contract.host, Run(contract.host, old(contract.View()), o.beforeAsk.events), o.beforeSettle.events), f, id, Cleared)
    ensures Suppressed !in skips ==> contract.Records(f)[id].round.status == Settled
  {
    hide Good, Step, Run, Fair, Later, StatusIs, G.Kept, G.DoneAll, G.StatusOf;
    settled, skips, rethrows := false, [], false;
    var sent;
    sent, out := SettlePhase(contract, guard, guarded, f, id, at, message, o);
    if !sent {
      skips := [Suppressed];
    } else if out.Done? {
      settled := true;
    } else if out.Fail? && ToleratedBySettle(out.error) {
      skips := [SettleSkipped(out.error)];
    } else {
      rethrows := true;
    }
  }

  lemma StaysWhereItIs(f: Family, c: Cell)
    ensures Later(f, c, c)
  {
  }

  lemma MarkedStatus(b: G.Book, id: nat, at: nat, status: G.GuardStatus, reason: string)
    ensures G.StatusOf(G.Marked(b, id, at, status, reason), id) == status
  {
  }

  /** What a report says agrees with the contract at the last read. */
  ghost predicate Truthful(r: CloseResult, c: Cell) {
    && r.finalStatus == c.round.status
    && r.winner == c.round.winner
    && (r.settled ==> c.round.status == Settled)
    && (r.voided ==> c.round.status == Voided)
    && (r.cleared ==> Rank(c.round.status) <= 1)
  }

  /** Nothing keeps the pass from ending the round: it is past its reveal deadline, both by
      the ledger's clock and by the keeper's. */
  predicate Due(c: Cell, now: U64, clock: nat) {
    c.round.status == Cleared || (c.round.status == Revealing && now > c.round.revealDeadline && clock > c.round.revealDeadline)
  }

  /** A Core v2 closing pass never rethrows an answer of the contract, whatever the other
      callers and passes do while it waits and whatever its own clock says; only an unknown
      round is an error. Its report is the truth at the last read, and a due round that the
      guard does not hold back is Settled or Voided by then. */
  method CloseRoundV2(contract: RoundContract, guard: G.SettlementGuard, guarded: bool, id: nat, clock: nat, at: nat,
                      message: string, o: Others)
    returns (end: Ending)
    requires contract.Valid() && Good(contract.host, contract.View()) && G.Kept(guard.View())
    requires AllFair(contract.host, o)
    modifies contract, guard
    ensures contract.Valid() && Good(contract.host, contract.View()) && G.Kept(guard.View())
    ensures end.Throw? <==> id !in old(contract.v2)
    ensures end.Throw? ==> end.outcome == Fail(RoundNotFound)
    ensures end.Report? ==> id in contract.v2 && Truthful(end.result, contract.v2[id])
    ensures end.Report? ==> (end.result.voided <==> end.result.finalStatus == Voided)
    ensures end.Report? && old(Due(contract.v2[id], contract.now, clock)) && Suppressed !in end.result.skipped ==>
              end.result.finalStatus == Settled || end.result.finalStatus == Voided
    ensures end.Report? ==> FlagsTell(contract.host, old(contract.View()), old(guard.View()), guarded, V2, id, clock, o, end.result)
  {
    hide Good, Step, Run, AllFair, ClearsIt, AtClear, AtSecondRead, CallOn, G.Kept, G.DoneAll, G.StatusOf;
    SecondReadUnlessRevealing(contract.host, contract.View(), V2, id, o);
    if id !in contract.v2 {
      return Throw(Fail(RoundNotFound));
    }
    var result := CloseResult(id, false, false, false, None, Open, []);
    var round := contract.v2[id].round;
    UndecidedUntilCleared(contract.host, contract.View(), V2, id);
    if round.status == Revealing {
      if clock <= round.revealDeadline {
        return Report(result.(skipped := [WindowOpen], finalStatus := round.status));
      }
      var cleared, winner, skips, rethrows, out := ClearOrSkip(contract, guard, V2, id, o);
      if rethrows {
        return Throw(out);
      }
      result := result.(cleared := cleared, winner := winner, skipped := skips);
      round := contract.v2[id].round;
    }
    UndecidedUntilCleared(contract.host, contract.View(), V2, id);
    if round.status == Cleared {
      var settled, skips, fails, answer := SettleOrSkip(contract, guard, guarded, V2, id, at, message, o);
      if fails {
        return Throw(answer);
      }
      result := result.(settled := settled, skipped := result.skipped + skips);
      round := contract.v2[id].round;
    } else if round.status == Settled {
      if round.mode == ReceiptOnly && result.cleared {
        result := result.(settled := true);
      } else {
        result := result.(skipped := result.skipped + [AlreadyEnded]);
      }
    } else if round.status == Voided {
      result := result.(voided := true, skipped := result.skipped + [VoidedAtClear]);
    }
    UndecidedUntilCleared(contract.host, contract.View(), V2, id);
    if result.winner == None && round.winner.Some? {
      result := result.(winner := round.winner);
    }
    return Report(result.(finalStatus := round.status));
  }

  /** The v1 closing pass is the same, but its list of tolerated clear errors lacks
      AlreadySettled: it rethrows that answer exactly when another caller has cleared and
      settled the round between the pass's first read and its own clear. */
  method CloseRound(contract: RoundContract, guard: G.SettlementGuard, guarded: bool, id: nat, clock: nat, at: nat,
                    message: string, o: Others)
    returns (end: Ending)
    requires contract.Valid() && Good(contract.host, contract.View()) && G.Kept(guard.View())
    requires AllFair(contract.host, o)
    modifies contract, guard
    ensures contract.Valid() && Good(contract.host, contract.View()) && G.Kept(guard.View())
    ensures id in old(contract.v1) ==>
              (end.Throw? <==> old(Overtaken(contract.host, contract.View(), id, clock, o)))
    ensures id !in old(contract.v1) ==> end == Throw(Fail(RoundNotFound))
    ensures id in old(contract.v1) && end.Throw? ==> end.outcome == Fail(AlreadySettled)
    ensures end.Report? ==> id in contract.v1 && Truthful(end.result, contract.v1[id])
    ensures end.Report? && old(Due(contract.v1[id], contract.now, clock)) && Suppressed !in end.result.skipped ==>
              end.result.finalStatus == Settled || end.result.finalStatus == Voided
    ensures end.Report? ==> FlagsTell(contract.host, old(contract.View()), old(guard.View()), guarded, V1, id, clock, o, end.result)
  {
    hide Good, Step, Run, AllFair, ClearsIt, AtClear, AtSecondRead, CallOn, G.Kept, G.DoneAll, G.StatusOf;
    SecondReadUnlessRevealing(contract.host, contract.View(), V1, id, o);
    if id !in contract.v1 {
      return Throw(Fail(RoundNotFound));
    }
    var result := CloseResult(id, false, false, false, None, Open, []);
    var round := contract.v1[id].round;
    UndecidedUntilCleared(contract.host, contract.View(), V1, id);
    if round.status == Revealing {
      if clock <= round.revealDeadline {
        return Report(result.(skipped := [WindowOpen], finalStatus := round.status));
      }
      var cleared, winner, skips, rethrows, out := ClearOrSkip(contract, guard, V1, id, o);
      if rethrows {
        return Throw(out);
      }
      result := result.(cleared := cleared, winner := winner, skipped := skips, voided := cleared && winner == None);
      round := contract.v1[id].round;
    }
    UndecidedUntilCleared(contract.host, contract.View(), V1, id);
    if round.status == Cleared {
      var settled, skips, fails, answer := SettleOrSkip(contract, guard, guarded, V1, id, at, message, o);
      if fails {
        return Throw(answer);
      }
      result := result.(settled := settled, skipped := result.skipped + skips);
      round := contract.v1[id].round;
    } else if round.status == Settled {
      result := result.(skipped := result.skipped + [AlreadyEnded]);
    } else if round.status == Voided {
      result := result.(skipped := result.skipped + [VoidedAtClear]);
    }
    UndecidedUntilCleared(contract.host, contract.View(), V1, id);
    if result.winner == None && round.winner.Some? {
      result := result.(winner := round.winner);
    }
    return Report(result.(finalStatus := round.status));
  }

  /** When the pass's own clear is executed, somebody else has already settled the round. */
  predicate Overtaken(h: Host, s: State, id: nat, clock: nat, o: Others) {
    && StatusIs(s, V1, id, Revealing) && !LeavesEarly(s, V1, id, clock)
    && StatusIs(AtClear(h, s, o), V1, id, Settled)
  }

  lemma SecondReadUnlessRevealing(h: Host, s: State, f: Family, id: nat, o: Others)
    ensures !StatusIs(s, f, id, Revealing) ==> AtSecondRead(h, s, f, id, o) == s
  {
  }

  lemma UndecidedUntilCleared(h: Host, s: State, f: Family, id: nat)
    requires Good(h, s) && id in Cells(s, f)
    ensures var r := Cells(s, f)[id].round;
            && (r.status == Open || r.status == Revealing || r.status == Voided ==> r.winner == None)
            && (r.status == Cleared ==> r.winner.Some? && r.mode == Auction)
            && (f == V1 ==> r.mode == Auction)
            && (f == V1 && r.status == Settled ==> r.winner.Some?)
  {
    hide Solvent, Verdict, NoRepeats;
  }
}
