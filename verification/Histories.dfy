/** What stays fixed over whole runs: the frozen bid set, recorded reveals, the verdict, the
    reveal policy and the opening time. */
module Histories {
  import opened Base
  import opened Optimum
  import opened Tokens
  import opened Rounds
  import opened Clearing
  import opened Rules
  import opened Invariants
  import opened Payouts
  import opened Machine

  function Rank(s: Status): nat {
    match s
    case Open => 3
    case Revealing => 2
    case Cleared => 1
    case Settled => 0
    case Voided => 0
  }

  /** The same bidders in the same order, with the same commitments and escrows. */
  ghost predicate SameBids(c: Cell, d: Cell) {
    && c.round.bidders == d.round.bidders && c.subs.Keys == d.subs.Keys
    && (forall a :: a in c.subs ==>
          a in d.subs && c.subs[a].commitment == d.subs[a].commitment && c.subs[a].escrow == d.subs[a].escrow)
  }

  /** Whatever was revealed stays recorded exactly so. */
  ghost predicate RevealsKept(c: Cell, d: Cell) {
    forall a :: a in c.subs && c.subs[a].opening.Some? ==>
      a in d.subs && d.subs[a].opening == c.subs[a].opening && d.subs[a].amount == c.subs[a].amount
      && d.subs[a].valid == c.subs[a].valid
  }

  ghost predicate WindowKept(c: Cell, d: Cell) {
    && (c.window.Some? <==> d.window.Some?)
    && (c.window.Some? ==>
          && c.window.value.policy == d.window.value.policy
          && (c.window.value.openedAt.Some? ==> d.window.value.openedAt == c.window.value.openedAt))
  }

  /** The terms never change; the bidder index only grows, and only while the round is open;
      the status only moves forward; a declared winner and an opening time stay; a finished
      round never changes again. */
  ghost predicate Evolves(c: Cell, d: Cell) {
    && d.round == c.round.(status := d.round.status, bidders := d.round.bidders, winner := d.round.winner,
                           winningBid := d.round.winningBid)
    && c.policy == d.policy && WindowKept(c, d)
    && Rank(d.round.status) <= Rank(c.round.status)
    && c.round.bidders <= d.round.bidders
    && (c.round.status != Open ==> d.round.status != Open && SameBids(c, d) && RevealsKept(c, d))
    && (c.round.winner.Some? ==> d.round.winner == c.round.winner && d.round.winningBid == c.round.winningBid)
    && (Terminal(c.round) ==> d == c)
  }

  lemma EvolvesTransitive(a: Cell, b: Cell, c: Cell)
    requires Evolves(a, b) && Evolves(b, c)
    ensures Evolves(a, c)
  {
  }

  lemma CommitEvolves(f: Family, c: Cell, now: U64, op: Op)
    requires op.Commit? && CommitRefusal(f, c, now, op) == None && c.round.winner == None
    ensures Evolves(c, Placed(c, op.bidder, op.commitment, op.escrow))
  {
  }

  lemma MarkingEvolves(c: Cell, d: Cell, onlyEscrowed: bool)
    requires d.subs == c.subs || d.subs == MarkSettled(c.subs, c.round.bidders, onlyEscrowed)
    requires d.round == c.round.(status := d.round.status) && d.policy == c.policy && d.window == c.window
    requires Live(c.round) && Terminal(d.round)
    ensures Evolves(c, d)
  {
    assert d.subs.Keys == c.subs.Keys;
  }

  lemma ClearEvolves(h: Host, f: Family, id: nat, c: Cell, now: U64)
    requires c.round.status == Revealing ==> Undecided(c)
    requires ClearAttempt(h, f, id, c, now).Go?
    ensures Evolves(c, ClearAttempt(h, f, id, c, now).cell)
  {
    hide Verdict, RefundAllMoves, MarkSettled, Evolves;
    var d := ClearAttempt(h, f, id, c, now).cell;
    if d.round.status == Cleared {
      VerdictEvolves(c, d);
    } else {
      MarkingEvolves(c, d, d.round.status == Voided && f == V1);
    }
  }

  lemma VerdictEvolves(c: Cell, d: Cell)
    requires Undecided(c) && c.round.status == Revealing && d.round.status == Cleared
    requires d == c.(round := c.round.(status := Cleared, winner := d.round.winner, winningBid := d.round.winningBid))
    ensures Evolves(c, d)
  {
  }

  lemma RevealEvolves(c: Cell, b: Address, s: Submission)
    requires b in c.subs && c.subs[b].opening == None && Live(c.round)
    requires s.commitment == c.subs[b].commitment && s.escrow == c.subs[b].escrow
    ensures Evolves(c, c.(subs := c.subs[b := s]))
  {
    assert c.subs[b := s].Keys == c.subs.Keys;
  }

  lemma OpenEvolves(h: Host, f: Family, c: Cell, now: U64, auth: set<Address>, signature: Bytes)
    requires CellInv(h, f, c) && OpenAttempt(h, f, c, now, auth, signature).Go?
    ensures Evolves(c, OpenAttempt(h, f, c, now, auth, signature).cell)
  {
  }

  lemma OpEvolves(h: Host, f: Family, id: nat, c: Cell, now: U64, auth: set<Address>, op: Op)
    requires CellInv(h, f, c) && OpAttempt(h, f, id, c, now, auth, op).Go?
    ensures Evolves(c, OpAttempt(h, f, id, c, now, auth, op).cell)
  {
    hide Verdict, RefundAllMoves, SettleMoves, NoRepeats, OpeningOk, MarkSettled, Evolves, OpenAttempt, ClearAttempt;
    var d := OpAttempt(h, f, id, c, now, auth, op).cell;
    match op
    case Commit(_, _, _, _, _) => CommitEvolves(f, c, now, op);
    case OpenReveal(signature) => OpenEvolves(h, f, c, now, auth, signature);
    case RevealBid(b, _, _) => RevealEvolves(c, b, d.subs[b]);
    case RevealEnvelope(b, _) => RevealEvolves(c, b, d.subs[b]);
    case Clear => ClearEvolves(h, f, id, c, now);
    case Settle => MarkingEvolves(c, d, false);
    case Void => MarkingEvolves(c, d, f == V1);
  }

  lemma StepEvolves(h: Host, s: State, e: Event, f: Family, id: nat)
    requires StateInv(h, s) && Honest(h, e) && id in Cells(s, f)
    ensures var t := Step(h, s, e).state; id in Cells(t, f) && Evolves(Cells(s, f)[id], Cells(t, f)[id])
  {
    hide CellInv, OpAttempt, TransferAll, CreateV1Attempt, CreateV2Attempt, CreateV3Attempt, Evolves;
    EvolvesReflexive(Cells(s, f)[id]);
    match e.call
    case OnRound(g, other, op) =>
      if g == f && other == id && !(op.Commit? && op.bidder !in e.auth) {
        if OpAttempt(h, f, id, Cells(s, f)[id], s.now, e.auth, op).Go? {
          OpEvolves(h, f, id, Cells(s, f)[id], s.now, e.auth, op);
        }
      }
    case _ =>
  }

  lemma EvolvesReflexive(c: Cell)
    ensures Evolves(c, c)
  {
  }

  /** Over every continuation of every run a round only evolves. */
  lemma {:induction false} RunEvolves(h: Host, s: State, es: seq<Event>, f: Family, id: nat)
    requires StateInv(h, s) && AllHonest(h, es) && id in Cells(s, f)
    ensures id in Cells(Run(h, s, es), f) && Evolves(Cells(s, f)[id], Cells(Run(h, s, es), f)[id])
  {
    hide StateInv, Step, Evolves;
    if es == [] {
      EvolvesReflexive(Cells(s, f)[id]);
    } else {
      var front, last := es[..|es| - 1], es[|es| - 1];
      RunEvolves(h, s, front, f, id);
      RunKeepsState(h, s, front);
      StepEvolves(h, Run(h, s, front), last, f, id);
      EvolvesTransitive(Cells(s, f)[id], Cells(Run(h, s, front), f)[id], Cells(Run(h, s, es), f)[id]);
    }
  }

  /** Once a round has left Open, its bidder order, commitments, escrows and recorded reveals
      are the same in every later state. */
  lemma FrozenBidSet(h: Host, s: State, es: seq<Event>, f: Family, id: nat)
    requires Reachable(h, s) && AllHonest(h, es)
    requires id in Cells(s, f) && Cells(s, f)[id].round.status != Open
    ensures var c, t := Cells(s, f)[id], Run(h, s, es);
            id in Cells(t, f) && Cells(t, f)[id].round.status != Open
            && SameBids(c, Cells(t, f)[id]) && RevealsKept(c, Cells(t, f)[id])
  {
    hide Reachable, StateInv, Run, SameBids, RevealsKept;
    ReachableIsGood(h, s);
    RunEvolves(h, s, es, f, id);
  }

  // ---- Commits ----

  /** Every accepted commit happens strictly before Drand publishes the round's key. */
  lemma CommitsAreEarly(h: Host, s: State, e: Event)
    requires Reachable(h, s) && e.call.OnRound? && e.call.op.Commit? && Step(h, s, e).outcome.Done?
    ensures var c := Cells(s, e.call.family)[e.call.id];
            c.round.status == Open && s.now <= c.round.commitDeadline < TimeOfRound(h, c.round.revealRound)
  {
    hide Reachable, TransferAll, Solvent, CommitRefusal, CellInv, TimeOfRound;
    ReachableIsGood(h, s);
    CommitIsEarly(h, e.call.family, Cells(s, e.call.family)[e.call.id], s.now, e.call.op);
  }

  lemma CommitIsEarly(h: Host, f: Family, c: Cell, now: U64, op: Op)
    requires CellInv(h, f, c) && op.Commit? && CommitRefusal(f, c, now, op) == None
    ensures c.round.status == Open && now <= c.round.commitDeadline < TimeOfRound(h, c.round.revealRound)
  {
  }

  /** The last commit of a bidder that the run accepted. */
  function LastCommit(h: Host, s: State, es: seq<Event>, f: Family, id: nat, b: Address): Option<Op> {
    if es == [] then None
    else
      var front, last := es[..|es| - 1], es[|es| - 1];
      if last.call.OnRound? && last.call.family == f && last.call.id == id && last.call.op.Commit?
         && last.call.op.bidder == b && Step(h, Run(h, s, front), last).outcome.Done?
      then Some(last.call.op)
      else LastCommit(h, s, front, f, id, b)
  }

  /** A record agrees with the last accepted commit of one bidder. */
  ghost predicate Reflects(c: Cell, b: Address, last: Option<Op>) {
    && (b in c.subs <==> last.Some?)
    && (last.Some? ==>
          && last.value.Commit?
          && c.subs[b].commitment == last.value.commitment
          && c.subs[b].escrow == last.value.escrow)
  }

  lemma OpReflects(h: Host, f: Family, id: nat, c: Cell, now: U64, auth: set<Address>, op: Op, b: Address, last: Option<Op>)
    requires OpAttempt(h, f, id, c, now, auth, op).Go? && Reflects(c, b, last)
    ensures var d := OpAttempt(h, f, id, c, now, auth, op).cell;
            Reflects(d, b, if op.Commit? && op.bidder == b then Some(op) else last)
  {
    hide Verdict, RefundAllMoves, SettleMoves, NoRepeats;
  }

  lemma StepReflects(h: Host, s: State, e: Event, f: Family, id: nat, b: Address, last: Option<Op>)
    requires StateInv(h, s)
    requires if id in Cells(s, f) then Reflects(Cells(s, f)[id], b, last) else last == None
    ensures var r := Step(h, s, e);
            var mine := e.call.OnRound? && e.call.family == f && e.call.id == id && e.call.op.Commit?
                        && e.call.op.bidder == b && r.outcome.Done?;
            if id in Cells(r.state, f) then Reflects(Cells(r.state, f)[id], b, if mine then Some(e.call.op) else last)
            else last == None && !mine
  {
    hide CellInv, OpAttempt, TransferAll, Reflects;
    match e.call
    case OnRound(g, other, op) =>
      if g == f && other == id && id in Cells(s, f) && !(op.Commit? && op.bidder !in e.auth) {
        if OpAttempt(h, f, id, Cells(s, f)[id], s.now, e.auth, op).Go? {
          OpReflects(h, f, id, Cells(s, f)[id], s.now, e.auth, op, b, last);
        }
      }
    case CreateV1(t) => NewReflects(CreateV1Attempt(h, s.now, e.auth, s.counter + 1, t), b);
    case CreateV2(t, policy) => NewReflects(CreateV2Attempt(h, s.now, e.auth, s.counter + 1, t, policy), b);
    case CreateV3(t, policy, opening) => NewReflects(CreateV3Attempt(h, s.now, e.auth, s.counter + 1, t, policy, opening), b);
    case _ =>
  }

  lemma NewReflects(a: Attempt, b: Address)
    requires a.Go? ==> a.cell.subs == map[]
    ensures a.Go? ==> Reflects(a.cell, b, None)
  {
  }

  /** Over every run from deployment: a round has a submission of a bidder exactly when some
      commit of that bidder was accepted, and it carries the commitment and the escrow of the
      last one accepted, however often the bid was overwritten. */
  lemma {:induction false} RecordIsLastCommit(h: Host, s: State, es: seq<Event>, f: Family, id: nat, b: Address)
    requires Deployed(h, s) && AllHonest(h, es)
    ensures var t := Run(h, s, es);
            if id in Cells(t, f) then Reflects(Cells(t, f)[id], b, LastCommit(h, s, es, f, id, b))
            else LastCommit(h, s, es, f, id, b) == None
  {
    if es != [] {
      hide Step, Reflects, StateInv;
      var front, last := es[..|es| - 1], es[|es| - 1];
      RecordIsLastCommit(h, s, front, f, id, b);
      StateInvFromDeployment(h, s, front);
      StepReflects(h, Run(h, s, front), last, f, id, b, LastCommit(h, s, front, f, id, b));
    }
  }

  lemma StateInvFromDeployment(h: Host, s: State, es: seq<Event>)
    requires Deployed(h, s) && AllHonest(h, es)
    ensures StateInv(h, Run(h, s, es))
  {
    RunKeepsState(h, s, es);
  }

  /** A recorded reveal hashes to the last accepted commitment of its bidder. */
  lemma RevealsMatchLastCommit(h: Host, s: State, es: seq<Event>, f: Family, id: nat, b: Address)
    requires Deployed(h, s) && AllHonest(h, es)
    requires id in Cells(Run(h, s, es), f) && b in Cells(Run(h, s, es), f)[id].subs
    requires Cells(Run(h, s, es), f)[id].subs[b].opening.Some?
    ensures var last := LastCommit(h, s, es, f, id, b);
            last.Some? && last.value.Commit?
            && h.sha(Cells(Run(h, s, es), f)[id].subs[b].opening.value) == last.value.commitment
  {
    hide Run, LastCommit;
    RecordIsLastCommit(h, s, es, f, id, b);
    StateInvFromDeployment(h, s, es);
    var c := Cells(Run(h, s, es), f)[id];
    assert OpeningOk(h, f, c.round.mode, c.subs[b]);
  }

  // ---- Owner-triggered opening ----

  /** Before the fallback of an owner-triggered policy only the operator may open. */
  predicate OwnerGate(c: Cell, now: U64, auth: set<Address>) {
    && c.window.Some?
    && c.window.value.policy.OwnerTriggered?
    && now < c.window.value.policy.fallbackAt
    ==> c.round.operator in auth
  }

  /** Exactly when a v3 round can be opened: open, between the Drand time and the reveal
      deadline, with the right signature, and before the fallback only with the operator's
      authorisation. */
  lemma OpeningEnabled(h: Host, c: Cell, now: U64, auth: set<Address>, signature: Bytes)
    requires CellInv(h, V2, c) && c.round.version == 3
    ensures OpenAttempt(h, V2, c, now, auth, signature).Go? <==>
            && c.round.status == Open
            && TimeOfRound(h, c.round.revealRound) <= now <= c.round.revealDeadline
            && OwnerGate(c, now, auth)
            && h.drand(c.round.revealRound, signature)
  {
  }

  /** From the fallback on anybody with the published signature can open the round, and at
      that time at least 300 seconds of the reveal window are left. */
  lemma FallbackIsPermissionless(h: Host, c: Cell, signature: Bytes)
    requires CellInv(h, V2, c) && c.round.version == 3 && c.round.status == Open
    requires c.window.value.policy.OwnerTriggered? && h.drand(c.round.revealRound, signature)
    ensures var fallback := c.window.value.policy.fallbackAt;
            && c.round.revealDeadline - fallback >= MIN_REVEAL_WINDOW
            && forall now: U64 :: fallback <= now <= c.round.revealDeadline ==>
                 OpenAttempt(h, V2, c, now, {}, signature).Go?
  {
  }

  /** The k-th event of a run opened the round. */
  ghost predicate OpenedByEvent(h: Host, s: State, es: seq<Event>, id: nat, k: nat, at: U64)
    requires k < |es|
  {
    var before := Run(h, s, es[..k]);
    && es[k].call.OnRound? && es[k].call.family == V2 && es[k].call.id == id && es[k].call.op.OpenReveal?
    && before.now == at && id in before.v2 && before.v2[id].round.status == Open
    && h.drand(before.v2[id].round.revealRound, es[k].call.op.signature)
    && OwnerGate(before.v2[id], at, es[k].auth)
  }

  lemma OpeningStep(h: Host, f: Family, id: nat, c: Cell, now: U64, auth: set<Address>, op: Op)
    requires CellInv(h, f, c) && OpAttempt(h, f, id, c, now, auth, op).Go?
    ensures var d := OpAttempt(h, f, id, c, now, auth, op).cell;
            c.window != d.window ==>
              && f == V2 && op.OpenReveal? && c.round.status == Open && h.drand(c.round.revealRound, op.signature)
              && c.window.Some? && d.window == Some(c.window.value.(openedAt := Some(now)))
              && OwnerGate(c, now, auth)
  {
    hide Verdict, RefundAllMoves, SettleMoves, NoRepeats, MarkSettled;
  }

  lemma StepOpening(h: Host, s: State, e: Event, id: nat)
    requires StateInv(h, s) && Honest(h, e)
    requires id in Step(h, s, e).state.v2
    ensures var d := Step(h, s, e).state.v2[id];
            d.window.Some? && d.window.value.openedAt.Some? && (id in s.v2 ==> s.v2[id].window != d.window) ==>
              && id in s.v2 && d.window.value.openedAt == Some(s.now)
              && e.call.OnRound? && e.call.family == V2 && e.call.id == id && e.call.op.OpenReveal?
              && s.v2[id].round.status == Open && h.drand(s.v2[id].round.revealRound, e.call.op.signature)
              && OwnerGate(s.v2[id], s.now, e.auth)
  {
    hide CellInv, OpAttempt, TransferAll;
    match e.call
    case OnRound(g, other, op) =>
      if g == V2 && other == id && id in s.v2 && !(op.Commit? && op.bidder !in e.auth) {
        if OpAttempt(h, V2, id, s.v2[id], s.now, e.auth, op).Go? {
          OpeningStep(h, V2, id, s.v2[id], s.now, e.auth, op);
        }
      }
    case CreateV2(t, policy) => NewIsUnopened(CreateV2Attempt(h, s.now, e.auth, s.counter + 1, t, policy));
    case CreateV3(t, policy, opening) => NewIsUnopened(CreateV3Attempt(h, s.now, e.auth, s.counter + 1, t, policy, opening));
    case _ =>
  }

  lemma NewIsUnopened(a: Attempt)
    requires a.Go? ==> a.cell.window.None? || a.cell.window.value.openedAt == None
    ensures a.Go? && a.cell.window.Some? ==> a.cell.window.value.openedAt == None
  {
  }

  lemma HonestParts(h: Host, es: seq<Event>)
    requires AllHonest(h, es) && es != []
    ensures AllHonest(h, es[..|es| - 1]) && Honest(h, es[|es| - 1])
  {
  }

  lemma OpenedEarlier(h: Host, s: State, es: seq<Event>, id: nat, k: nat, at: U64)
    requires k < |es| - 1 && OpenedByEvent(h, s, es[..|es| - 1], id, k, at)
    ensures OpenedByEvent(h, s, es, id, k, at)
  {
    hide Run, OwnerGate;
    assert es[..|es| - 1][..k] == es[..k];
  }

  lemma OpenedNow(h: Host, s: State, es: seq<Event>, id: nat)
    requires es != []
    requires var before, last := Run(h, s, es[..|es| - 1]), es[|es| - 1];
             && last.call.OnRound? && last.call.family == V2 && last.call.id == id && last.call.op.OpenReveal?
             && id in before.v2 && before.v2[id].round.status == Open
             && h.drand(before.v2[id].round.revealRound, last.call.op.signature)
             && OwnerGate(before.v2[id], before.now, last.auth)
    ensures OpenedByEvent(h, s, es, id, |es| - 1, Run(h, s, es[..|es| - 1]).now)
  {
    hide Run, OwnerGate;
  }

  /** Over every run from deployment: if a v3 round records an opening time, an earlier call of
      the run opened it at exactly that time, with a valid Drand signature, and, when that was
      before the fallback of an owner-triggered policy, with the operator's authorisation. */
  lemma {:induction false} OpeningsWereAuthorised(h: Host, s: State, es: seq<Event>, id: nat)
    requires Deployed(h, s) && AllHonest(h, es)
    requires id in Run(h, s, es).v2 && Run(h, s, es).v2[id].window.Some?
    requires Run(h, s, es).v2[id].window.value.openedAt.Some?
    ensures exists k: nat :: k < |es| && OpenedByEvent(h, s, es, id, k, Run(h, s, es).v2[id].window.value.openedAt.value)
  {
    if es != [] {
      hide Step, StateInv, OwnerGate, OpenedByEvent, AllHonest, Honest;
      HonestParts(h, es);
      var front, last := es[..|es| - 1], es[|es| - 1];
      var before, after := Run(h, s, front), Run(h, s, es);
      StateInvFromDeployment(h, s, front);
      StepOpening(h, before, last, id);
      var at := after.v2[id].window.value.openedAt.value;
      if id in before.v2 && before.v2[id].window == after.v2[id].window {
        OpeningsWereAuthorised(h, s, front, id);
        var k: nat :| k < |front| && OpenedByEvent(h, s, front, id, k, at);
        OpenedEarlier(h, s, es, id, k, at);
      } else {
        OpenedNow(h, s, es, id);
      }
    }
  }

  // ---- Receipt-only rounds ----

  /** A receipt-only round never moves any token, over any run. */
  lemma {:induction false} ReceiptOnlyNeverPays(h: Host, s: State, es: seq<Event>, id: nat)
    requires Deployed(h, s) && AllHonest(h, es)
    requires id in Run(h, s, es).v2 && Run(h, s, es).v2[id].round.mode == ReceiptOnly
    ensures forall k :: 0 <= k < |Trace(h, s, es)| ==> Trace(h, s, es)[k].round != id
  {
    if es != [] {
      hide Step, StateInv, AllOf;
      var front, last := es[..|es| - 1], es[|es| - 1];
      var before := Run(h, s, front);
      StateInvFromDeployment(h, s, front);
      StepOfReceiptOnly(h, before, last, id);
      if id in before.v2 {
        StepEvolves(h, before, last, V2, id);
        ReceiptOnlyNeverPays(h, s, front, id);
      } else {
        NoMovesBeforeCreation(h, s, front, id);
      }
    }
  }

  lemma StepOfReceiptOnly(h: Host, s: State, e: Event, id: nat)
    requires StateInv(h, s) && Honest(h, e) && id in Step(h, s, e).state.v2
    requires Step(h, s, e).state.v2[id].round.mode == ReceiptOnly
    ensures forall k :: 0 <= k < |Step(h, s, e).moves| ==> Step(h, s, e).moves[k].round != id
    ensures id !in s.v2 ==> id == s.counter + 1
  {
    hide CellInv, OpAttempt, TransferAll, CreateV1Attempt, CreateV2Attempt, CreateV3Attempt;
    StepShape(h, s, e);
    match e.call
    case OnRound(f, other, op) =>
      if f == V2 && other == id && id in s.v2 && !(op.Commit? && op.bidder !in e.auth) {
        OpOfReceiptOnly(h, id, s.v2[id], s.now, e.auth, op);
      }
    case CreateV2(t, policy) => CreationOfReceiptOnly(h, s, e.auth, t, policy);
    case CreateV3(t, policy, opening) => CreationOfReceiptOnlyV3(h, s, e.auth, t, policy, opening);
    case _ =>
  }

  lemma OpOfReceiptOnly(h: Host, id: nat, c: Cell, now: U64, auth: set<Address>, op: Op)
    requires CellInv(h, V2, c)
    ensures var a := OpAttempt(h, V2, id, c, now, auth, op);
            a.Go? && a.cell.round.mode == ReceiptOnly ==> a.moves == []
  {
    hide CellInv, OpAttempt;
    if OpAttempt(h, V2, id, c, now, auth, op).Go? {
      OpEvolves(h, V2, id, c, now, auth, op);
      if c.round.mode == ReceiptOnly {
        ReceiptOnlyIsQuiet(h, V2, id, c, now, auth, op);
      }
    }
  }

  lemma CreationOfReceiptOnly(h: Host, s: State, auth: set<Address>, t: Terms, policy: Option<Policy>)
    ensures var a := CreateV2Attempt(h, s.now, auth, s.counter + 1, t, policy);
            a.Go? && a.cell.round.mode == ReceiptOnly ==> a.moves == []
  {
  }

  lemma CreationOfReceiptOnlyV3(h: Host, s: State, auth: set<Address>, t: Terms, policy: Policy, opening: RevealPolicy)
    ensures var a := CreateV3Attempt(h, s.now, auth, s.counter + 1, t, policy, opening);
            a.Go? && a.cell.round.mode == ReceiptOnly ==> a.moves == []
  {
    CreationOfReceiptOnly(h, s, auth, t, Some(policy));
  }

  lemma {:induction false} NoMovesBeforeCreation(h: Host, s: State, es: seq<Event>, id: nat)
    requires Deployed(h, s) && AllHonest(h, es) && id > Run(h, s, es).counter
    ensures forall k :: 0 <= k < |Trace(h, s, es)| ==> Trace(h, s, es)[k].round != id
  {
    if es != [] {
      hide Step, StateInv;
      var front, last := es[..|es| - 1], es[|es| - 1];
      StateInvFromDeployment(h, s, front);
      StepShape(h, Run(h, s, front), last);
      NoMovesBeforeCreation(h, s, front, id);
    }
  }
}
