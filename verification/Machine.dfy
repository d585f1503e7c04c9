/** The Round contract as a transition system: one contract, many rounds of both families,
    one token ledger, arbitrary callers, and a clock that only moves forward. Runs interleave
    the calls arbitrarily; a failed call changes nothing. */
module Machine {
  import opened Base
  import opened TwosComplement
  import opened Optimum
  import opened Tokens
  import opened Rounds
  import opened Clearing
  import opened Rules
  import opened Invariants
  import opened Payouts

  datatype State = State(now: U64, counter: U64, v1: map<nat, Cell>, v2: map<nat, Cell>, ledger: Ledger)

  datatype Outcome = Done(value: Value) | Fail(error: Error) | Trap

  datatype Call =
    | CreateV1(terms: Terms)
    | CreateV2(terms: Terms, policy: Option<Policy>)
    | CreateV3(terms: Terms, partner: Policy, opening: RevealPolicy)
    | OnRound(family: Family, id: nat, op: Op)
    | Advance(to: U64)
    | Outside(token: Asset, sender: Address, recipient: Address, amount: int)

  /** A call together with the addresses that authorised it. */
  datatype Event = Event(auth: set<Address>, call: Call)

  datatype StepResult = StepResult(state: State, outcome: Outcome, moves: seq<Move>)

  function Cells(s: State, f: Family): map<nat, Cell> {
    if f == V1 then s.v1 else s.v2
  }

  function Store(s: State, f: Family, id: nat, c: Cell): State {
    if f == V1 then s.(v1 := s.v1[id := c]) else s.(v2 := s.v2[id := c])
  }

  /** The host carries out the moves; if one fails the whole call is undone. */
  function Conclude(s: State, f: Family, id: nat, a: Attempt): StepResult {
    match a
    case Refused(error) => StepResult(s, Fail(error), [])
    case Trapped => StepResult(s, Trap, [])
    case Go(c, ms, value) =>
      match TransferAll(s.ledger, ms)
      case None => StepResult(s, Trap, [])
      case Some(l) => StepResult(Store(s.(ledger := l), f, id, c), Done(value), ms)
  }

  /** A creation takes the next id; the counter is a checked u64. */
  function ConcludeCreate(s: State, f: Family, a: Attempt): StepResult {
    if a.Go? && s.counter == U64_MAX then StepResult(s, Trap, [])
    else
      var r := Conclude(s, f, s.counter + 1, a);
      if r.outcome.Done? then r.(state := r.state.(counter := s.counter + 1)) else r
  }

  function Step(h: Host, s: State, e: Event): StepResult {
    match e.call
    case CreateV1(t) => ConcludeCreate(s, V1, CreateV1Attempt(h, s.now, e.auth, s.counter + 1, t))
    case CreateV2(t, policy) => ConcludeCreate(s, V2, CreateV2Attempt(h, s.now, e.auth, s.counter + 1, t, policy))
    case CreateV3(t, policy, opening) =>
      ConcludeCreate(s, V2, CreateV3Attempt(h, s.now, e.auth, s.counter + 1, t, policy, opening))
    case OnRound(f, id, op) =>
      if op.Commit? && op.bidder !in e.auth then StepResult(s, Trap, [])
      else if id !in Cells(s, f) then StepResult(s, Fail(RoundNotFound), [])
      else Conclude(s, f, id, OpAttempt(h, f, id, Cells(s, f)[id], s.now, e.auth, op))
    case Advance(to) => StepResult(s.(now := if to > s.now then to else s.now), Done(Unit), [])
    case Outside(token, sender, recipient, amount) =>
      var m := Move(0, token, sender, recipient, amount);
      match Transfer(s.ledger, m)
      case None => StepResult(s, Trap, [])
      case Some(l) => StepResult(s.(ledger := l), Done(Unit), [m])
  }

  lemma StepOnRound(h: Host, s: State, f: Family, id: nat, auth: set<Address>, op: Op)
    requires id in Cells(s, f) && (op.Commit? ==> op.bidder in auth)
    ensures Step(h, s, Event(auth, OnRound(f, id, op))) ==
            Conclude(s, f, id, OpAttempt(h, f, id, Cells(s, f)[id], s.now, auth, op))
  {
    hide OpAttempt, Conclude;
  }

  /** The environment: the contract never signs for itself, only the contract spends its own
      tokens, a v1 nonce has 32 bytes and a byte string a u32 length by their types. Gifts to the contract are allowed. */
  predicate Honest(h: Host, e: Event) {
    && h.self !in e.auth
    && (e.call.OnRound? && e.call.op.RevealBid? ==> |e.call.op.nonce| == NONCE_BYTES)
    && (e.call.OnRound? && e.call.op.RevealEnvelope? ==> |e.call.op.envelope| <= U32_MAX)
    && (e.call.Outside? ==> e.call.sender != h.self)
  }

  predicate AllHonest(h: Host, es: seq<Event>) {
    forall k :: 0 <= k < |es| ==> Honest(h, es[k])
  }

  /** The state after a run, and the token moves of the whole run in order. */
  function Run(h: Host, s: State, es: seq<Event>): State {
    if es == [] then s else Step(h, Run(h, s, es[..|es| - 1]), es[|es| - 1]).state
  }

  function Trace(h: Host, s: State, es: seq<Event>): seq<Move> {
    if es == [] then []
    else Trace(h, s, es[..|es| - 1]) + Step(h, Run(h, s, es[..|es| - 1]), es[|es| - 1]).moves
  }

  /** A fresh deployment: no rounds yet; the ledger may already hold anything. */
  predicate Deployed(h: Host, s: State) {
    s.counter == 0 && s.v1 == map[] && s.v2 == map[]
  }

  // ---- The invariant of every reachable state ----

  ghost predicate StateInv(h: Host, s: State) {
    && (forall id :: id in s.v1 ==> 0 < id <= s.counter && id !in s.v2 && CellInv(h, V1, s.v1[id]))
    && (forall id :: id in s.v2 ==> 0 < id <= s.counter && id !in s.v1 && CellInv(h, V2, s.v2[id]))
  }

  lemma RecordIsGood(h: Host, s: State, f: Family, id: nat)
    requires StateInv(h, s) && id in Cells(s, f)
    ensures CellInv(h, f, Cells(s, f)[id])
  {
    hide CellInv;
  }

  lemma CreateKeepsState(h: Host, s: State, f: Family, a: Attempt)
    requires StateInv(h, s)
    requires a.Go? ==> CellInv(h, f, a.cell)
    ensures StateInv(h, ConcludeCreate(s, f, a).state)
  {
    hide CellInv, TransferAll;
  }

  lemma OpKeepsState(h: Host, s: State, f: Family, id: nat, a: Attempt)
    requires StateInv(h, s) && id in Cells(s, f)
    requires a.Go? ==> CellInv(h, f, a.cell)
    ensures StateInv(h, Conclude(s, f, id, a).state)
  {
    hide CellInv, TransferAll;
  }

  lemma StepKeepsState(h: Host, s: State, e: Event)
    requires StateInv(h, s) && Honest(h, e)
    ensures StateInv(h, Step(h, s, e).state)
  {
    hide CellInv, ConcludeCreate, Conclude, OpAttempt, CreateV1Attempt, CreateV2Attempt, CreateV3Attempt;
    match e.call
    case CreateV1(t) =>
      CreateV1Establishes(h, s.now, e.auth, s.counter + 1, t);
      CreateKeepsState(h, s, V1, CreateV1Attempt(h, s.now, e.auth, s.counter + 1, t));
    case CreateV2(t, policy) =>
      CreateV2Establishes(h, s.now, e.auth, s.counter + 1, t, policy);
      CreateKeepsState(h, s, V2, CreateV2Attempt(h, s.now, e.auth, s.counter + 1, t, policy));
    case CreateV3(t, policy, opening) =>
      CreateV3Establishes(h, s.now, e.auth, s.counter + 1, t, policy, opening);
      CreateKeepsState(h, s, V2, CreateV3Attempt(h, s.now, e.auth, s.counter + 1, t, policy, opening));
    case OnRound(f, id, op) =>
      if id in Cells(s, f) && !(op.Commit? && op.bidder !in e.auth) {
        OpKeeps(h, f, id, Cells(s, f)[id], s.now, e.auth, op);
        OpKeepsState(h, s, f, id, OpAttempt(h, f, id, Cells(s, f)[id], s.now, e.auth, op));
      }
    case Advance(_) =>
    case Outside(_, _, _, _) =>
  }

  lemma {:induction false} RunKeepsState(h: Host, s: State, es: seq<Event>)
    requires StateInv(h, s) && AllHonest(h, es)
    ensures StateInv(h, Run(h, s, es))
  {
    if es != [] {
      RunKeepsState(h, s, es[..|es| - 1]);
      StepKeepsState(h, Run(h, s, es[..|es| - 1]), es[|es| - 1]);
    }
  }

  /** The record of a round, in whichever family it is. */
  function At(s: State, id: nat): Option<Cell> {
    if id in s.v1 then Some(s.v1[id]) else if id in s.v2 then Some(s.v2[id]) else None
  }

  function PositionAt(h: Host, s: State, id: nat, token: Asset, a: Address): int {
    match At(s, id) case None => 0 case Some(c) => Position(h, c, token, a)
  }

  // ---- Conservation, step by step ----

  lemma CreateMoves(h: Host, s: State, f: Family, a: Attempt, t: Terms, id: nat, token: Asset, who: Address)
    requires StateInv(h, s) && t.operator != h.self
    requires a.Go? ==> a.cell.round.status == Open && a.cell.round.bidders == [] && a.cell.subs == map[]
                       && a.cell.round.operator == t.operator && a.cell.round.lotAsset == t.lotAsset
                       && a.cell.round.lotAmount == t.lotAmount && a.moves == LotIn(h, s.counter + 1, t)
    ensures var r := ConcludeCreate(s, f, a);
            PositionAt(h, r.state, id, token, who) ==
            PositionAt(h, s, id, token, who) + RoundNet(r.moves, id, token, who)
  {
    hide Net, RoundNet, TransferAll, CellInv, Position, LotIn;
    RoundNetOfNone(id, token, who);
    if a.Go? {
      CreateAccounts(h, s.counter + 1, a.cell, t, token, who);
      RoundNetOfOneRound(a.moves, s.counter + 1, id, token, who);
    }
  }

  lemma OpMoves(h: Host, s: State, f: Family, id: nat, a: Attempt, other: nat, token: Asset, who: Address)
    requires StateInv(h, s) && id in Cells(s, f)
    requires a.Go? ==> Accounts(h, id, Cells(s, f)[id], a.cell, a.moves, token, who)
    ensures var r := Conclude(s, f, id, a);
            PositionAt(h, r.state, other, token, who) ==
            PositionAt(h, s, other, token, who) + RoundNet(r.moves, other, token, who)
  {
    hide Net, RoundNet, TransferAll, CellInv, Position;
    RoundNetOfNone(other, token, who);
    if a.Go? {
      RoundNetOfOneRound(a.moves, id, other, token, who);
    }
  }

  /** In one step the position of anybody in any round, in any token, changes by exactly the
      net of the moves made on behalf of that round. */
  lemma StepAccounts(h: Host, s: State, e: Event, id: nat, token: Asset, who: Address)
    requires StateInv(h, s) && Honest(h, e) && id > 0
    ensures var r := Step(h, s, e);
            PositionAt(h, r.state, id, token, who) ==
            PositionAt(h, s, id, token, who) + RoundNet(r.moves, id, token, who)
  {
    hide CellInv, ConcludeCreate, Conclude, OpAttempt, RoundNet, Position;
    RoundNetOfNone(id, token, who);
    match e.call
    case CreateV1(t) =>
      if t.operator in e.auth {
        CreateMoves(h, s, V1, CreateV1Attempt(h, s.now, e.auth, s.counter + 1, t), t.(lotAsset := None, lotAmount := 0), id, token, who);
      } else {
        CreateRefused(h, s, V1, Trapped);
      }
    case CreateV2(t, policy) =>
      if t.operator in e.auth {
        CreateMoves(h, s, V2, CreateV2Attempt(h, s.now, e.auth, s.counter + 1, t, policy), t, id, token, who);
      } else {
        CreateRefused(h, s, V2, Trapped);
      }
    case CreateV3(t, policy, opening) =>
      if t.operator in e.auth {
        CreateMoves(h, s, V2, CreateV3Attempt(h, s.now, e.auth, s.counter + 1, t, policy, opening), t, id, token, who);
      } else {
        CreateRefused(h, s, V2, CreateV3Attempt(h, s.now, e.auth, s.counter + 1, t, policy, opening));
      }
    case OnRound(f, other, op) =>
      if other in Cells(s, f) && !(op.Commit? && op.bidder !in e.auth) {
        var c := Cells(s, f)[other];
        if OpAttempt(h, f, other, c, s.now, e.auth, op).Go? {
          OpAccounts(h, f, other, c, s.now, e.auth, op, token, who);
        }
        OpMoves(h, s, f, other, OpAttempt(h, f, other, c, s.now, e.auth, op), id, token, who);
      }
    case Advance(_) =>
    case Outside(_, _, _, _) =>
      OutsideIsNoRound(Step(h, s, e).moves, id, token, who);
  }

  lemma CreateRefused(h: Host, s: State, f: Family, a: Attempt)
    requires !a.Go?
    ensures ConcludeCreate(s, f, a).state == s && ConcludeCreate(s, f, a).moves == []
  {
  }

  lemma OutsideIsNoRound(ms: seq<Move>, id: nat, token: Asset, who: Address)
    requires AllOf(ms, 0) && id > 0
    ensures RoundNet(ms, id, token, who) == 0
  {
    RoundNetOfOneRound(ms, 0, id, token, who);
  }

  // ---- Exact positions over whole runs ----

  /** Over every run from deployment, for every round, token and address: the net of all the
      moves ever made on behalf of the round equals the position its record shows. */
  lemma {:induction false} ExactPositions(h: Host, s: State, es: seq<Event>, id: nat, token: Asset, who: Address)
    requires Deployed(h, s) && AllHonest(h, es) && id > 0
    ensures RoundNet(Trace(h, s, es), id, token, who) == PositionAt(h, Run(h, s, es), id, token, who)
  {
    if es != [] {
      hide Step, RoundNet, CellInv, PositionAt;
      var front, last := es[..|es| - 1], es[|es| - 1];
      ExactPositions(h, s, front, id, token, who);
      RunKeepsState(h, s, front);
      StepAccounts(h, Run(h, s, front), last, id, token, who);
      RoundNetAppend(Trace(h, s, front), Step(h, Run(h, s, front), last).moves, id, token, who);
    }
  }

  /** Whole-run payouts of a finished round. Settled with a winner: the winner is down the
      winning bid and up the lot, the operator the reverse, every other bidder even; voided,
      or settled without a winner: everybody is even. The contract keeps nothing. */
  lemma FinalPayouts(h: Host, s: State, es: seq<Event>, id: nat, token: Asset, who: Address)
    requires Deployed(h, s) && AllHonest(h, es) && id > 0
    requires At(Run(h, s, es), id).Some? && Terminal(At(Run(h, s, es), id).value.round)
    ensures var r := At(Run(h, s, es), id).value.round;
            RoundNet(Trace(h, s, es), id, token, who) ==
            if who == h.self || r.status == Voided || r.winner == None then 0
            else (if r.paymentAsset == Some(token) then Sale(r.winningBid, who, r.operator, r.winner.value) else 0)
                 + (if r.lotAsset == Some(token) then Sale(r.lotAmount, who, r.winner.value, r.operator) else 0)
  {
    hide Step, Run, Trace, RoundNet, CellInv;
    ExactPositions(h, s, es, id, token, who);
  }

  // ---- Solvency ----

  /** What the contract holds for the rounds 1 to n. */
  function HeldUpTo(h: Host, s: State, token: Asset, n: nat): int {
    if n == 0 then 0 else HeldUpTo(h, s, token, n - 1) + PositionAt(h, s, n, token, h.self)
  }

  /** What the contract owns beyond what it holds for its rounds. */
  function Surplus(h: Host, s: State, token: Asset): int {
    Balance(s.ledger, token, h.self) - HeldUpTo(h, s, token, s.counter)
  }

  lemma {:induction false} HeldChange(h: Host, s: State, t: State, token: Asset, n: nat, ms: seq<Move>)
    requires forall id :: 0 < id <= n ==>
                 PositionAt(h, t, id, token, h.self) == PositionAt(h, s, id, token, h.self) + RoundNet(ms, id, token, h.self)
    ensures HeldUpTo(h, t, token, n) == HeldUpTo(h, s, token, n) + SumNets(ms, n, token, h.self)
  {
    if n > 0 {
      HeldChange(h, s, t, token, n - 1, ms);
    }
  }

  function SumNets(ms: seq<Move>, n: nat, token: Asset, who: Address): int {
    if n == 0 then 0 else SumNets(ms, n - 1, token, who) + RoundNet(ms, n, token, who)
  }

  lemma {:induction false} SumNetsOfOneRound(ms: seq<Move>, round: nat, n: nat, token: Asset, who: Address)
    requires AllOf(ms, round)
    ensures SumNets(ms, n, token, who) == if 0 < round <= n then Net(ms, token, who) else 0
  {
    if n > 0 {
      SumNetsOfOneRound(ms, round, n - 1, token, who);
      RoundNetOfOneRound(ms, round, n, token, who);
    }
  }

  /** The round a step works for. */
  function RoundOf(s: State, e: Event): nat {
    match e.call
    case OnRound(_, id, _) => id
    case Advance(_) => 0
    case Outside(_, _, _, _) => 0
    case _ => s.counter + 1
  }

  lemma StepShape(h: Host, s: State, e: Event)
    requires StateInv(h, s) && Honest(h, e)
    ensures var r := Step(h, s, e);
            && AllOf(r.moves, RoundOf(s, e))
            && s.counter <= r.state.counter
            && (r.moves != [] ==> RoundOf(s, e) <= r.state.counter)
            && (r.moves != [] && RoundOf(s, e) == 0 ==> e.call.Outside?)
            && TransferAll(s.ledger, r.moves) == Some(r.state.ledger)
  {
    hide CellInv, OpAttempt, CreateV1Attempt;
    match e.call
    case OnRound(f, id, op) =>
      if id in Cells(s, f) && !(op.Commit? && op.bidder !in e.auth) {
        var c := Cells(s, f)[id];
        if OpAttempt(h, f, id, c, s.now, e.auth, op).Go? {
          OpAccounts(h, f, id, c, s.now, e.auth, op, h.self, h.self);
        }
      }
    case Outside(token, sender, recipient, amount) =>
      var m := Move(0, token, sender, recipient, amount);
      assert [m][..0] == [];
    case CreateV1(t) => CreateV1Quiet(h, s, e.auth, t);
    case _ =>
  }

  lemma CreateV1Quiet(h: Host, s: State, auth: set<Address>, t: Terms)
    ensures var a := CreateV1Attempt(h, s.now, auth, s.counter + 1, t); a.Go? ==> a.moves == []
  {
  }

  lemma NothingYet(h: Host, s: State, id: nat, token: Asset)
    requires StateInv(h, s) && id > s.counter
    ensures PositionAt(h, s, id, token, h.self) == 0
  {
    hide CellInv;
  }

  lemma {:induction false} HeldBeyond(h: Host, s: State, token: Asset, n: nat)
    requires StateInv(h, s) && n >= s.counter
    ensures HeldUpTo(h, s, token, n) == HeldUpTo(h, s, token, s.counter)
    decreases n
  {
    if n > s.counter {
      NothingYet(h, s, n, token);
      HeldBeyond(h, s, token, n - 1);
    }
  }

  /** No entry point ever changes the surplus, in any token; only an outside gift does. */
  lemma StepKeepsSurplus(h: Host, s: State, e: Event, token: Asset)
    requires StateInv(h, s) && Honest(h, e)
    ensures var r := Step(h, s, e);
            Surplus(h, r.state, token) == Surplus(h, s, token) + RoundNet(r.moves, 0, token, h.self)
  {
    hide CellInv, Step, RoundNet, Net, PositionAt, TransferAll, HeldUpTo, SumNets, RoundOf;
    var r := Step(h, s, e);
    var n := r.state.counter;
    forall id | 0 < id <= n
      ensures PositionAt(h, r.state, id, token, h.self) == PositionAt(h, s, id, token, h.self) + RoundNet(r.moves, id, token, h.self)
    {
      StepAccounts(h, s, e, id, token, h.self);
    }
    StepShape(h, s, e);
    HeldChange(h, s, r.state, token, n, r.moves);
    HeldBeyond(h, s, token, n);
    SumNetsOfOneRound(r.moves, RoundOf(s, e), n, token, h.self);
    TransferAllMovesNet(s.ledger, r.moves, token, h.self);
    RoundNetOfOneRound(r.moves, RoundOf(s, e), 0, token, h.self);
    if r.moves == [] {
      NetOfNone(token, h.self);
    }
  }

  /** Solvency over all runs: in every token the contract's balance is exactly what its live
      rounds have at stake, plus what it owned at deployment, plus gifts received since. */
  lemma {:induction false} Solvency(h: Host, s: State, es: seq<Event>, token: Asset)
    requires Deployed(h, s) && AllHonest(h, es)
    ensures var t := Run(h, s, es);
            Balance(t.ledger, token, h.self) ==
            HeldUpTo(h, t, token, t.counter) + Balance(s.ledger, token, h.self) + RoundNet(Trace(h, s, es), 0, token, h.self)
  {
    if es != [] {
      hide Step, RoundNet, CellInv, HeldUpTo;
      var front, last := es[..|es| - 1], es[|es| - 1];
      Solvency(h, s, front, token);
      RunKeepsState(h, s, front);
      StepKeepsSurplus(h, Run(h, s, front), last, token);
      RoundNetAppend(Trace(h, s, front), Step(h, Run(h, s, front), last).moves, 0, token, h.self);
    }
  }

  /** Gifts are never negative: nobody else can spend the contract's tokens. */
  lemma StepGift(h: Host, s: State, e: Event, token: Asset)
    requires StateInv(h, s) && Honest(h, e)
    ensures RoundNet(Step(h, s, e).moves, 0, token, h.self) >= 0
  {
    hide CellInv, Net, RoundNet, TransferAll;
    var ms := Step(h, s, e).moves;
    StepShape(h, s, e);
    RoundNetOfOneRound(ms, RoundOf(s, e), 0, token, h.self);
    NetOfNone(token, h.self);
    if e.call.Outside? && ms != [] {
      NetOfOne(ms[0], token, h.self);
    }
  }

  ghost predicate Solvent(h: Host, s: State) {
    forall token :: Surplus(h, s, token) >= 0
  }

  lemma {:induction false} RunStaysSolvent(h: Host, s: State, es: seq<Event>)
    requires StateInv(h, s) && AllHonest(h, es) && Solvent(h, s)
    ensures Solvent(h, Run(h, s, es))
  {
    if es != [] {
      hide Step, RoundNet, CellInv, Surplus;
      var front, last := es[..|es| - 1], es[|es| - 1];
      RunStaysSolvent(h, s, front);
      RunKeepsState(h, s, front);
      var t := Run(h, s, front);
      forall token ensures Surplus(h, Run(h, s, es), token) >= 0 {
        assert Surplus(h, t, token) >= 0;
        StepKeepsSurplus(h, t, last, token);
        StepGift(h, t, last, token);
      }
    }
  }

  /** The states this deployment can ever be in. */
  ghost predicate Reachable(h: Host, t: State) {
    exists s, es :: Deployed(h, s) && Solvent(h, s) && AllHonest(h, es) && t == Run(h, s, es)
  }

  lemma ReachableIsGood(h: Host, t: State)
    requires Reachable(h, t)
    ensures StateInv(h, t) && Solvent(h, t)
  {
    var s, es :| Deployed(h, s) && Solvent(h, s) && AllHonest(h, es) && t == Run(h, s, es);
    RunKeepsState(h, s, es);
    RunStaysSolvent(h, s, es);
  }
}
