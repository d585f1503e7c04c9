/** The order of reveals, repeats and junk reveals do not matter. */
module RevealOrder {
  import opened Base
  import opened TwosComplement
  import opened Envelope
  import opened Optimum
  import opened Tokens
  import opened Rounds
  import opened Clearing
  import opened Rules
  import opened Invariants
  import Answers

  /** One attempted reveal and the time it reaches the contract. */
  datatype Try = Try(at: U64, op: Op)

  predicate IsReveal(f: Family, op: Op) {
    (f == V1 && op.RevealBid? && |op.nonce| == NONCE_BYTES) || (f == V2 && op.RevealEnvelope?)
  }

  predicate InWindow(f: Family, c: Cell, ts: seq<Try>) {
    forall k :: 0 <= k < |ts| ==> IsReveal(f, ts[k].op) && ts[k].at <= c.round.revealDeadline
  }

  /** The calls one after the other; a refused call changes nothing. */
  function RevealAll(h: Host, f: Family, id: nat, c: Cell, ts: seq<Try>): Cell {
    if ts == [] then c
    else
      var before := RevealAll(h, f, id, c, ts[..|ts| - 1]);
      var last := ts[|ts| - 1];
      match OpAttempt(h, f, id, before, last.at, {}, last.op)
      case Go(after, _, _) => after
      case _ => before
  }

  /** The byte string a reveal hashes. */
  function OpeningOf(op: Op): Bytes
    requires op.RevealBid? || op.RevealEnvelope?
  {
    match op
    case RevealBid(_, value, nonce) => Preimage(value, nonce)
    case RevealEnvelope(_, envelope) => envelope
  }

  /** A reveal is good for a submission when nothing but an earlier reveal could refuse it: it
      hashes to the commitment and its value is within the escrow, or its envelope decodes to
      an amount that the mode allows. */
  predicate Good(h: Host, f: Family, mode: RoundMode, s: Submission, op: Op)
    requires IsReveal(f, op)
  {
    match op
    case RevealBid(_, value, nonce) => h.sha(Preimage(value, nonce)) == s.commitment && value <= s.escrow
    case RevealEnvelope(_, envelope) => Answers.EnvelopeFits(h, mode, s, envelope)
  }

  /** The submission after a good reveal. */
  function Recorded(f: Family, s: Submission, op: Op): Submission
    requires IsReveal(f, op)
  {
    match op
    case RevealBid(_, value, _) => s.(opening := Some(OpeningOf(op)), amount := Some(value), valid := value > 0)
    case RevealEnvelope(_, envelope) =>
      s.(opening := Some(envelope), amount := if OnChain(envelope).Ok? then OnChain(envelope).value else None, valid := true)
  }

  /** A single call in the window: it is recorded exactly when it is good for a known and
      not yet revealed submission. */
  lemma OneReveal(h: Host, f: Family, id: nat, c: Cell, t: Try)
    requires c.round.status == Revealing && IsReveal(f, t.op) && t.at <= c.round.revealDeadline
    ensures var a := OpAttempt(h, f, id, c, t.at, {}, t.op);
            var b := t.op.revealed;
            if b in c.subs && c.subs[b].opening == None && Good(h, f, c.round.mode, c.subs[b], t.op)
            then a.Go? && a.cell == c.(subs := c.subs[b := Recorded(f, c.subs[b], t.op)])
            else !a.Go?
  {
    hide Decode, Preimage;
  }

  /** Some call of the collection is good for bidder b's submission. */
  ghost predicate SomeGood(h: Host, f: Family, c: Cell, ts: seq<Try>, b: Address)
    requires InWindow(f, c, ts) && b in c.subs
  {
    exists k :: 0 <= k < |ts| && ts[k].op.revealed == b && Good(h, f, c.round.mode, c.subs[b], ts[k].op)
  }

  /** What the whole collection leaves of one submission, whatever the order. */
  ghost predicate Outcome(h: Host, f: Family, c: Cell, ts: seq<Try>, b: Address, s: Submission)
    requires InWindow(f, c, ts) && b in c.subs
  {
    if c.subs[b].opening.Some? || !SomeGood(h, f, c, ts, b) then s == c.subs[b]
    else exists k :: 0 <= k < |ts| && ts[k].op.revealed == b && Good(h, f, c.round.mode, c.subs[b], ts[k].op)
                     && s == Recorded(f, c.subs[b], ts[k].op)
  }

  lemma {:induction false} RevealAllOutcome(h: Host, f: Family, id: nat, c: Cell, ts: seq<Try>)
    requires c.round.status == Revealing && InWindow(f, c, ts)
    ensures var d := RevealAll(h, f, id, c, ts);
            && d == c.(subs := d.subs) && d.subs.Keys == c.subs.Keys
            && forall b :: b in c.subs ==> Outcome(h, f, c, ts, b, d.subs[b])
  {
    if ts != [] {
      var front, last := ts[..|ts| - 1], ts[|ts| - 1];
      RevealAllOutcome(h, f, id, c, front);
      var e := RevealAll(h, f, id, c, front);
      var d := RevealAll(h, f, id, c, ts);
      OneReveal(h, f, id, e, last);
      hide OpAttempt, OnChain, Good, Recorded;
      forall b | b in c.subs ensures Outcome(h, f, c, ts, b, d.subs[b]) {
        OutcomeStep(h, f, c, ts, b, e.subs[b], d.subs[b]);
      }
    }
  }

  lemma RecordedIsRevealed(f: Family, s: Submission, op: Op)
    requires IsReveal(f, op)
    ensures Recorded(f, s, op).opening.Some?
  {
  }

  lemma OutcomeStep(h: Host, f: Family, c: Cell, ts: seq<Try>, b: Address, before: Submission, after: Submission)
    requires InWindow(f, c, ts) && b in c.subs && ts != []
    requires Outcome(h, f, c, ts[..|ts| - 1], b, before)
    requires var last := ts[|ts| - 1];
             after == if last.op.revealed == b && before.opening == None && Good(h, f, c.round.mode, before, last.op)
                      then Recorded(f, before, last.op) else before
    ensures Outcome(h, f, c, ts, b, after)
  {
    hide Good, Recorded;
    var front, last := ts[..|ts| - 1], ts[|ts| - 1];
    if c.subs[b].opening == None {
      if SomeGood(h, f, c, front, b) {
        var k :| 0 <= k < |front| && front[k].op.revealed == b && Good(h, f, c.round.mode, c.subs[b], front[k].op)
                 && before == Recorded(f, c.subs[b], front[k].op);
        RecordedIsRevealed(f, c.subs[b], front[k].op);
        assert ts[k] == front[k];
        assert SomeGood(h, f, c, ts, b);
      } else if SomeGood(h, f, c, ts, b) {
        var k :| 0 <= k < |ts| && ts[k].op.revealed == b && Good(h, f, c.round.mode, c.subs[b], ts[k].op);
        assert k < |front| ==> front[k] == ts[k];
      }
    }
  }

  /** The calls of a collection, without times, order or multiplicity. */
  ghost function Calls(ts: seq<Try>): set<Op> {
    set k | 0 <= k < |ts| :: ts[k].op
  }

  /** SHA-256 has no collision among the byte strings these calls present. */
  ghost predicate NoCollision(h: Host, f: Family, c: Cell, ts: seq<Try>)
    requires InWindow(f, c, ts)
  {
    forall i, j :: 0 <= i < |ts| && 0 <= j < |ts| && h.sha(OpeningOf(ts[i].op)) == h.sha(OpeningOf(ts[j].op)) ==>
      OpeningOf(ts[i].op) == OpeningOf(ts[j].op)
  }

  /** Two good reveals of the same submission record the same thing. */
  lemma GoodRevealsAgree(h: Host, f: Family, mode: RoundMode, s: Submission, x: Op, y: Op)
    requires IsReveal(f, x) && IsReveal(f, y) && Good(h, f, mode, s, x) && Good(h, f, mode, s, y)
    requires OpeningOf(x) == OpeningOf(y)
    ensures Recorded(f, s, x) == Recorded(f, s, y)
  {
    if f == V1 {
      PreimageRoundTrip(x.value, x.nonce);
      PreimageRoundTrip(y.value, y.nonce);
    }
  }

  lemma OutcomeIsUnique(h: Host, f: Family, c: Cell, xs: seq<Try>, ys: seq<Try>, b: Address, s: Submission, t: Submission)
    requires InWindow(f, c, xs) && InWindow(f, c, ys) && Calls(xs) == Calls(ys) && NoCollision(h, f, c, xs)
    requires b in c.subs && Outcome(h, f, c, xs, b, s) && Outcome(h, f, c, ys, b, t)
    ensures s == t
  {
    hide OnChain, Recorded, Good, OpeningOf;
    SomeGoodByCalls(h, f, c, xs, ys, b);
    SomeGoodByCalls(h, f, c, ys, xs, b);
    if c.subs[b].opening == None && SomeGood(h, f, c, xs, b) {
      var i :| 0 <= i < |xs| && xs[i].op.revealed == b && Good(h, f, c.round.mode, c.subs[b], xs[i].op)
               && s == Recorded(f, c.subs[b], xs[i].op);
      var j :| 0 <= j < |ys| && ys[j].op.revealed == b && Good(h, f, c.round.mode, c.subs[b], ys[j].op)
               && t == Recorded(f, c.subs[b], ys[j].op);
      assert ys[j].op in Calls(xs);
      var k :| 0 <= k < |xs| && xs[k].op == ys[j].op;
      GoodHashes(h, f, c.round.mode, c.subs[b], xs[i].op);
      GoodHashes(h, f, c.round.mode, c.subs[b], xs[k].op);
      GoodRevealsAgree(h, f, c.round.mode, c.subs[b], xs[i].op, xs[k].op);
    }
  }

  lemma GoodHashes(h: Host, f: Family, mode: RoundMode, s: Submission, op: Op)
    requires IsReveal(f, op) && Good(h, f, mode, s, op)
    ensures h.sha(OpeningOf(op)) == s.commitment
  {
  }

  lemma SomeGoodByCalls(h: Host, f: Family, c: Cell, xs: seq<Try>, ys: seq<Try>, b: Address)
    requires InWindow(f, c, xs) && InWindow(f, c, ys) && Calls(xs) == Calls(ys) && b in c.subs
    ensures SomeGood(h, f, c, xs, b) ==> SomeGood(h, f, c, ys, b)
  {
    hide Good;
    if SomeGood(h, f, c, xs, b) {
      var i :| 0 <= i < |xs| && xs[i].op.revealed == b && Good(h, f, c.round.mode, c.subs[b], xs[i].op);
      assert xs[i].op in Calls(ys);
      var j :| 0 <= j < |ys| && ys[j].op == xs[i].op;
    }
  }

  /** Two collections of reveal calls inside the window with the same calls, in whatever
      order, at whatever times and with whatever repeats and junk, leave the same record and
      hence the same result of `clear`. */
  lemma RevealOrderIsIrrelevant(h: Host, f: Family, id: nat, c: Cell, xs: seq<Try>, ys: seq<Try>, now: U64)
    requires c.round.status == Revealing && InWindow(f, c, xs) && InWindow(f, c, ys)
    requires Calls(xs) == Calls(ys) && NoCollision(h, f, c, xs)
    ensures RevealAll(h, f, id, c, xs) == RevealAll(h, f, id, c, ys)
    ensures ClearAttempt(h, f, id, RevealAll(h, f, id, c, xs), now) == ClearAttempt(h, f, id, RevealAll(h, f, id, c, ys), now)
  {
    hide RevealAll, Outcome, Calls, NoCollision, ClearAttempt;
    RevealAllOutcome(h, f, id, c, xs);
    RevealAllOutcome(h, f, id, c, ys);
    var d, e := RevealAll(h, f, id, c, xs), RevealAll(h, f, id, c, ys);
    forall b | b in c.subs ensures d.subs[b] == e.subs[b] {
      OutcomeIsUnique(h, f, c, xs, ys, b, d.subs[b], e.subs[b]);
    }
    assert d.subs == e.subs;
  }

  /** Once every submission has a good reveal on offer, nobody is left out: the collection
      reveals all of them, whoever else reveals what before. */
  lemma NobodyCanBeLockedOut(h: Host, f: Family, id: nat, c: Cell, ts: seq<Try>, b: Address)
    requires c.round.status == Revealing && InWindow(f, c, ts) && b in c.subs && SomeGood(h, f, c, ts, b)
    ensures b in RevealAll(h, f, id, c, ts).subs && RevealAll(h, f, id, c, ts).subs[b].opening.Some?
  {
    RevealAllOutcome(h, f, id, c, ts);
    assert Outcome(h, f, c, ts, b, RevealAll(h, f, id, c, ts).subs[b]);
  }
}
