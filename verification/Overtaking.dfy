/** A concrete run that makes the v1 closing pass rethrow: one bid, duly revealed, and another
    keeper that clears and settles while the pass waits for its own clear. */
module Overtaking {
  import opened Base
  import opened TwosComplement
  import opened Envelope
  import opened Optimum
  import opened Tokens
  import opened Rounds
  import opened Clearing
  import opened Rules
  import opened Machine
  import opened Exits
  import opened Export
  import opened Keeper

  const BIDDER := Strkey("GBIDDER")
  const BID: I128 := 7
  const ESCROW: I128 := 10

  function SealedBid(sha: Bytes -> Digest): Digest {
    sha(Preimage(BID, Zeros(NONCE_BYTES)))
  }

  /** Create a v1 round, commit one bid, open in the window, reveal the bid, let the window
      pass. */
  function OneBidRun(sha: Bytes -> Digest): seq<Event> {
    [Event({OPERATOR}, CreateV1(ExampleTerms())),
     Event({BIDDER}, OnRound(V1, 1, Commit(BIDDER, SealedBid(sha), [], ESCROW, []))),
     Event({}, Advance(150)),
     Event({}, OnRound(V1, 1, OpenReveal([]))),
     Event({}, OnRound(V1, 1, RevealBid(BIDDER, BID, Zeros(NONCE_BYTES)))),
     Event({}, Advance(201))]
  }

  function RichBidder(h: Host): State {
    State(0, 0, map[], map[], map[(h.usdc, BIDDER) := ESCROW])
  }

  function EmptyRound(h: Host): Cell {
    var t := ExampleTerms();
    Cell(Round(1, Auction, t.operator, t.itemRef, ZeroDigest(), Some(h.usdc), None, 0, t.revealRound, t.rule, t.commitDeadline,
               t.revealDeadline, t.auditorPubkey, MAX_BIDDERS, Open, [], None, 0), map[], None, None)
  }

  function OneBid(h: Host, sha: Bytes -> Digest, status: Status, shown: bool): Cell {
    var c := EmptyRound(h);
    var hidden := Submission(SealedBid(sha), ESCROW, None, None, false, false);
    c.(round := c.round.(status := status, bidders := [BIDDER]),
       subs := map[BIDDER := if shown then hidden.(opening := Some(Preimage(BID, Zeros(NONCE_BYTES))), amount := Some(BID), valid := true)
                             else hidden])
  }

  lemma Creates(h: Host, sha: Bytes -> Digest)
    requires h == ExampleHost(sha)
    ensures Step(h, RichBidder(h), OneBidRun(sha)[0]).state == RichBidder(h).(counter := 1, v1 := map[1 := EmptyRound(h)])
  {
    TransferNothing(RichBidder(h).ledger);
    hide TransferAll;
    assert TimeOfRound(h, 101) == 100;
  }

  lemma Commits(h: Host, sha: Bytes -> Digest, s: State)
    requires h == ExampleHost(sha) && s.now == 0 && s.v1 == map[1 := EmptyRound(h)] && Balance(s.ledger, h.usdc, BIDDER) == ESCROW
    ensures var t := Step(h, s, OneBidRun(sha)[1]).state;
            t.now == 0 && t.v1 == map[1 := OneBid(h, sha, Open, false)]
  {
    var c := EmptyRound(h);
    var paid := EscrowIn(h, 1, c, BIDDER, ESCROW);
    TransferOne(s.ledger, paid[0]);
    hide TransferAll;
    assert EscrowBack(h, 1, c, BIDDER) + paid == paid;
    assert Placed(c, BIDDER, SealedBid(sha), ESCROW) == OneBid(h, sha, Open, false);
  }

  lemma Opens(h: Host, sha: Bytes -> Digest, s: State)
    requires h == ExampleHost(sha) && s.now == 150 && s.v1 == map[1 := OneBid(h, sha, Open, false)]
    ensures Step(h, s, OneBidRun(sha)[3]).state == s.(v1 := map[1 := OneBid(h, sha, Revealing, false)])
  {
    TransferNothing(s.ledger);
    hide TransferAll;
  }

  lemma Reveals(h: Host, sha: Bytes -> Digest, s: State)
    requires h == ExampleHost(sha) && s.now == 150 && s.v1 == map[1 := OneBid(h, sha, Revealing, false)]
    ensures Step(h, s, OneBidRun(sha)[4]).state == s.(v1 := map[1 := OneBid(h, sha, Revealing, true)])
  {
    var c, d := OneBid(h, sha, Revealing, false), OneBid(h, sha, Revealing, true);
    TransferNothing(s.ledger);
    StepOnRound(h, s, V1, 1, {}, RevealBid(BIDDER, BID, Zeros(NONCE_BYTES)));
    hide TransferAll, Preimage, Step;
    assert c.subs[BIDDER := d.subs[BIDDER]] == d.subs;
    assert OpAttempt(h, V1, 1, c, 150, {}, RevealBid(BIDDER, BID, Zeros(NONCE_BYTES))) == Go(d, [], Unit);
    assert s.v1[1 := d] == map[1 := d];
  }

  lemma BecomesDue(h: Host, sha: Bytes -> Digest)
    requires h == ExampleHost(sha)
    ensures var s := Run(h, RichBidder(h), OneBidRun(sha));
            s.now == 201 && s.v1 == map[1 := OneBid(h, sha, Revealing, true)]
  {
    var s0, es := RichBidder(h), OneBidRun(sha);
    hide Run, Step;
    RunOfNothing(h, s0);
    RunSnoc(h, s0, [], es[0]);
    RunSnoc(h, s0, [es[0]], es[1]);
    RunSnoc(h, s0, [es[0], es[1]], es[2]);
    RunSnoc(h, s0, [es[0], es[1], es[2]], es[3]);
    RunSnoc(h, s0, [es[0], es[1], es[2], es[3]], es[4]);
    RunSnoc(h, s0, [es[0], es[1], es[2], es[3], es[4]], es[5]);
    assert [] + [es[0]] == [es[0]] && [es[0]] + [es[1]] == [es[0], es[1]];
    assert [es[0], es[1]] + [es[2]] == [es[0], es[1], es[2]];
    assert [es[0], es[1], es[2]] + [es[3]] == [es[0], es[1], es[2], es[3]];
    assert [es[0], es[1], es[2], es[3]] + [es[4]] == [es[0], es[1], es[2], es[3], es[4]];
    assert [es[0], es[1], es[2], es[3], es[4]] + [es[5]] == es;
    var s1 := Step(h, s0, es[0]).state;
    Creates(h, sha);
    var s2 := Step(h, s1, es[1]).state;
    Commits(h, sha, s1);
    var s3 := Step(h, s2, es[2]).state;
    ExampleAdvances(h, s2, 150);
    var s4 := Step(h, s3, es[3]).state;
    Opens(h, sha, s3);
    var s5 := Step(h, s4, es[4]).state;
    Reveals(h, sha, s4);
    ExampleAdvances(h, s5, 201);
  }

  lemma DueIsReachable(h: Host, sha: Bytes -> Digest)
    requires h == ExampleHost(sha)
    ensures Reachable(h, Run(h, RichBidder(h), OneBidRun(sha)))
  {
    var s, es := RichBidder(h), OneBidRun(sha);
    hide Run, Step;
    assert Deployed(h, s) && Solvent(h, s);
    forall k | 0 <= k < |es| ensures Honest(h, es[k]) {
    }
    assert AllHonest(h, es);
  }

  lemma OneBidWins(h: Host, sha: Bytes -> Digest)
    ensures Verdict(OneBid(h, sha, Revealing, true)) == Some(0)
    ensures ExitPlan(OneBid(h, sha, Revealing, true)) == [Clear, Settle]
  {
    var c := OneBid(h, sha, Revealing, true);
    assert Offers(c) == [Some(BID)];
  }

  function Idle(): Interlude {
    Interlude([], [])
  }

  /** For every hash function: a reachable state with a due v1 round, and other callers who
      only clear and settle it, on which the closing pass rethrows. */
  lemma OvertakenIsReachable(sha: Bytes -> Digest)
    ensures var h := ExampleHost(sha);
            var s := Run(h, RichBidder(h), OneBidRun(sha));
            var o := Others(Interlude([CallOn(V1, 1, Clear), CallOn(V1, 1, Settle)], []), Idle(), Idle(), Idle(), Idle(), Idle());
            Reachable(h, s) && AllFair(h, o) && Overtaken(h, s, 1, 201, o)
  {
    var h := ExampleHost(sha);
    var s := Run(h, RichBidder(h), OneBidRun(sha));
    hide Run, Reachable, StateInv, Solvent, ExitPlan, Verdict;
    BecomesDue(h, sha);
    DueIsReachable(h, sha);
    ReachableIsGood(h, s);
    OneBidWins(h, sha);
    AnotherKeeperCloses(h, s, V1, 1);
  }
}
