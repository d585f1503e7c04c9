/** Exporting a receipt from the stored state (`exportReceiptV2` of
    packages/sdk/src/client.ts), and exactly which exported receipts the offline verifier
    accepts. The exporter reads one snapshot of the round; seals may have expired. */
module Export {
  import opened Base
  import opened Envelope
  import opened Optimum
  import opened Tokens
  import opened Rounds
  import opened Clearing
  import opened Rules
  import opened Invariants
  import opened Payouts
  import opened Machine
  import opened Text
  import opened Receipts

  datatype Seal = Seal(ciphertext: Bytes, auditorBlob: Bytes)

  /** The client's own configuration: network passphrase and contract address. */
  datatype Client = Client(network: string, contractId: string)

  datatype ExportError = UnsupportedProtocol | MissingPolicy | MissingRevealState | MissingSubmission

  function OptionText(n: Option<int>): Option<string> {
    if n.None? then None else Some(IntText(n.value))
  }

  function OptionHex(b: Option<Bytes>): Option<string> {
    if b.None? then None else Some(ToHex(b.value))
  }

  function AddressText(a: Option<Address>): Option<string> {
    if a.None? then None else Some(a.value.text)
  }

  function SubmissionText(s: Submission, seal: Option<Seal>): SubmissionReceipt {
    SubmissionReceipt(ToHex(s.commitment), IntText(s.escrow), OptionHex(s.opening), OptionText(s.amount), s.valid, s.settled,
                      if seal.None? then None else Some(ToHex(seal.value.ciphertext)),
                      if seal.None? then None else Some(ToHex(seal.value.auditorBlob)))
  }

  function SealOf(seals: map<Address, Seal>, a: Address): Option<Seal> {
    if a in seals then Some(seals[a]) else None
  }

  function Submissions(c: Cell, bidders: seq<Address>, seals: map<Address, Seal>): map<string, SubmissionReceipt> {
    map b | b in bidders && b in c.subs :: b.text := SubmissionText(c.subs[b], SealOf(seals, b))
  }

  function Texts(s: seq<Address>): (t: seq<string>)
    ensures |t| == |s|
  {
    seq(|s|, k requires 0 <= k < |s| => s[k].text)
  }

  function PolicyText(policy: Option<Policy>): PolicyReceipt {
    match policy
    case None => PolicyReceipt(false, None, OpenToAll, [])
    case Some(p) =>
      PolicyReceipt(true, Some(IntText(p.fixedEscrow)), if p.eligible == [] then OpenToAll else Allowlist, Texts(p.eligible))
  }

  function RevealText(c: Cell): Option<RevealReceipt> {
    if c.round.version != 3 || c.window.None? then None
    else
      match c.window.value.policy
      case Timed => Some(TimedReveal)
      case OwnerTriggered(fallbackAt) => Some(OwnerReveal(c.round.operator.text, IntText(fallbackAt)))
  }

  function OpenedText(c: Cell): Field {
    if c.round.version != 3 || c.window.None? then Absent
    else if c.window.value.openedAt.None? then Null
    else Present(IntText(c.window.value.openedAt.value))
  }

  /** The receipt of a snapshot. */
  function Exported(k: Crypto, h: Host, client: Client, id: nat, c: Cell, seals: map<Address, Seal>): Receipt {
    var r := c.round;
    Receipt(r.version, r.version, RevealText(c), OpenedText(c), client.network, ToHex(k.sha(k.utf8(client.network))),
            client.contractId, IntText(id), ToHex(r.itemRef), ToHex(r.schemaRef), r.mode, AddressText(r.paymentAsset),
            AddressText(r.lotAsset), IntText(r.lotAmount), r.revealRound, IntText(h.genesis), IntText(h.period), r.rule,
            IntText(r.commitDeadline), IntText(r.revealDeadline), r.operator.text, ToHex(r.auditorPubkey), r.maxParticipants,
            PolicyText(c.policy), Texts(r.bidders), Submissions(c, r.bidders, seals), AddressText(r.winner),
            IntText(r.winningBid), r.status)
  }

  predicate Exportable(c: Cell) {
    && (c.round.version == 2 || c.round.version == 3)
    && (c.round.version == 3 ==> c.policy.Some? && c.window.Some?)
    && forall i :: 0 <= i < |c.round.bidders| ==> c.round.bidders[i] in c.subs
  }

  method ExportReceipt(k: Crypto, h: Host, client: Client, id: nat, c: Cell, seals: map<Address, Seal>)
    returns (result: Result<Receipt, ExportError>)
    ensures result.Ok? <==> Exportable(c)
    ensures result.Ok? ==> result.value == Exported(k, h, client, id, c, seals)
  {
    hide ToHex, IntText, Texts, SubmissionText, PolicyText, RevealText, OpenedText, AddressText;
    if c.round.version != 2 && c.round.version != 3 {
      return Err(UnsupportedProtocol);
    }
    if c.round.version == 3 && c.policy.None? {
      return Err(MissingPolicy);
    }
    if c.round.version == 3 && c.window.None? {
      return Err(MissingRevealState);
    }
    var bidders := c.round.bidders;
    var submissions: map<string, SubmissionReceipt> := map[];
    for i := 0 to |bidders|
      invariant forall j :: 0 <= j < i ==> bidders[j] in c.subs
      invariant submissions == Submissions(c, bidders[..i], seals)
    {
      var bidder := bidders[i];
      if bidder !in c.subs {
        return Err(MissingSubmission);
      }
      assert bidders[..i + 1] == bidders[..i] + [bidder];
      submissions := submissions[bidder.text := SubmissionText(c.subs[bidder], SealOf(seals, bidder))];
    }
    assert bidders[..|bidders|] == bidders;
    var r := c.round;
    return Ok(Receipt(r.version, r.version, RevealText(c), OpenedText(c), client.network, ToHex(k.sha(k.utf8(client.network))),
                      client.contractId, IntText(id), ToHex(r.itemRef), ToHex(r.schemaRef), r.mode, AddressText(r.paymentAsset),
                      AddressText(r.lotAsset), IntText(r.lotAmount), r.revealRound, IntText(h.genesis), IntText(h.period), r.rule,
                      IntText(r.commitDeadline), IntText(r.revealDeadline), r.operator.text, ToHex(r.auditorPubkey),
                      r.maxParticipants, PolicyText(c.policy), Texts(bidders), submissions, AddressText(r.winner),
                      IntText(r.winningBid), r.status));
  }

  // ---- Which exported receipts verify ----

  /** The contract's schedule agrees with the verifier's unbounded one unless it saturated. */
  lemma TimeIsExact(h: Host, round: U64)
    requires round > 0 && TimeOfRound(h, round) < U64_MAX
    ensures TimeOfRound(h, round) == h.genesis + h.period * (round - 1)
  {
  }

  ghost predicate Setting(k: Crypto, h: Host, client: Client, c: Cell) {
    && CellInv(h, V2, c) && k.sha == h.sha
    && client.network != "" && client.contractId != "" && client.contractId[0] == 'C'
  }

  lemma HeaderVerdict(k: Crypto, h: Host, client: Client, id: nat, c: Cell, seals: map<Address, Seal>)
    requires Setting(k, h, client, c)
    ensures HeaderOk(k, Exported(k, h, client, id, c, seals)) <==> SafeRound(c.round.revealRound)
  {
    hide ToHex, IntText, Decimal, IsHex, HexBytes, Submissions, Texts;
    DecimalRoundTrip(id);
    HexRoundTrip(c.round.itemRef);
    HexRoundTrip(c.round.schemaRef);
    HexRoundTrip(c.round.auditorPubkey);
  }

  lemma PrivacyVerdict(k: Crypto, h: Host, client: Client, id: nat, c: Cell, seals: map<Address, Seal>)
    requires Setting(k, h, client, c)
    ensures Privacy(Exported(k, h, client, id, c, seals)) ==
            if h.period > 0 && SafeRound(c.round.revealRound) then Some(TimeOfRound(h, c.round.revealRound)) else None
  {
    hide ToHex, IntText, Decimal, Submissions, Texts, TimeOfRound;
    DecimalRoundTrip(h.genesis);
    DecimalRoundTrip(h.period);
    TimeIsExact(h, c.round.revealRound);
  }

  lemma RevealVerdict(k: Crypto, h: Host, client: Client, id: nat, c: Cell, seals: map<Address, Seal>)
    requires Setting(k, h, client, c)
    ensures RevealOk(Exported(k, h, client, id, c, seals)) <==>
            (c.round.version == 3 ==>
               && h.period > 0 && SafeRound(c.round.revealRound)
               && !(c.round.status == Voided && c.window.value.openedAt.Some?))
  {
    hide ToHex, IntText, Decimal, Submissions, Texts, TimeOfRound, Privacy, SafeRound;
    PrivacyVerdict(k, h, client, id, c, seals);
    DecimalRoundTrip(c.round.commitDeadline);
    DecimalRoundTrip(c.round.revealDeadline);
    if c.round.version == 3 {
      var w := c.window.value;
      if w.policy.OwnerTriggered? {
        DecimalRoundTrip(w.policy.fallbackAt);
      }
      if w.openedAt.Some? {
        DecimalRoundTrip(w.openedAt.value);
      }
    }
  }

  lemma TextsKeep(s: seq<Address>)
    requires NoRepeats(s)
    ensures NoRepeats(Texts(s))
    ensures forall a: Address :: a in s <==> a.text in Texts(s)
  {
    var t := Texts(s);
    forall a: Address ensures a in s <==> a.text in t {
      if a in s {
        var i :| 0 <= i < |s| && s[i] == a;
        assert t[i] == a.text;
      }
      if a.text in t {
        var i :| 0 <= i < |t| && t[i] == a.text;
        assert s[i].text == a.text;
      }
    }
  }

  lemma PolicyVerdict(k: Crypto, h: Host, client: Client, id: nat, c: Cell, seals: map<Address, Seal>)
    requires Setting(k, h, client, c)
    ensures PolicyOk(Exported(k, h, client, id, c, seals))
  {
    hide ToHex, IntText, Decimal, Submissions, TimeOfRound;
    var r := Exported(k, h, client, id, c, seals);
    if c.policy.Some? {
      var p := c.policy.value;
      DecimalRoundTrip(p.fixedEscrow);
      TextsKeep(p.eligible);
      if p.eligible != [] {
        forall i | 0 <= i < |r.bidders| ensures r.bidders[i] in r.policy.eligible {
          assert c.round.bidders[i] in c.subs;
          assert c.round.bidders[i] in p.eligible;
        }
      }
    }
  }

  lemma AmountsVerdict(k: Crypto, h: Host, client: Client, id: nat, c: Cell, seals: map<Address, Seal>)
    requires Setting(k, h, client, c)
    ensures AmountsOk(Exported(k, h, client, id, c, seals))
  {
    hide ToHex, IntText, Decimal, Submissions, Texts, TimeOfRound;
    DecimalRoundTrip(c.round.lotAmount);
    DecimalRoundTrip(c.round.winningBid);
    WinningBidIsNonnegative(h, c);
  }

  lemma WinningBidIsNonnegative(h: Host, c: Cell)
    requires CellInv(h, V2, c)
    ensures c.round.winningBid >= 0
  {
    if c.round.mode == Auction && (c.round.status == Cleared || c.round.status == Settled) {
      WinnerIsGood(h, V2, c);
    }
  }

  lemma SubmissionsAt(c: Cell, bidders: seq<Address>, seals: map<Address, Seal>)
    requires forall i :: 0 <= i < |bidders| ==> bidders[i] in c.subs
    ensures var m := Submissions(c, bidders, seals);
            && (forall b: Address :: b in bidders ==> b.text in m && m[b.text] == SubmissionText(c.subs[b], SealOf(seals, b)))
            && (forall s :: s in m ==> s in Texts(bidders))
  {
    hide SubmissionText;
    var m := Submissions(c, bidders, seals);
    forall s | s in m ensures s in Texts(bidders) {
      var b :| b in bidders && b in c.subs && b.text == s;
      var i :| 0 <= i < |bidders| && bidders[i] == b;
      assert Texts(bidders)[i] == s;
    }
  }

  lemma IndexVerdict(k: Crypto, h: Host, client: Client, id: nat, c: Cell, seals: map<Address, Seal>)
    requires Setting(k, h, client, c)
    ensures IndexOk(Exported(k, h, client, id, c, seals))
  {
    hide ToHex, IntText, Submissions, TimeOfRound, SubmissionText;
    SubmissionsAt(c, c.round.bidders, seals);
    TextsKeep(c.round.bidders);
  }

  lemma EnvelopeVerdict(k: Crypto, h: Host, mode: RoundMode, s: Submission, seal: Option<Seal>)
    requires k.sha == h.sha && OpeningOk(h, V2, mode, s)
    ensures EnvelopeOk(k, SubmissionText(s, seal)) && EnvelopeAmount(SubmissionText(s, seal)) == s.amount
    ensures StateAmount(SubmissionText(s, seal)) == s.amount
  {
    hide ToHex, IntText, Decimal, IsHex, HexBytes, Lower, Decode;
    LowerOfHex(s.commitment);
    if s.opening.Some? {
      HexRoundTrip(s.opening.value);
    }
    if s.amount.Some? {
      DecimalRoundTrip(s.amount.value);
    }
  }

  lemma SubmissionFacts(h: Host, c: Cell, b: Address)
    requires CellInv(h, V2, c) && b in c.subs
    ensures var s := c.subs[b];
            && OpeningOk(h, V2, c.round.mode, s)
            && s.escrow >= 0
            && (c.policy.Some? ==> s.escrow == c.policy.value.fixedEscrow)
            && (c.round.mode == Auction && s.valid ==> s.amount.Some? && 0 < s.amount.value <= s.escrow)
            && (c.round.status == Settled ==> s.settled)
  {
    hide Verdict, NoRepeats, TimeOfRound;
  }

  lemma SubmissionVerdict(k: Crypto, h: Host, client: Client, id: nat, c: Cell, seals: map<Address, Seal>, b: Address)
    requires Setting(k, h, client, c) && b in c.subs
    ensures SubmissionOk(k, Exported(k, h, client, id, c, seals), SubmissionText(c.subs[b], SealOf(seals, b)))
  {
    hide CellInv, OpeningOk, ToHex, IntText, Decimal, IsHex, HexBytes, Lower, Decode, Submissions, Texts, EnvelopeOk, EnvelopeAmount, TimeOfRound;
    var s := c.subs[b];
    SubmissionFacts(h, c, b);
    EnvelopeVerdict(k, h, c.round.mode, s, SealOf(seals, b));
    HexRoundTrip(s.commitment);
    DecimalRoundTrip(s.escrow);
    if b in seals {
      HexRoundTrip(seals[b].ciphertext);
      HexRoundTrip(seals[b].auditorBlob);
    }
    if c.policy.Some? {
      DecimalRoundTrip(c.policy.value.fixedEscrow);
    }
  }

  lemma SubmissionsVerdict(k: Crypto, h: Host, client: Client, id: nat, c: Cell, seals: map<Address, Seal>)
    requires Setting(k, h, client, c)
    ensures var r := Exported(k, h, client, id, c, seals); SubmissionsOk(k, r, |r.bidders|)
  {
    var r := Exported(k, h, client, id, c, seals);
    SubmissionsAt(c, c.round.bidders, seals);
    hide SubmissionOk, SubmissionText, Submissions;
    forall i | 0 <= i < |r.bidders| ensures r.bidders[i] in r.submissions && SubmissionOk(k, r, r.submissions[r.bidders[i]]) {
      var b := c.round.bidders[i];
      assert r.bidders[i] == b.text && b in c.round.bidders;
      SubmissionVerdict(k, h, client, id, c, seals, b);
    }
  }

  /** The verifier compares exactly the offers that the contract compared. */
  lemma OffersAgree(k: Crypto, h: Host, client: Client, id: nat, c: Cell, seals: map<Address, Seal>)
    requires Setting(k, h, client, c) && c.round.mode == Auction
    ensures ReceiptOffers(Exported(k, h, client, id, c, seals)) == Offers(c)
  {
    var r := Exported(k, h, client, id, c, seals);
    SubmissionsAt(c, c.round.bidders, seals);
    hide SubmissionText, Submissions;
    forall i | 0 <= i < |r.bidders| ensures ReceiptOffers(r)[i] == Offers(c)[i] {
      var b := c.round.bidders[i];
      assert r.bidders[i] == b.text && b in c.round.bidders;
      OfferAgrees(k, h, client, id, c, seals, b);
    }
  }

  lemma OfferAgrees(k: Crypto, h: Host, client: Client, id: nat, c: Cell, seals: map<Address, Seal>, b: Address)
    requires Setting(k, h, client, c) && c.round.mode == Auction && b in c.subs
    requires var r := Exported(k, h, client, id, c, seals);
             b.text in r.submissions && r.submissions[b.text] == SubmissionText(c.subs[b], SealOf(seals, b))
    ensures ReceiptOffer(Exported(k, h, client, id, c, seals), b.text) == Offer(c, b)
  {
    var s := c.subs[b];
    assert OpeningOk(h, V2, c.round.mode, s);
    hide ToHex, IntText, Decimal, IsHex, HexBytes, Lower, Decode, Submissions, Texts, EnvelopeOk, EnvelopeAmount, TimeOfRound;
    EnvelopeVerdict(k, h, c.round.mode, s, SealOf(seals, b));
    DecimalRoundTrip(s.escrow);
  }

  lemma WinnerVerdict(k: Crypto, h: Host, client: Client, id: nat, c: Cell, seals: map<Address, Seal>)
    requires Setting(k, h, client, c)
    ensures WinnerOk(Exported(k, h, client, id, c, seals))
  {
    if c.round.mode == Auction && (c.round.status == Cleared || c.round.status == Settled) {
      OffersAgree(k, h, client, id, c, seals);
      hide ReceiptOffers, Offers, ToHex, Decimal, IntText, Submissions;
      DecimalRoundTrip(c.round.winningBid);
    }
  }

  /** A round that was opened and then voided by a `clear_v2` without any valid bid. */
  predicate OpenedThenVoided(c: Cell) {
    c.window.Some? && c.window.value.openedAt.Some? && c.round.status == Voided
  }

  /** Exactly which exported receipts the verifier accepts: all of them, except for rounds
      beyond JavaScript's safe integers, v3 rounds under a zero Drand period, and v3 rounds
      that `clear_v2` voided after they had been opened, whose opening time stays recorded
      while the verifier demands null. */
  lemma ExportVerdict(k: Crypto, h: Host, client: Client, id: nat, c: Cell, seals: map<Address, Seal>)
    requires Setting(k, h, client, c)
    ensures Exportable(c)
    ensures Acceptable(k, Exported(k, h, client, id, c, seals)) <==>
            && SafeRound(c.round.revealRound)
            && (c.round.version == 3 ==> h.period > 0)
            && !OpenedThenVoided(c)
  {
    HeaderVerdict(k, h, client, id, c, seals);
    RevealVerdict(k, h, client, id, c, seals);
    PolicyVerdict(k, h, client, id, c, seals);
    AmountsVerdict(k, h, client, id, c, seals);
    IndexVerdict(k, h, client, id, c, seals);
    SubmissionsVerdict(k, h, client, id, c, seals);
    WinnerVerdict(k, h, client, id, c, seals);
    hide HeaderOk, RevealOk, PolicyOk, AmountsOk, IndexOk, SubmissionsOk, WinnerOk;
  }

  /** With a Drand period and a clock in the range of safe integers, only the third exception
      remains. */
  lemma ReachableExportsVerify(k: Crypto, h: Host, client: Client, s: State, id: nat, seals: map<Address, Seal>)
    requires Reachable(h, s) && id in s.v2 && k.sha == h.sha
    requires client.network != "" && client.contractId != "" && client.contractId[0] == 'C'
    requires h.period > 0 && s.v2[id].round.revealDeadline <= MAX_SAFE_INTEGER
    ensures Acceptable(k, Exported(k, h, client, id, s.v2[id], seals)) <==>
            !OpenedThenVoided(s.v2[id])
  {
    ReachableIsGood(h, s);
    hide Reachable, Acceptable, Exported;
    var c := s.v2[id];
    ExportVerdict(k, h, client, id, c, seals);
    TimeIsExact(h, c.round.revealRound);
    PeriodBounds(h.period, c.round.revealRound - 1);
  }

  lemma PeriodBounds(period: nat, n: nat)
    requires period > 0
    ensures period * n >= n
  {
  }

  // ---- The exception is reachable ----

  const OPERATOR := Strkey("GOPERATOR")
  const LOT := Strkey("CLOT")

  function ExampleHost(sha: Bytes -> Digest): Host {
    Host(Strkey("CROUND"), 0, 1, Strkey("CUSDC"), sha, (round, signature) => true)
  }

  function ExampleTerms(): Terms {
    Terms(OPERATOR, ZeroDigest(), ZeroDigest(), Auction, Some(Strkey("CUSDC")), Some(LOT), 1, 101, HighestBid, 50, 200, [], 5)
  }

  /** Create a v3 auction, let nobody bid, open it in the window, clear it afterwards. */
  function ExampleRun(): seq<Event> {
    [Event({OPERATOR}, CreateV3(ExampleTerms(), Policy(10, []), Timed)),
     Event({}, Advance(150)),
     Event({}, OnRound(V2, 1, OpenReveal([]))),
     Event({}, Advance(201)),
     Event({}, OnRound(V2, 1, Clear))]
  }

  function ExampleStart(): State {
    State(0, 0, map[], map[], map[(LOT, OPERATOR) := 1])
  }

  function ExampleCell(status: Status, openedAt: Option<U64>): Cell {
    Cell(NewRoundV2(ExampleTerms()).(version := 3, status := status), map[], Some(Policy(10, [])), Some(RevealState(Timed, openedAt)))
  }

  lemma RunSnoc(h: Host, s: State, es: seq<Event>, e: Event)
    ensures Run(h, s, es + [e]) == Step(h, Run(h, s, es), e).state
  {
    assert (es + [e])[..|es|] == es;
  }

  lemma ExampleCreates(h: Host, sha: Bytes -> Digest)
    requires h == ExampleHost(sha)
    ensures var t := Step(h, ExampleStart(), ExampleRun()[0]).state;
            t.now == 0 && t.counter == 1 && t.v2 == map[1 := ExampleCell(Open, None)] && Balance(t.ledger, LOT, h.self) == 1
  {
    var t := ExampleTerms();
    TransferOne(ExampleStart().ledger, LotIn(h, 1, t)[0]);
    hide TransferAll;
    assert NoRepeats<Address>([]);
    assert TimeOfRound(h, 101) == 100;
    assert CreateV2Refusal(h, 0, t, Some(Policy(10, []))) == None;
  }

  lemma ExampleClears(h: Host, sha: Bytes -> Digest, s: State)
    requires h == ExampleHost(sha) && s.now == 201
    requires s.v2 == map[1 := ExampleCell(Revealing, Some(150))] && Balance(s.ledger, LOT, h.self) == 1
    ensures 1 in Step(h, s, ExampleRun()[4]).state.v2
    ensures OpenedThenVoided(Step(h, s, ExampleRun()[4]).state.v2[1])
  {
    var c := ExampleCell(Revealing, Some(150));
    assert Verdict(c) == None && RefundAllMoves(h, 1, c) == LotTo(h, 1, c, OPERATOR);
    TransferOne(s.ledger, LotTo(h, 1, c, OPERATOR)[0]);
    hide TransferAll, RefundAllMoves;
  }

  /** For every hash function there is a run that ends with such a round. */
  lemma OpenedThenVoidedIsReachable(sha: Bytes -> Digest)
    ensures var h, s := ExampleHost(sha), Run(ExampleHost(sha), ExampleStart(), ExampleRun());
            Reachable(h, s) && 1 in s.v2 && OpenedThenVoided(s.v2[1])
  {
    var h, s, es := ExampleHost(sha), ExampleStart(), ExampleRun();
    hide Run, Step, Reachable;
    var a := Run(h, s, [es[0]]);
    RunSnoc(h, s, [], es[0]);
    RunOfNothing(h, s);
    ExampleCreates(h, sha);
    RunSnoc(h, s, [es[0]], es[1]);
    RunSnoc(h, s, [es[0], es[1]], es[2]);
    RunSnoc(h, s, [es[0], es[1], es[2]], es[3]);
    RunSnoc(h, s, [es[0], es[1], es[2], es[3]], es[4]);
    assert [] + [es[0]] == [es[0]] && [es[0]] + [es[1]] == [es[0], es[1]];
    assert [es[0], es[1]] + [es[2]] == [es[0], es[1], es[2]];
    assert [es[0], es[1], es[2]] + [es[3]] == [es[0], es[1], es[2], es[3]];
    assert [es[0], es[1], es[2], es[3]] + [es[4]] == es;
    var b := Step(h, a, es[1]).state;
    ExampleAdvances(h, a, 150);
    var c := Step(h, b, es[2]).state;
    ExampleOpens(h, sha, b);
    var d := Step(h, c, es[3]).state;
    ExampleAdvances(h, c, 201);
    ExampleClears(h, sha, d);
    ExampleIsReachable(sha);
  }

  lemma RunOfNothing(h: Host, s: State)
    ensures Run(h, s, []) == s
  {
  }

  lemma ExampleAdvances(h: Host, s: State, to: U64)
    requires to > s.now
    ensures Step(h, s, Event({}, Advance(to))).state == s.(now := to)
  {
  }

  lemma ExampleOpens(h: Host, sha: Bytes -> Digest, s: State)
    requires h == ExampleHost(sha) && s.now == 150
    requires s.v2 == map[1 := ExampleCell(Open, None)]
    ensures Step(h, s, ExampleRun()[2]).state == s.(v2 := map[1 := ExampleCell(Revealing, Some(150))])
  {
    TransferNothing(s.ledger);
    hide TransferAll;
    assert TimeOfRound(h, 101) == 100;
  }

  lemma ExampleIsReachable(sha: Bytes -> Digest)
    ensures Reachable(ExampleHost(sha), Run(ExampleHost(sha), ExampleStart(), ExampleRun()))
  {
    var h, s, es := ExampleHost(sha), ExampleStart(), ExampleRun();
    hide Run, Step;
    assert Deployed(h, s) && Solvent(h, s);
    forall k | 0 <= k < |es| ensures Honest(h, es[k]) {
    }
    assert AllHonest(h, es);
  }
}
