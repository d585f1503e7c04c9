/** An exported receipt loses nothing of the record: every field reads back as what the
    contract stored, so two different records never export the same receipt. */
module ReadBack {
  import opened Base
  import opened TwosComplement
  import opened Envelope
  import opened Optimum
  import opened Tokens
  import opened Rounds
  import opened Clearing
  import opened Invariants
  import opened Text
  import opened Receipts
  import opened Export

  predicate HexIs(text: string, b: Bytes) {
    IsHex(text) && HexBytes(text) == b
  }

  predicate DecimalIs(text: string, n: int) {
    Decimal(text) == Some(n)
  }

  predicate OptionalHexIs(text: Option<string>, b: Option<Bytes>) {
    (text.Some? <==> b.Some?) && (text.Some? ==> HexIs(text.value, b.value))
  }

  predicate OptionalDecimalIs(text: Option<string>, n: Option<int>) {
    (text.Some? <==> n.Some?) && (text.Some? ==> DecimalIs(text.value, n.value))
  }

  predicate AddressIs(text: Option<string>, a: Option<Address>) {
    (text.Some? <==> a.Some?) && (text.Some? ==> text.value == a.value.text)
  }

  /** The same addresses in the same order. */
  predicate ListIs(texts: seq<string>, who: seq<Address>) {
    |texts| == |who| && forall i :: 0 <= i < |who| ==> texts[i] == who[i].text
  }

  /** Deployment, client and round of the receipt. */
  predicate OriginReads(k: Crypto, h: Host, client: Client, id: nat, r: Receipt) {
    && r.network == client.network && r.networkFingerprint == ToHex(k.sha(k.utf8(client.network)))
    && r.contractId == client.contractId && DecimalIs(r.roundId, id)
    && DecimalIs(r.drandGenesis, h.genesis) && DecimalIs(r.drandPeriod, h.period)
  }

  predicate RoundReads(r: Receipt, q: Round) {
    && r.version == q.version == r.protocolVersion && r.mode == q.mode && r.rule == q.rule && r.status == q.status
    && r.operator == q.operator.text
    && HexIs(r.itemRef, q.itemRef) && HexIs(r.schemaRef, q.schemaRef) && HexIs(r.auditorPubkey, q.auditorPubkey)
    && AddressIs(r.paymentAsset, q.paymentAsset) && AddressIs(r.lotAsset, q.lotAsset) && DecimalIs(r.lotAmount, q.lotAmount)
    && r.revealRound == q.revealRound
    && DecimalIs(r.commitDeadline, q.commitDeadline) && DecimalIs(r.revealDeadline, q.revealDeadline)
    && r.maxParticipants == q.maxParticipants
    && ListIs(r.bidders, q.bidders) && AddressIs(r.winner, q.winner) && DecimalIs(r.winningAmount, q.winningBid)
  }

  predicate PolicyReads(r: PolicyReceipt, policy: Option<Policy>) {
    && (r.enforced <==> policy.Some?)
    && (r.participation == Allowlist <==> policy.Some? && policy.value.eligible != [])
    && (policy == None ==> r.fixedEscrow == None && r.eligible == [])
    && (policy.Some? ==> r.fixedEscrow.Some? && DecimalIs(r.fixedEscrow.value, policy.value.fixedEscrow)
                         && ListIs(r.eligible, policy.value.eligible))
  }

  /** Only a v3 round shows a reveal policy and an opening time. */
  predicate WindowReads(r: Receipt, c: Cell) {
    if c.round.version == 3 && c.window.Some? then
      && r.revealPolicy.Some?
      && (match c.window.value.policy
          case Timed => r.revealPolicy.value.TimedReveal?
          case OwnerTriggered(fallbackAt) =>
            && r.revealPolicy.value.OwnerReveal? && r.revealPolicy.value.controller == c.round.operator.text
            && DecimalIs(r.revealPolicy.value.fallbackAt, fallbackAt))
      && (match c.window.value.openedAt
          case None => r.openedAt == Null
          case Some(at) => r.openedAt.Present? && DecimalIs(r.openedAt.text, at))
    else r.revealPolicy == None && r.openedAt == Absent
  }

  predicate SubmissionReads(r: SubmissionReceipt, s: Submission, seal: Option<Seal>) {
    && HexIs(r.commitment, s.commitment) && DecimalIs(r.escrow, s.escrow)
    && OptionalHexIs(r.revealedEnvelope, s.opening) && OptionalDecimalIs(r.revealedAmount, s.amount)
    && r.valid == s.valid && r.settled == s.settled
    && (r.ciphertext.Some? <==> seal.Some?) && (r.auditorBlob.Some? <==> seal.Some?)
    && (seal.Some? ==> HexIs(r.ciphertext.value, seal.value.ciphertext) && HexIs(r.auditorBlob.value, seal.value.auditorBlob))
  }

  /** Exactly the indexed bidders with a record, each under its own address. */
  predicate SubmissionsRead(r: Receipt, c: Cell, seals: map<Address, Seal>) {
    && (forall b :: b in c.round.bidders && b in c.subs ==>
          b.text in r.submissions
          && SubmissionReads(r.submissions[b.text], c.subs[b], if b in seals then Some(seals[b]) else None))
    && (forall text :: text in r.submissions ==> Strkey(text) in c.round.bidders && Strkey(text) in c.subs)
  }

  lemma DecimalReads(n: int)
    ensures DecimalIs(IntText(n), n)
  {
    DecimalRoundTrip(n);
  }

  lemma HexReads(b: Bytes)
    ensures HexIs(ToHex(b), b)
  {
    HexRoundTrip(b);
  }

  lemma RoundExportReads(k: Crypto, h: Host, client: Client, id: nat, c: Cell, seals: map<Address, Seal>)
    ensures var r := Exported(k, h, client, id, c, seals); OriginReads(k, h, client, id, r) && RoundReads(r, c.round)
  {
    hide IntText, Decimal, ToHex, HexBytes, IsHex, HexIs, DecimalIs, Submissions, PolicyText, RevealText, OpenedText;
    DecimalReads(id);
    DecimalReads(h.genesis);
    DecimalReads(h.period);
    HexReads(c.round.itemRef);
    HexReads(c.round.schemaRef);
    HexReads(c.round.auditorPubkey);
    DecimalReads(c.round.lotAmount);
    DecimalReads(c.round.commitDeadline);
    DecimalReads(c.round.revealDeadline);
    DecimalReads(c.round.winningBid);
  }

  lemma PolicyExportReads(k: Crypto, h: Host, client: Client, id: nat, c: Cell, seals: map<Address, Seal>)
    ensures var r := Exported(k, h, client, id, c, seals); PolicyReads(r.policy, c.policy) && WindowReads(r, c)
  {
    hide IntText, Decimal, ToHex, HexBytes, IsHex, DecimalIs, Submissions;
    if c.policy.Some? {
      DecimalReads(c.policy.value.fixedEscrow);
    }
    if c.window.Some? {
      if c.window.value.policy.OwnerTriggered? {
        DecimalReads(c.window.value.policy.fallbackAt);
      }
      if c.window.value.openedAt.Some? {
        DecimalReads(c.window.value.openedAt.value);
      }
    }
  }

  lemma SubmissionExportReads(s: Submission, seal: Option<Seal>)
    ensures SubmissionReads(SubmissionText(s, seal), s, seal)
  {
    hide IntText, Decimal, ToHex, HexBytes, IsHex, DecimalIs, HexIs;
    HexReads(s.commitment);
    DecimalReads(s.escrow);
    if s.opening.Some? {
      HexReads(s.opening.value);
    }
    if s.amount.Some? {
      DecimalReads(s.amount.value);
    }
    if seal.Some? {
      HexReads(seal.value.ciphertext);
      HexReads(seal.value.auditorBlob);
    }
  }

  lemma SubmissionsExportRead(k: Crypto, h: Host, client: Client, id: nat, c: Cell, seals: map<Address, Seal>)
    ensures SubmissionsRead(Exported(k, h, client, id, c, seals), c, seals)
  {
    hide SubmissionReads, SubmissionText, PolicyText, RevealText, OpenedText, IntText, ToHex;
    var m := Submissions(c, c.round.bidders, seals);
    forall b | b in c.round.bidders && b in c.subs
      ensures b.text in m && m[b.text] == SubmissionText(c.subs[b], SealOf(seals, b))
      ensures SubmissionReads(SubmissionText(c.subs[b], SealOf(seals, b)), c.subs[b], SealOf(seals, b))
    {
      SubmissionExportReads(c.subs[b], SealOf(seals, b));
    }
    forall text | text in m ensures Strkey(text) in c.round.bidders && Strkey(text) in c.subs {
      var b :| b in c.round.bidders && b in c.subs && b.text == text;
      assert b == Strkey(text);
    }
  }

  /** Every field of an exported receipt reads back as the stored one. */
  lemma ExportReadsBack(k: Crypto, h: Host, client: Client, id: nat, c: Cell, seals: map<Address, Seal>)
    ensures var r := Exported(k, h, client, id, c, seals);
            && OriginReads(k, h, client, id, r) && RoundReads(r, c.round)
            && PolicyReads(r.policy, c.policy) && WindowReads(r, c) && SubmissionsRead(r, c, seals)
  {
    hide OriginReads, RoundReads, PolicyReads, WindowReads, SubmissionsRead, Exported;
    RoundExportReads(k, h, client, id, c, seals);
    PolicyExportReads(k, h, client, id, c, seals);
    SubmissionsExportRead(k, h, client, id, c, seals);
  }

  // ---- Nothing is lost ----

  lemma SameList(texts: seq<string>, a: seq<Address>, b: seq<Address>)
    requires ListIs(texts, a) && ListIs(texts, b)
    ensures a == b
  {
    forall i | 0 <= i < |a| ensures a[i] == b[i] {
      assert a[i].text == b[i].text;
    }
  }

  lemma SameRound(r: Receipt, p: Round, q: Round)
    requires RoundReads(r, p) && RoundReads(r, q)
    ensures p == q
  {
    hide Decimal, HexBytes, IsHex;
    SameList(r.bidders, p.bidders, q.bidders);
  }

  lemma SamePolicy(r: PolicyReceipt, p: Option<Policy>, q: Option<Policy>)
    requires PolicyReads(r, p) && PolicyReads(r, q)
    ensures p == q
  {
    hide Decimal;
    if p.Some? {
      SameList(r.eligible, p.value.eligible, q.value.eligible);
    }
  }

  lemma SameWindow(r: Receipt, c: Cell, d: Cell)
    requires WindowReads(r, c) && WindowReads(r, d) && c.round == d.round
    requires (c.window.Some? <==> c.round.version == 3) && (d.window.Some? <==> d.round.version == 3)
    ensures c.window == d.window
  {
    hide Decimal;
  }

  lemma SameSubmission(r: SubmissionReceipt, s: Submission, t: Submission, a: Option<Seal>, b: Option<Seal>)
    requires SubmissionReads(r, s, a) && SubmissionReads(r, t, b)
    ensures s == t
  {
    hide Decimal, HexBytes, IsHex;
  }

  lemma SameSubmissions(r: Receipt, c: Cell, d: Cell, a: map<Address, Seal>, b: map<Address, Seal>)
    requires SubmissionsRead(r, c, a) && SubmissionsRead(r, d, b) && c.round.bidders == d.round.bidders
    requires forall x :: x in c.subs <==> x in c.round.bidders
    requires forall x :: x in d.subs <==> x in d.round.bidders
    ensures c.subs == d.subs
  {
    hide SubmissionReads;
    forall x | x in c.subs ensures x in d.subs && c.subs[x] == d.subs[x] {
      SameSubmission(r.submissions[x.text], c.subs[x], d.subs[x], if x in a then Some(a[x]) else None,
                     if x in b then Some(b[x]) else None);
    }
    assert c.subs.Keys == d.subs.Keys;
  }

  /** Two good records that export the same receipt are the same record. */
  lemma ExportIsInjective(k: Crypto, h: Host, client: Client, id: nat, c: Cell, d: Cell, a: map<Address, Seal>, b: map<Address, Seal>)
    requires CellInv(h, V2, c) && CellInv(h, V2, d)
    requires Exported(k, h, client, id, c, a) == Exported(k, h, client, id, d, b)
    ensures c == d
  {
    hide CellInv, Exported, OriginReads, RoundReads, PolicyReads, WindowReads, SubmissionsRead;
    var r := Exported(k, h, client, id, c, a);
    ExportReadsBack(k, h, client, id, c, a);
    ExportReadsBack(k, h, client, id, d, b);
    IndexAndWindow(h, c);
    IndexAndWindow(h, d);
    SameRound(r, c.round, d.round);
    SamePolicy(r.policy, c.policy, d.policy);
    SameWindow(r, c, d);
    SameSubmissions(r, c, d, a, b);
  }

  lemma IndexAndWindow(h: Host, c: Cell)
    requires CellInv(h, V2, c)
    ensures (c.window.Some? <==> c.round.version == 3) && forall x :: x in c.subs <==> x in c.round.bidders
  {
    hide NoRepeats, OpeningOk, TimeOfRound, Verdict;
  }
}
