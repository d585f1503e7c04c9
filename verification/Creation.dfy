/** Every answer of the three creation entry points, from every state: when a round is
    created, what exactly is then stored, and which refusal any other input gets. */
module Creation {
  import opened Base
  import opened Optimum
  import opened Tokens
  import opened Rounds
  import opened Rules
  import opened Machine

  /** Drand's schedule: the exact time in unbounded integers, clamped to the largest u64. */
  lemma ScheduleIsClamped(h: Host, round: U64)
    requires round > 0
    ensures var exact := h.genesis + h.period * (round - 1);
            TimeOfRound(h, round) == if exact <= U64_MAX then exact else U64_MAX
  {
  }

  /** The part of the terms that all three records share. */
  predicate Stores(c: Cell, t: Terms) {
    var r := c.round;
    && r.operator == t.operator && r.itemRef == t.itemRef && r.revealRound == t.revealRound && r.rule == t.rule
    && r.commitDeadline == t.commitDeadline && r.revealDeadline == t.revealDeadline && r.auditorPubkey == t.auditorPubkey
    && r.status == Open && r.bidders == [] && r.winner == None && r.winningBid == 0 && c.subs == map[]
  }

  /** What only the v2 and v3 records hold. */
  predicate StoresSettlement(c: Cell, t: Terms) {
    var r := c.round;
    && r.schemaRef == t.schemaRef && r.mode == t.mode && r.paymentAsset == t.paymentAsset && r.lotAsset == t.lotAsset
    && r.lotAmount == t.lotAmount && r.maxParticipants == t.maxParticipants
  }

  /** After a creation there is one more round, under the next id, and nothing else but the
      ledger may have changed. */
  predicate OneMore(s: State, r: StepResult, f: Family) {
    var id := s.counter + 1;
    && id in Cells(r.state, f)
    && r.outcome == Done(Id(id))
    && r.state.now == s.now && r.state.counter == id
    && r.state.v1 == (if f == V1 then s.v1[id := r.state.v1[id]] else s.v1)
    && r.state.v2 == (if f == V2 then s.v2[id := r.state.v2[id]] else s.v2)
  }

  /** v1: created exactly for an authorised operator, a Drand round, deadlines in the order
      now < commit < Drand < reveal, and a short auditor key; stored as asked. */
  lemma V1Creates(h: Host, s: State, auth: set<Address>, t: Terms)
    ensures var r := Step(h, s, Event(auth, CreateV1(t)));
            && (r.outcome.Done? <==>
                  && t.operator in auth && t.revealRound > 0 && |t.auditorPubkey| <= 1024
                  && s.now < t.commitDeadline < TimeOfRound(h, t.revealRound) < t.revealDeadline
                  && s.counter < U64_MAX)
            && (r.outcome.Done? ==>
                  && OneMore(s, r, V1) && r.state.ledger == s.ledger
                  && var c := r.state.v1[s.counter + 1];
                     && Stores(c, t) && c.policy == None && c.window == None && c.round.version == 1
                     && c.round.mode == Auction && c.round.paymentAsset == Some(h.usdc) && c.round.lotAsset == None
                     && c.round.lotAmount == 0 && c.round.maxParticipants == 500)
            && (!r.outcome.Done? ==> r.state == s)
  {
    TransferNothing(s.ledger);
    hide TransferAll, TimeOfRound;
  }

  lemma V1CreationRefusals(h: Host, s: State, auth: set<Address>, t: Terms)
    ensures var out := Step(h, s, Event(auth, CreateV1(t))).outcome;
            var drand := TimeOfRound(h, t.revealRound);
            var signed := t.operator in auth;
            var sized := signed && t.revealRound > 0 && |t.auditorPubkey| <= 1024;
            var ordered := sized && t.commitDeadline < drand < t.revealDeadline;
            && (!signed ==> out == Trap)
            && (signed && t.revealRound == 0 ==> out == Fail(InvalidAmount))
            && (signed && t.revealRound > 0 && !sized ==> out == Fail(PayloadTooLarge))
            && (sized && !ordered ==> out == Fail(CommitDeadlineAfterReveal))
            && (ordered && t.commitDeadline <= s.now ==> out == Fail(DeadlineInPast))
            && (ordered && t.commitDeadline > s.now && s.counter == U64_MAX ==> out == Trap)
  {
    hide TransferAll, TimeOfRound;
  }

  /** The assets fit the mode. */
  predicate SettlementFits(t: Terms) {
    && (t.mode == Auction ==> t.paymentAsset.Some? && t.lotAsset.Some? && t.lotAmount > 0)
    && (t.mode == ReceiptOnly ==> t.paymentAsset == None && t.lotAsset == None && t.lotAmount == 0)
  }

  predicate EscrowFits(t: Terms, p: Policy) {
    if t.mode == Auction then p.fixedEscrow > 0 else p.fixedEscrow == 0
  }

  /** The allowlist is short enough and lists nobody twice. */
  predicate AllowlistFits(t: Terms, p: Policy) {
    |p.eligible| <= t.maxParticipants && NoRepeats(p.eligible)
  }

  predicate ScheduleFits(h: Host, now: U64, t: Terms) {
    && t.revealRound > 0
    && now < t.commitDeadline < TimeOfRound(h, t.revealRound) < t.revealDeadline
    && t.revealDeadline - now <= 30 * 24 * 60 * 60
  }

  predicate LotCovered(s: State, t: Terms) {
    t.mode == Auction && t.lotAsset.Some? ==> Balance(s.ledger, t.lotAsset.value, t.operator) >= t.lotAmount
  }

  predicate V2Fits(h: Host, s: State, auth: set<Address>, t: Terms, policy: Option<Policy>) {
    && t.operator in auth
    && ScheduleFits(h, s.now, t)
    && 1 <= t.maxParticipants <= 25 && |t.auditorPubkey| <= 1024
    && SettlementFits(t)
    && (policy.Some? ==> EscrowFits(t, policy.value) && AllowlistFits(t, policy.value))
  }

  lemma RefusedExactlyWhenUnfit(h: Host, s: State, auth: set<Address>, t: Terms, policy: Option<Policy>)
    ensures t.operator in auth ==> (CreateV2Refusal(h, s.now, t, policy) == None <==> V2Fits(h, s, auth, t, policy))
  {
    hide TimeOfRound, NoRepeats;
  }

  lemma LotArrives(h: Host, s: State, id: nat, t: Terms)
    requires SettlementFits(t)
    ensures TransferAll(s.ledger, LotIn(h, id, t)).Some? <==> LotCovered(s, t)
    ensures t.lotAsset == None ==> TransferAll(s.ledger, LotIn(h, id, t)) == Some(s.ledger)
  {
    TransferNothing(s.ledger);
    if t.lotAsset.Some? {
      TransferOne(s.ledger, LotIn(h, id, t)[0]);
    }
    hide TransferAll;
  }

  /** v2, with or without partner policy: created exactly for fitting terms whose lot the
      operator can hand over; stored as asked. */
  lemma V2Creates(h: Host, s: State, auth: set<Address>, t: Terms, policy: Option<Policy>)
    ensures var r := Step(h, s, Event(auth, CreateV2(t, policy)));
            && (r.outcome.Done? <==> V2Fits(h, s, auth, t, policy) && LotCovered(s, t) && s.counter < U64_MAX)
            && (r.outcome.Done? ==>
                  && OneMore(s, r, V2) && (t.mode == ReceiptOnly ==> r.state.ledger == s.ledger)
                  && var c := r.state.v2[s.counter + 1];
                     Stores(c, t) && StoresSettlement(c, t) && c.policy == policy && c.window == None && c.round.version == 2)
            && (!r.outcome.Done? ==> r.state == s)
  {
    RefusedExactlyWhenUnfit(h, s, auth, t, policy);
    if SettlementFits(t) {
      LotArrives(h, s, s.counter + 1, t);
    }
    hide CreateV2Refusal, TransferAll, ScheduleFits, LotIn, LotCovered, EscrowFits, AllowlistFits;
  }

  /** v3: in addition a reveal policy whose fallback lies after Drand's time and leaves 300
      seconds to reveal; the policy is stored, unopened, beside the round. */
  lemma V3Creates(h: Host, s: State, auth: set<Address>, t: Terms, partner: Policy, policy: RevealPolicy)
    ensures var r := Step(h, s, Event(auth, CreateV3(t, partner, policy)));
            && (r.outcome.Done? <==>
                  && (policy.OwnerTriggered? ==>
                        && TimeOfRound(h, t.revealRound) < policy.fallbackAt
                        && policy.fallbackAt + 300 <= t.revealDeadline)
                  && V2Fits(h, s, auth, t, Some(partner)) && LotCovered(s, t) && s.counter < U64_MAX)
            && (r.outcome.Done? ==>
                  && OneMore(s, r, V2) && (t.mode == ReceiptOnly ==> r.state.ledger == s.ledger)
                  && var c := r.state.v2[s.counter + 1];
                     && Stores(c, t) && StoresSettlement(c, t) && c.policy == Some(partner)
                     && c.window == Some(RevealState(policy, None)) && c.round.version == 3)
            && (!r.outcome.Done? ==> r.state == s)
  {
    RefusedExactlyWhenUnfit(h, s, auth, t, Some(partner));
    if SettlementFits(t) {
      LotArrives(h, s, s.counter + 1, t);
    }
    hide CreateV2Refusal, TransferAll, ScheduleFits, LotIn, LotCovered, EscrowFits, AllowlistFits, TimeOfRound;
  }

  /** Which refusal an unfit v2 creation gets; v3 gives the same ones once its reveal policy
      is legal, and checks that first. */
  lemma V2CreationRefusals(h: Host, s: State, auth: set<Address>, t: Terms, policy: Option<Policy>)
    ensures var out := Step(h, s, Event(auth, CreateV2(t, policy))).outcome;
            var drand := TimeOfRound(h, t.revealRound);
            var signed := t.operator in auth;
            var capped := signed && t.revealRound > 0 && 1 <= t.maxParticipants <= 25;
            var sized := capped && |t.auditorPubkey| <= 1024;
            var ordered := sized && t.commitDeadline < drand < t.revealDeadline;
            var ahead := ordered && s.now < t.commitDeadline;
            var timely := ahead && t.revealDeadline - s.now <= 30 * 24 * 60 * 60;
            var settled := timely && SettlementFits(t);
            var funded := settled && (policy.Some? ==> EscrowFits(t, policy.value));
            && (!signed ==> out == Trap)
            && (signed && t.revealRound == 0 ==> out == Fail(InvalidAmount))
            && (signed && t.revealRound > 0 && !capped ==> out == Fail(InvalidLimit))
            && (capped && !sized ==> out == Fail(PayloadTooLarge))
            && (sized && !ordered ==> out == Fail(CommitDeadlineAfterReveal))
            && (ordered && !ahead ==> out == Fail(DeadlineInPast))
            && (ahead && !timely ==> out == Fail(RoundDurationTooLong))
            && ((timely && !settled) || (settled && !funded) ==>
                  out == Fail(if t.mode == Auction then InvalidAmount else EscrowNotAllowed))
            && (funded && policy.Some? && !AllowlistFits(t, policy.value) ==> out == Fail(InvalidLimit))
            && (V2Fits(h, s, auth, t, policy) && !out.Done? ==> out == Trap)
  {
    RefusedExactlyWhenUnfit(h, s, auth, t, policy);
    hide TransferAll, TimeOfRound, NoRepeats;
  }

  lemma V3CreationRefusals(h: Host, s: State, auth: set<Address>, t: Terms, partner: Policy, policy: RevealPolicy)
    ensures var out := Step(h, s, Event(auth, CreateV3(t, partner, policy))).outcome;
            if policy.OwnerTriggered?
               && (policy.fallbackAt <= TimeOfRound(h, t.revealRound) || policy.fallbackAt + 300 > t.revealDeadline)
            then out == Fail(InvalidRevealPolicy)
            else out == Step(h, s, Event(auth, CreateV2(t, Some(partner)))).outcome
  {
    hide CreateV2Refusal, TransferAll, TimeOfRound;
  }
}
