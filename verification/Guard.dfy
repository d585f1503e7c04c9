/** The keeper's settlement guard (services/keeper/src/settlement-guard.ts) and the protocol
    by which concurrent passes share one guard (services/keeper/src/keeper.ts,
    `submitSettlement`). A pass runs alone up to its next await, so a dispatch checks and
    reserves in one step; the confirmation or the failure comes in a later one. */
module Guard {
  import opened Base

  datatype GuardStatus = Pending | Submitted | Finished

  datatype Entry = Entry(roundId: nat, status: GuardStatus, updatedAt: nat, reason: string)

  /** The answer of `canSettle`. */
  datatype Check = Allowed | Skipped(roundId: nat, why: GuardStatus, lastReason: string)

  /** The insertion-ordered map of a guard. */
  datatype Book = Book(entries: map<nat, Entry>, order: seq<nat>)

  ghost predicate Kept(b: Book) {
    && NoRepeats(b.order)
    && (forall id :: id in b.entries <==> id in b.order)
    && (forall id :: id in b.entries ==> b.entries[id].roundId == id)
  }

  /** A round nobody asked about yet counts as pending. */
  function StatusOf(b: Book, id: nat): GuardStatus {
    if id in b.entries then b.entries[id].status else Pending
  }

  function Tracked(b: Book, id: nat, at: nat): Book {
    if id in b.entries then b else Book(b.entries[id := Entry(id, Pending, at, "initial")], b.order + [id])
  }

  function Marked(b: Book, id: nat, at: nat, status: GuardStatus, reason: string): Book {
    Book(b.entries[id := Entry(id, status, at, reason)], if id in b.entries then b.order else b.order + [id])
  }

  lemma MarkedIsKept(b: Book, id: nat, at: nat, status: GuardStatus, reason: string)
    requires Kept(b)
    ensures Kept(Marked(b, id, at, status, reason)) && Kept(Tracked(b, id, at))
  {
    if id !in b.entries {
      NoRepeatsAppend(b.order, id);
    }
  }

  class SettlementGuard {
    var table: map<nat, Entry>
    var order: seq<nat>

    constructor ()
      ensures View() == Book(map[], []) && Kept(View())
    {
      table, order := map[], [];
    }

    function View(): Book
      reads this
    {
      Book(table, order)
    }

    method GetOrCreate(id: nat, at: nat) returns (entry: Entry)
      requires Kept(View())
      modifies this
      ensures View() == Tracked(old(View()), id, at) && Kept(View())
      ensures id in table && entry == table[id]
    {
      MarkedIsKept(View(), id, at, Pending, "");
      if id !in table {
        table, order := table[id := Entry(id, Pending, at, "initial")], order + [id];
      }
      entry := table[id];
    }

    method CanSettle(id: nat, at: nat) returns (check: Check)
      requires Kept(View())
      modifies this
      ensures View() == Tracked(old(View()), id, at) && Kept(View())
      ensures check.Allowed? <==> StatusOf(old(View()), id) == Pending
      ensures check.Skipped? ==> id in old(table) && check == Skipped(id, old(table)[id].status, old(table)[id].reason)
    {
      var entry := GetOrCreate(id, at);
      if entry.status == Pending {
        return Allowed;
      }
      return Skipped(id, entry.status, entry.reason);
    }

    method Overwrite(id: nat, at: nat, status: GuardStatus, reason: string)
      requires Kept(View())
      modifies this
      ensures View() == Marked(old(View()), id, at, status, reason) && Kept(View())
    {
      MarkedIsKept(View(), id, at, status, reason);
      var entry := GetOrCreate(id, at);
      table := table[id := entry.(status := status, updatedAt := at, reason := reason)];
    }

    method MarkSubmitted(id: nat, at: nat)
      requires Kept(View())
      modifies this
      ensures View() == Marked(old(View()), id, at, Submitted, "settle tx dispatched") && Kept(View())
    {
      Overwrite(id, at, Submitted, "settle tx dispatched");
    }

    method MarkTerminal(id: nat, at: nat, reason: string)
      requires Kept(View())
      modifies this
      ensures View() == Marked(old(View()), id, at, Finished, reason) && Kept(View())
    {
      Overwrite(id, at, Finished, reason);
    }

    method MarkRetryable(id: nat, at: nat, reason: string)
      requires Kept(View())
      modifies this
      ensures View() == Marked(old(View()), id, at, Pending, "retryable: " + reason) && Kept(View())
    {
      Overwrite(id, at, Pending, "retryable: " + reason);
    }

    method GetEntry(id: nat) returns (entry: Option<Entry>)
      ensures entry.Some? <==> id in table
      ensures entry.Some? ==> entry.value == table[id]
    {
      return if id in table then Some(table[id]) else None;
    }

    /** All entries in the order in which their rounds were first seen. */
    method Entries() returns (all: seq<Entry>)
      requires Kept(View())
      ensures |all| == |order|
      ensures forall i :: 0 <= i < |all| ==> all[i].roundId == order[i] && all[i] == table[order[i]]
    {
      all := [];
      for i := 0 to |order|
        invariant |all| == i
        invariant forall j :: 0 <= j < i ==> all[j].roundId == order[j] && all[j] == table[order[j]]
      {
        assert order[i] in table;
        all := all + [table[order[i]]];
      }
    }

    /** What another pass, or the watch loop, does to the shared guard. */
    method Apply(d: Deed)
      requires Kept(View())
      modifies this
      ensures View() == Done(old(View()), d) && Kept(View())
    {
      match d {
        case Ask(id, at) => var check := CanSettle(id, at);
        case Dispatch(id, at) =>
          var check := CanSettle(id, at);
          if check.Allowed? {
            MarkSubmitted(id, at);
          }
        case Confirm(id, at) => MarkTerminal(id, at, "settled on-chain");
        case Retry(id, at, reason) => MarkRetryable(id, at, reason);
        case Observe(id, at, reason) => MarkTerminal(id, at, reason);
      }
    }

    method ApplyAll(ds: seq<Deed>)
      requires Kept(View())
      modifies this
      ensures View() == DoneAll(old(View()), ds) && Kept(View())
    {
      for i := 0 to |ds|
        invariant View() == DoneAll(old(View()), ds[..i]) && Kept(View())
      {
        assert ds[..i + 1][..i] == ds[..i];
        Apply(ds[i]);
      }
      assert ds[..|ds|] == ds;
    }
  }

  // ---- The protocol of concurrent passes ----

  /** What happens to a guard between two awaits: a pass asks and reserves, its settlement is
      confirmed or fails, or the watch loop sees the round Settled or Voided on chain. */
  datatype Deed =
    | Ask(round: nat, at: nat)
    | Dispatch(round: nat, at: nat)
    | Confirm(round: nat, at: nat)
    | Retry(round: nat, at: nat, reason: string)
    | Observe(round: nat, at: nat, reason: string)

  function Done(b: Book, d: Deed): Book {
    match d
    case Ask(id, at) => Tracked(b, id, at)
    case Dispatch(id, at) =>
      var asked := Tracked(b, id, at);
      if StatusOf(b, id) == Pending then Marked(asked, id, at, Submitted, "settle tx dispatched") else asked
    case Confirm(id, at) => Marked(b, id, at, Finished, "settled on-chain")
    case Retry(id, at, reason) => Marked(b, id, at, Pending, "retryable: " + reason)
    case Observe(id, at, reason) => Marked(b, id, at, Finished, reason)
  }

  function DoneAll(b: Book, ds: seq<Deed>): Book {
    if ds == [] then b else Done(DoneAll(b, ds[..|ds| - 1]), ds[|ds| - 1])
  }

  /** The guard together with the settlements in flight: which pass awaits which round's. */
  datatype Desk = Desk(book: Book, flights: map<nat, nat>)

  /** A deed and the pass that does it. */
  datatype Move = Move(pass: nat, deed: Deed)

  /** Only a pass that waits for the settlement of a round confirms or fails it, and a pass
      that waits does nothing else. */
  predicate Able(d: Desk, m: Move) {
    match m.deed
    case Dispatch(_, _) => m.pass !in d.flights
    case Confirm(id, _) => m.pass in d.flights && d.flights[m.pass] == id
    case Retry(id, _, _) => m.pass in d.flights && d.flights[m.pass] == id
    case _ => m.pass !in d.flights
  }

  /** This dispatch passes the guard and sends a settlement. */
  predicate Sends(d: Desk, m: Move) {
    Able(d, m) && m.deed.Dispatch? && StatusOf(d.book, m.deed.round) == Pending
  }

  function After(d: Desk, m: Move): Desk {
    if !Able(d, m) then d
    else
      var flights :=
        if Sends(d, m) then d.flights[m.pass := m.deed.round]
        else if m.deed.Confirm? || m.deed.Retry? then d.flights - {m.pass}
        else d.flights;
      Desk(Done(d.book, m.deed), flights)
  }

  function AfterAll(ms: seq<Move>): Desk {
    if ms == [] then Desk(Book(map[], []), map[]) else After(AfterAll(ms[..|ms| - 1]), ms[|ms| - 1])
  }

  ghost predicate InFlight(d: Desk, id: nat) {
    exists p :: p in d.flights && d.flights[p] == id
  }

  /** Every round in flight has a non-pending entry and one pass only, and an entry that says
      submitted has a pass that will still report back. */
  ghost predicate DeskInv(d: Desk) {
    && Kept(d.book)
    && (forall p :: p in d.flights ==> StatusOf(d.book, d.flights[p]) != Pending)
    && (forall p, q :: p in d.flights && q in d.flights && d.flights[p] == d.flights[q] ==> p == q)
    && (forall id :: StatusOf(d.book, id) == Submitted ==> InFlight(d, id))
  }

  function StatusAfter(status: GuardStatus, d: Deed): GuardStatus {
    match d
    case Ask(_, _) => status
    case Dispatch(_, _) => if status == Pending then Submitted else status
    case Confirm(_, _) => Finished
    case Retry(_, _, _) => Pending
    case Observe(_, _, _) => Finished
  }

  lemma OnlyItsRound(b: Book, d: Deed, id: nat)
    ensures StatusOf(Done(b, d), id) == if id == d.round then StatusAfter(StatusOf(b, id), d) else StatusOf(b, id)
  {
  }

  lemma AfterKeeps(d: Desk, m: Move)
    requires DeskInv(d)
    ensures DeskInv(After(d, m))
  {
    hide Kept, Done, StatusOf;
    if Able(d, m) {
      var e := After(d, m);
      BookIsKept(d.book, m.deed);
      forall p | p in e.flights ensures StatusOf(e.book, e.flights[p]) != Pending {
        OnlyItsRound(d.book, m.deed, e.flights[p]);
      }
      forall id | StatusOf(e.book, id) == Submitted ensures InFlight(e, id) {
        OnlyItsRound(d.book, m.deed, id);
        if Sends(d, m) && id == m.deed.round {
          assert m.pass in e.flights;
        } else {
          assert InFlight(d, id);
          var p :| p in d.flights && d.flights[p] == id;
          assert p in e.flights && e.flights[p] == id;
        }
      }
    }
  }

  lemma BookIsKept(b: Book, d: Deed)
    requires Kept(b)
    ensures Kept(Done(b, d))
  {
    hide Kept;
    var asked := Tracked(b, d.round, d.at);
    MarkedIsKept(b, d.round, d.at, Pending, "");
    match d
    case Ask(_, _) =>
    case Dispatch(id, at) => MarkedIsKept(asked, id, at, Submitted, "settle tx dispatched");
    case Confirm(id, at) => MarkedIsKept(b, id, at, Finished, "settled on-chain");
    case Retry(id, at, reason) => MarkedIsKept(b, id, at, Pending, "retryable: " + reason);
    case Observe(id, at, reason) => MarkedIsKept(b, id, at, Finished, reason);
  }

  lemma {:induction false} AfterAllKeeps(ms: seq<Move>)
    ensures DeskInv(AfterAll(ms))
  {
    if ms != [] {
      AfterAllKeeps(ms[..|ms| - 1]);
      AfterKeeps(AfterAll(ms[..|ms| - 1]), ms[|ms| - 1]);
    }
  }

  /** Under every interleaving of passes sharing a guard, with failures, retries and outside
      observations, no two settlements of one round are ever in flight together, and while one
      is, no dispatch of that round gets past the guard. */
  lemma OneFlightPerRound(ms: seq<Move>, p: nat, q: nat)
    requires p in AfterAll(ms).flights && q in AfterAll(ms).flights
    ensures AfterAll(ms).flights[p] == AfterAll(ms).flights[q] ==> p == q
    ensures forall m: Move :: m.deed.round == AfterAll(ms).flights[p] ==> !Sends(AfterAll(ms), m)
  {
    AfterAllKeeps(ms);
  }

  /** The guard turns a dispatch away exactly while a settlement of the round is in flight or
      after its end was recorded: failed work is never suppressed for good. */
  lemma SuppressedExactlyWhen(ms: seq<Move>, m: Move)
    requires m.deed.Dispatch? && m.pass !in AfterAll(ms).flights
    ensures var d := AfterAll(ms);
            !Sends(d, m) <==> InFlight(d, m.deed.round) || StatusOf(d.book, m.deed.round) == Finished
  {
    AfterAllKeeps(ms);
  }

  // ---- How often a settlement is sent ----

  function Sent(ms: seq<Move>, id: nat): nat {
    if ms == [] then 0
    else
      Sent(ms[..|ms| - 1], id)
      + (if Sends(AfterAll(ms[..|ms| - 1]), ms[|ms| - 1]) && ms[|ms| - 1].deed.round == id then 1 else 0)
  }

  function Failed(ms: seq<Move>, id: nat): nat {
    if ms == [] then 0
    else
      Failed(ms[..|ms| - 1], id)
      + (if Able(AfterAll(ms[..|ms| - 1]), ms[|ms| - 1]) && ms[|ms| - 1].deed.Retry? && ms[|ms| - 1].deed.round == id
         then 1 else 0)
  }

  /** A settlement is sent again only after the previous one failed: over every run, at most
      one more was sent than failed, and while the round is pending exactly as many. */
  lemma {:induction false} SentOncePerFailure(ms: seq<Move>, id: nat)
    ensures Failed(ms, id) <= Sent(ms, id) <= Failed(ms, id) + 1
    ensures InFlight(AfterAll(ms), id) ==> Sent(ms, id) == Failed(ms, id) + 1
    ensures StatusOf(AfterAll(ms).book, id) == Pending ==> Sent(ms, id) == Failed(ms, id)
  {
    if ms != [] {
      hide Kept, Done, StatusOf;
      var front, m := ms[..|ms| - 1], ms[|ms| - 1];
      var d, e := AfterAll(front), AfterAll(ms);
      SentOncePerFailure(front, id);
      AfterAllKeeps(front);
      OnlyItsRound(d.book, m.deed, id);
      if InFlight(e, id) {
        var p :| p in e.flights && e.flights[p] == id;
        assert (Sends(d, m) && p == m.pass) || (p in d.flights && d.flights[p] == id);
      }
    }
  }

  // ---- Terminal entries ----

  /** A terminal entry is not final after all: it opens again exactly when a settlement that
      was already in flight fails after somebody else recorded the round's end. */
  lemma TerminalReopensExactlyWhen(d: Desk, m: Move, id: nat)
    requires StatusOf(d.book, id) == Finished
    ensures StatusOf(After(d, m).book, id) != Finished <==>
            m.deed.Retry? && m.deed.round == id && m.pass in d.flights && d.flights[m.pass] == id
  {
  }

  /** Without a settlement in flight it does stay terminal, whatever happens next. */
  lemma {:induction false} TerminalIsFinal(before: seq<Move>, later: seq<Move>, id: nat)
    requires StatusOf(AfterAll(before).book, id) == Finished && !InFlight(AfterAll(before), id)
    ensures StatusOf(AfterAll(before + later).book, id) == Finished && !InFlight(AfterAll(before + later), id)
  {
    hide Done, StatusOf;
    if later == [] {
      assert before + later == before;
    } else {
      var front, m := later[..|later| - 1], later[|later| - 1];
      TerminalIsFinal(before, front, id);
      assert (before + later)[..|before + later| - 1] == before + front;
      var d := AfterAll(before + front);
      OnlyItsRound(d.book, m.deed, id);
      forall p | p in After(d, m).flights ensures After(d, m).flights[p] != id {
        assert p in d.flights ==> d.flights[p] != id;
      }
    }
  }

  /** A pass dispatches, the watch loop sees the round settled by another keeper, then the
      pass's own transaction fails: the terminal entry is pending again. */
  lemma TerminalReopens(id: nat)
    ensures var seen := [Move(0, Dispatch(id, 1)), Move(1, Observe(id, 2, "Settled on-chain"))];
            && StatusOf(AfterAll(seen).book, id) == Finished
            && StatusOf(AfterAll(seen + [Move(0, Retry(id, 3, "AlreadySettled"))]).book, id) == Pending
  {
    var one := [Move(0, Dispatch(id, 1))];
    var seen := one + [Move(1, Observe(id, 2, "Settled on-chain"))];
    var all := seen + [Move(0, Retry(id, 3, "AlreadySettled"))];
    assert one[..0] == [] && seen[..1] == one && all[..2] == seen;
    assert AfterAll(one).flights == map[0 := id];
    assert AfterAll(seen).flights == map[0 := id];
  }
}
