/** The paginated bidder index (contracts/round/src/lib.rs, `get_bidders_page`) and the
    client's generator over it (packages/sdk/src/client.ts, `bidders`), while others keep
    committing between the pages. */
module Paging {
  import opened Base
  import opened Tokens
  import opened Rounds
  import opened Rules
  import opened Clearing
  import opened Invariants
  import opened Machine
  import opened Histories
  import opened Contract
  import opened Keeper

  const MAX_PAGE_SIZE: U32 := 100

  datatype Page = Page(data: seq<Address>, nextCursor: U32, total: U32)

  /** `get_bidders_page` on a stored index. A cursor past the end gives an empty last page;
      the addition stays within u32 because the index is short. */
  method BiddersPage(index: Option<seq<Address>>, cursor: U32, limit: U32) returns (r: Result<Page, Error>)
    requires index.Some? ==> |index.value| <= MAX_BIDDERS
    ensures r == Err(InvalidLimit) <==> limit == 0 || limit > MAX_PAGE_SIZE
    ensures r == Err(RoundNotFound) <==> 0 < limit <= MAX_PAGE_SIZE && index.None?
    ensures r.Ok? <==> 0 < limit <= MAX_PAGE_SIZE && index.Some?
    ensures r.Ok? ==>
              var all, page := index.value, r.value;
              && page.total == |all|
              && |page.data| <= limit
              && (page.nextCursor == 0 ==> page.data == all[if cursor < |all| then cursor else |all|..]
                                           && |all| <= cursor + limit)
              && (page.nextCursor != 0 ==> cursor < page.nextCursor < |all| && page.data == all[cursor..page.nextCursor]
                                           && page.nextCursor == cursor + limit)
  {
    if limit == 0 || limit > MAX_PAGE_SIZE {
      return Err(InvalidLimit);
    }
    if index.None? {
      return Err(RoundNotFound);
    }
    var bidders := index.value;
    var total: U32 := |bidders|;
    var start: U32 := if cursor < total then cursor else total;
    var sum: U32 := start + limit;
    var end: U32 := if sum < total then sum else total;
    var data := [];
    for i := start to end
      invariant data == bidders[start..i]
    {
      data := data + [bidders[i]];
    }
    var nextCursor: U32 := if end < total then end else 0;
    return Ok(Page(data, nextCursor, total));
  }

  lemma IndexOf(h: Host, s: State, id: nat)
    requires Good(h, s) && id in s.v1
    ensures NoRepeats(s.v1[id].round.bidders) && |s.v1[id].round.bidders| <= MAX_BIDDERS
  {
    hide Solvent, NoRepeats, Verdict, OpeningOk;
  }

  lemma IndexOnlyGrows(h: Host, s: State, es: seq<Event>, id: nat)
    requires Good(h, s) && AllHonest(h, es) && id in s.v1
    ensures var t := Run(h, s, es); id in t.v1 && s.v1[id].round.bidders <= t.v1[id].round.bidders
  {
    hide Solvent, CellInv;
    RunEvolves(h, s, es, V1, id);
  }

  method LetOthersAct(contract: RoundContract, es: seq<Event>, ghost id: nat)
    requires contract.Valid() && Good(contract.host, contract.View()) && id in contract.v1
    requires AllHonest(contract.host, es) && AllCallable(es)
    modifies contract
    ensures contract.Valid() && Good(contract.host, contract.View())
    ensures id in contract.v1 && old(contract.v1[id].round.bidders) <= contract.v1[id].round.bidders
  {
    hide Good, Run;
    RunStaysGood(contract.host, contract.View(), es);
    IndexOnlyGrows(contract.host, contract.View(), es, id);
    contract.PerformAll(es);
  }

  /** One turn of the generator: what it has yielded so far grows by one page. */
  method NextPage(index: seq<Address>, yielded: seq<Address>, cursor: U32) returns (more: seq<Address>, next: U32)
    requires |index| <= MAX_BIDDERS && cursor <= |index| && yielded == index[..cursor]
    ensures next == 0 ==> more == index && |index| <= cursor + MAX_PAGE_SIZE
    ensures next != 0 ==> next == cursor + MAX_PAGE_SIZE < |index| && more == index[..next]
  {
    var page := BiddersPage(Some(index), cursor, MAX_PAGE_SIZE);
    more := yielded;
    for i := 0 to |page.value.data|
      invariant more == yielded + page.value.data[..i]
    {
      more := more + [page.value.data[i]];
    }
    next := page.value.nextCursor;
  }

  /** The generator: it always ends, after no more pages than the
      index needs; it yields exactly the bidder
      index as of the last page it read, in order and without repeats, although others may do
      anything between the pages. Only an unknown round is an error. */
  method Bidders(contract: RoundContract, id: nat, between: seq<seq<Event>>) returns (r: Result<seq<Address>, Error>, pages: nat)
    requires contract.Valid() && Good(contract.host, contract.View())
    requires forall k :: 0 <= k < |between| ==> AllHonest(contract.host, between[k]) && AllCallable(between[k])
    modifies contract
    ensures contract.Valid() && Good(contract.host, contract.View())
    ensures r.Err? <==> id !in old(contract.v1)
    ensures r.Err? ==> r.error == RoundNotFound
    ensures r.Ok? ==> id in contract.v1 && r.value == contract.v1[id].round.bidders && NoRepeats(r.value)
    ensures r.Ok? ==> old(contract.v1[id].round.bidders) <= r.value
    ensures 1 <= pages <= 5
    ensures r.Ok? ==> (pages - 1) * MAX_PAGE_SIZE <= |r.value| <= pages * MAX_PAGE_SIZE
    ensures r.Ok? && pages > 1 ==> (pages - 1) * MAX_PAGE_SIZE < |r.value|
  {
    hide Good, NoRepeats, AllHonest, AllCallable;
    if id !in contract.v1 {
      var missing := BiddersPage(None, 0, MAX_PAGE_SIZE);
      return Err(missing.error), 1;
    }
    var cursor: U32 := 0;
    var yielded: seq<Address> := [];
    pages := 0;
    while true
      invariant contract.Valid() && Good(contract.host, contract.View())
      invariant id in contract.v1 && old(contract.v1[id].round.bidders) <= contract.v1[id].round.bidders
      invariant cursor == 0 || cursor < |contract.v1[id].round.bidders|
      invariant yielded == contract.v1[id].round.bidders[..cursor]
      invariant cursor == pages * MAX_PAGE_SIZE && cursor < MAX_BIDDERS
      decreases MAX_BIDDERS - cursor
    {
      IndexOf(contract.host, contract.View(), id);
      yielded, cursor := NextPage(contract.v1[id].round.bidders, yielded, cursor);
      pages := pages + 1;
      if cursor == 0 {
        return Ok(yielded), pages;
      }
      if pages <= |between| {
        LetOthersAct(contract, between[pages - 1], id);
      }
    }
  }
}
