/** What a party is shown of its streams. */
module Listings {
  import opened Soroban
  import opened Accrual
  import opened Protocol
  import opened Invariants
  import opened Runs
  import opened Evolution
  import opened Paging
  import opened Streams

  lemma {:induction false} HydratedConcat(streams: map<U64, Stream>, ids: seq<U64>, more: seq<U64>, now: U32)
    ensures Hydrated(streams, ids + more, now) == Hydrated(streams, ids, now) + Hydrated(streams, more, now)
  {
    if more == [] {
      assert ids + more == ids;
    } else {
      assert (ids + more)[..|ids + more| - 1] == ids + more[..|more| - 1];
      HydratedConcat(streams, ids, more[..|more| - 1], now);
    }
  }

  lemma EmptyPageShowsNothing(streams: map<U64, Stream>, index: seq<U64>, now: U32, offset: nat, limit: nat)
    ensures offset >= |index| ==> Hydrated(streams, Page(index, offset, limit), now) == []
  {
  }

  /** A client that asks for page after page, each from where the answers so far
      end, until one comes back empty: the streams it is shown. */
  function Shown(streams: map<U64, Stream>, index: seq<U64>, now: U32, offset: nat, limit: nat): seq<Stream>
    decreases |index| - offset
  {
    var answer := Hydrated(streams, Page(index, offset, limit), now);
    if answer == [] then []
    else
      assert offset < |index| by { EmptyPageShowsNothing(streams, index, now, offset, limit); }
      answer + Shown(streams, index, now, offset + |answer|, limit)
  }

  /** One more request: the answer has as many streams as the page has ids. */
  lemma ShownStep(streams: map<U64, Stream>, index: seq<U64>, now: U32, offset: nat, limit: nat)
    requires forall id :: id in Page(index, offset, limit) ==> id in streams
    ensures var page := Page(index, offset, limit);
            Shown(streams, index, now, offset, limit) ==
            if page == [] then []
            else Hydrated(streams, page, now) + Shown(streams, index, now, offset + |page|, limit)
  {
    HydratesAll(streams, Page(index, offset, limit), now);
  }

  /** Over an index whose ids are all stored the client is shown every one, once. */
  lemma {:induction false} ShownIsComplete(streams: map<U64, Stream>, index: seq<U64>, now: U32,
                                           offset: nat, limit: nat)
    requires forall id :: id in index ==> id in streams
    requires limit >= 1
    requires offset <= |index|
    ensures Shown(streams, index, now, offset, limit) == Hydrated(streams, index[offset..], now)
    decreases |index| - offset
  {
    hide Shown, Page;
    var page := Page(index, offset, limit);
    PageIsSlice(index, offset, limit);
    ShownStep(streams, index, now, offset, limit);
    if page == [] {
    } else {
      hide Hydrated;
      ShownIsComplete(streams, index, now, offset + |page|, limit);
      assert index[offset..] == page + index[offset + |page|..];
      HydratedConcat(streams, page, index[offset + |page|..], now);
    }
  }

  /** What is shown of a stream after any run: what is stored, under the status its
      terms, the ledger and its cancels give it. */
  lemma ShownStatus(start: World, ops: seq<Op>, id: U64)
    requires Initial(start)
    requires id in Run(start, ops).book.streams
    ensures var w := Run(start, ops);
            var s, r := w.book.streams[id], Refreshed(w.book.streams[id], w.now);
            && r == s.(status := r.status)
            && StatusSays(r.status, s.startLedger, s.endLedger, CancelledDuring(start, ops, id), w.now)
  {
    hide Run, Refreshed, CancelledDuring, Indexed;
    InitialInv(start);
    RunKeeps(start, ops);
    CancelledIff(start, ops, id);
    RefreshedIsLive(Run(start, ops).book.streams[id], Run(start, ops).now);
  }

  /** COMPLETE LISTINGS. After any run, a party that walks the answers of its page
      endpoint with any positive limit is shown every stream naming it, once, in
      creation order, as stored but under its live status: Cancelled if and only if
      a `cancel_stream` on it succeeded, and otherwise as the ledger has it. */
  lemma PagesShowEveryStream(start: World, ops: seq<Op>, role: Role, party: Address, limit: nat)
    requires Initial(start)
    requires limit >= 1
    ensures var w := Run(start, ops);
            var ids := IdsNaming(w.book.streams, w.book.lastId, role, party);
            var shown := Shown(w.book.streams, IndexOf(w.book, role, party), w.now, 0, limit);
            && |shown| == |ids|
            && forall i :: 0 <= i < |ids| ==>
                 && ids[i] in w.book.streams
                 && var s := w.book.streams[ids[i]];
                    && shown[i] == s.(status := shown[i].status)
                    && StatusSays(shown[i].status, s.startLedger, s.endLedger,
                                  CancelledDuring(start, ops, ids[i]), w.now)
  {
    hide Run, Shown, Hydrated, IdsNaming, Refreshed, StatusSays, CancelledDuring;
    var w := Run(start, ops);
    var index := IndexOf(w.book, role, party);
    IndexAgreement(start, ops, role, party);
    forall i | 0 <= i < |index| ensures index[i] in w.book.streams {
      assert index[i] in index;
    }
    ShownIsComplete(w.book.streams, index, w.now, 0, limit);
    assert index[0..] == index;
    HydratesAll(w.book.streams, index, w.now);
    forall i | 0 <= i < |index| {
      ShownStatus(start, ops, index[i]);
    }
  }
}
