/** The registry's running aggregates against the table they summarise, over
    every run that begins with `initialize`. */
module RegistryRuns {
  import opened Soroban
  import opened Sums
  import opened RegistryBooks
  import opened Paging

  // ----- references, computed from the table and the log -----

  function Amounts(records: map<U64, StreamRecord>): map<U64, I128> {
    map id | id in records :: records[id].amount
  }

  function Withdrawns(records: map<U64, StreamRecord>): map<U64, I128> {
    map id | id in records :: records[id].withdrawn
  }

  function ActiveRecords(records: map<U64, StreamRecord>): set<U64> {
    set id | id in records && records[id].status == Active
  }

  /** The last withdrawn value reported for `id`, 0 if none was. */
  function LastReport(log: seq<RegistryEvent>, id: U64): int {
    if log == [] then 0
    else
      var e := log[|log| - 1];
      if e.Updated? && e.id == id then e.withdrawn else LastReport(log[..|log| - 1], id)
  }

  /** How far the last event moved the value reported for its stream. */
  function LastMove(log: seq<RegistryEvent>): int
    requires log != []
  {
    var e := log[|log| - 1];
    if e.Updated? then e.withdrawn - LastReport(log[..|log| - 1], e.id) else 0
  }

  /** The sum of all upward moves of reported values. */
  function UpMoves(log: seq<RegistryEvent>): int {
    if log == [] then 0 else UpMoves(log[..|log| - 1]) + Max(LastMove(log), 0)
  }

  /** The sum of all downward moves, as a positive number. */
  function DownMoves(log: seq<RegistryEvent>): int {
    if log == [] then 0 else DownMoves(log[..|log| - 1]) + Max(-LastMove(log), 0)
  }

  // ----- invariants -----

  /** The index of one entry per position lists every recorded id exactly once. */
  ghost predicate IndexOk(b: RegistryBook) {
    && (forall i: U32 :: i in b.streamIdAt <==> i < b.streamCount)
    && |AllIds(b)| == b.streamCount
    && (forall i: U32 :: i < b.streamCount ==> AllIds(b)[i] == b.streamIdAt[i])
    && Distinct(AllIds(b))
    && (forall id: U64 :: id in AllIds(b) <==> id in b.records)
  }

  ghost predicate RecordsOk(b: RegistryBook) {
    forall id :: id in b.records ==>
      var r := b.records[id];
      r.id == id && r.amount >= 0 && r.withdrawn >= 0 && r.withdrawn == LastReport(b.log, id)
  }

  ghost predicate StatsAgree(b: RegistryBook) {
    var stats := StatsOf(b);
    && stats.totalStreams == b.streamCount
    && stats.activeStreams == |ActiveAmong(b.records, AllIds(b))|
    && stats.totalStreamed == Sum(Amounts(b.records))
    && stats.totalWithdrawn == UpMoves(b.log)
    && Sum(Withdrawns(b.records)) == UpMoves(b.log) - DownMoves(b.log)
  }

  /** An event about an id that was never registered reports nothing. */
  ghost predicate LogOk(b: RegistryBook) {
    forall id: U64 :: id !in b.records ==> LastReport(b.log, id) == 0
  }

  ghost predicate TablesOk(b: RegistryBook) {
    IndexOk(b) && RecordsOk(b) && LogOk(b)
  }

  ghost predicate Inv(b: RegistryBook) {
    b.admin.Some? && TablesOk(b) && StatsAgree(b)
  }

  // ----- lists of ids -----

  lemma {:induction false} IdsBetweenAgree(at: map<U32, U64>, at2: map<U32, U64>, lo: nat, hi: U32)
    requires forall i: U32 :: i < hi ==> (i in at <==> i in at2) && (i in at ==> at[i] == at2[i])
    ensures IdsBetween(at, lo, hi) == IdsBetween(at2, lo, hi)
  {
    if hi <= lo {
    } else {
      IdsBetweenAgree(at, at2, lo, hi - 1);
    }
  }

  lemma {:induction false} ActiveAmongAgree(records: map<U64, StreamRecord>, records2: map<U64, StreamRecord>,
                                            ids: seq<U64>)
    requires forall id :: id in ids ==>
               id in records && id in records2 && (records[id].status == Active <==> records2[id].status == Active)
    ensures ActiveAmong(records, ids) == ActiveAmong(records2, ids)
  {
    if ids == [] {
    } else {
      ActiveAmongAgree(records, records2, ids[..|ids| - 1]);
    }
  }

  function One(b: bool): int {
    if b then 1 else 0
  }

  /** Changing one listed record's status changes the number of active ids by that record alone. */
  lemma {:induction false} ActiveAmongUpdate(records: map<U64, StreamRecord>, ids: seq<U64>, id: U64,
                                             record: StreamRecord)
    requires Distinct(ids)
    requires forall i :: i in ids ==> i in records
    requires id in ids
    ensures |ActiveAmong(records[id := record], ids)|
         == |ActiveAmong(records, ids)| - One(records[id].status == Active) + One(record.status == Active)
  {
    var init, last := ids[..|ids| - 1], ids[|ids| - 1];
    if last == id {
      assert id !in init;
      ActiveAmongAgree(records, records[id := record], init);
    } else {
      ActiveAmongUpdate(records, init, id, record);
    }
  }

  /** The listed active ids are a selection of the list, without repeats. */
  lemma {:induction false} ActiveAmongExact(records: map<U64, StreamRecord>, ids: seq<U64>)
    requires Distinct(ids)
    ensures var active := ActiveAmong(records, ids);
            && Distinct(active)
            && forall id: U64 :: id in active <==> id in ids && id in records && records[id].status == Active
  {
    if ids == [] {
    } else {
      var init := ids[..|ids| - 1];
      ActiveAmongExact(records, init);
      assert ids[|ids| - 1] !in init;
      assert forall id: U64 :: id in ids <==> id in init || id == ids[|ids| - 1];
    }
  }

  /** Entries of `part` that stand at positions p < q of `list` keep that order. */
  ghost predicate InOrderOf<T>(part: seq<T>, list: seq<T>) {
    forall i, j, p, q ::
      0 <= i < |part| && 0 <= j < |part| && 0 <= p < q < |list| && part[i] == list[p] && part[j] == list[q] ==> i < j
  }

  lemma InOrderAppend<T>(part: seq<T>, list: seq<T>, x: T)
    requires InOrderOf(part, list)
    requires x !in list && forall y :: y in part ==> y in list
    ensures InOrderOf(part, list + [x])
    ensures InOrderOf(part + [x], list + [x])
  {
    forall i | 0 <= i < |part| ensures part[i] != x {
      assert part[i] in part;
    }
  }

  /** The listed active ids keep the order of the list. */
  lemma {:induction false} ActiveAmongInOrder(records: map<U64, StreamRecord>, ids: seq<U64>)
    requires Distinct(ids)
    ensures InOrderOf(ActiveAmong(records, ids), ids)
  {
    if ids == [] {
    } else {
      var init, last := ids[..|ids| - 1], ids[|ids| - 1];
      hide InOrderOf;
      assert Distinct(init) && last !in init;
      ActiveAmongInOrder(records, init);
      ActiveAmongExact(records, init);
      InOrderAppend(ActiveAmong(records, init), init, last);
      assert ids == init + [last];
      assert ActiveAmong(records, init) + [] == ActiveAmong(records, init);
    }
  }

  lemma {:induction false} DistinctCount(ids: seq<U64>, s: set<U64>)
    requires Distinct(ids)
    requires forall id: U64 :: id in ids <==> id in s
    ensures |s| == |ids|
  {
    if ids == [] {
      assert s == {};
    } else {
      var init, last := ids[..|ids| - 1], ids[|ids| - 1];
      assert ids == init + [last];
      assert last !in init;
      forall id: U64 ensures id in init <==> id in s - {last} {
        assert id in ids <==> id in init || id == last;
      }
      DistinctCount(init, s - {last});
    }
  }

  // ----- register -----

  lemma IndexAppend(b: RegistryBook, b2: RegistryBook, id: U64)
    requires IndexOk(b)
    requires b.streamCount < U32_MAX && id !in b.records
    requires b2.streamCount == b.streamCount + 1
    requires b2.streamIdAt == b.streamIdAt[b.streamCount := id]
    requires b2.records.Keys == b.records.Keys + {id}
    ensures AllIds(b2) == AllIds(b) + [id]
    ensures IndexOk(b2)
  {
    assert AllIds(b2) == AllIds(b) + [id] by {
      IdsBetweenAgree(b.streamIdAt, b2.streamIdAt, 0, b.streamCount);
    }
    hide AllIds;
    assert forall i: U64 :: i in AllIds(b2) <==> i in AllIds(b) || i == id;
    assert forall i: U64 :: i in b2.records <==> i in b.records.Keys + {id};
  }

  lemma LastReportAppend(log: seq<RegistryEvent>, e: RegistryEvent, id: U64)
    ensures LastReport(log + [e], id) == if e.Updated? && e.id == id then e.withdrawn else LastReport(log, id)
  {
    assert (log + [e])[..|log|] == log;
  }

  lemma MovesAppend(log: seq<RegistryEvent>, e: RegistryEvent)
    ensures var move := if e.Updated? then e.withdrawn - LastReport(log, e.id) else 0;
            && UpMoves(log + [e]) == UpMoves(log) + Max(move, 0)
            && DownMoves(log + [e]) == DownMoves(log) + Max(-move, 0)
  {
    assert (log + [e])[..|log|] == log;
  }

  lemma RegisterKeepsTables(b: RegistryBook, id: U64, sender: Address, recipient: Address, token: Address, amount: I128)
    requires TablesOk(b)
    requires RegisterStream(b, id, sender, recipient, token, amount).Ok?
    ensures var b2 := RegisterStream(b, id, sender, recipient, token, amount).value;
            TablesOk(b2) && AllIds(b2) == AllIds(b) + [id]
  {
    hide AllIds, LastReport;
    var b2 := RegisterStream(b, id, sender, recipient, token, amount).value;
    IndexAppend(b, b2, id);
    hide IndexOk;
    forall i: U64 {
      LastReportAppend(b.log, Registered(id, amount), i);
    }
  }

  /** Writing one record moves each table sum by the change of that record. */
  lemma TableSums(records: map<U64, StreamRecord>, id: U64, r: StreamRecord)
    ensures Sum(Amounts(records[id := r]))
         == Sum(Amounts(records)) + r.amount - if id in records then records[id].amount else 0
    ensures Sum(Withdrawns(records[id := r]))
         == Sum(Withdrawns(records)) + r.withdrawn - if id in records then records[id].withdrawn else 0
  {
    hide Sum;
    assert Amounts(records[id := r]) == Amounts(records)[id := r.amount];
    assert Withdrawns(records[id := r]) == Withdrawns(records)[id := r.withdrawn];
    SumUpdate(Amounts(records), id, r.amount);
    SumUpdate(Withdrawns(records), id, r.withdrawn);
  }

  lemma ActiveAmongAppend(records: map<U64, StreamRecord>, ids: seq<U64>, id: U64, r: StreamRecord)
    requires forall i :: i in ids ==> i in records && i != id
    ensures |ActiveAmong(records[id := r], ids + [id])| == |ActiveAmong(records, ids)| + One(r.status == Active)
  {
    ActiveAmongAgree(records, records[id := r], ids);
    assert (ids + [id])[..|ids|] == ids;
  }

  lemma RegisterKeepsStats(b: RegistryBook, id: U64, sender: Address, recipient: Address, token: Address, amount: I128)
    requires TablesOk(b) && StatsAgree(b)
    requires RegisterStream(b, id, sender, recipient, token, amount).Ok?
    requires AllIds(RegisterStream(b, id, sender, recipient, token, amount).value) == AllIds(b) + [id]
    ensures StatsAgree(RegisterStream(b, id, sender, recipient, token, amount).value)
  {
    hide AllIds, Distinct, RecordsOk, LogOk, LastReport, UpMoves, DownMoves, Sum, Amounts, Withdrawns, ActiveAmong;
    var b2 := RegisterStream(b, id, sender, recipient, token, amount).value;
    ActiveAmongAppend(b.records, AllIds(b), id, b2.records[id]);
    MovesAppend(b.log, Registered(id, amount));
    TableSums(b.records, id, b2.records[id]);
  }

  lemma RegisterKeeps(b: RegistryBook, id: U64, sender: Address, recipient: Address, token: Address, amount: I128)
    requires Inv(b)
    requires RegisterStream(b, id, sender, recipient, token, amount).Ok?
    ensures Inv(RegisterStream(b, id, sender, recipient, token, amount).value)
  {
    hide AllIds, TablesOk, StatsAgree;
    RegisterKeepsTables(b, id, sender, recipient, token, amount);
    RegisterKeepsStats(b, id, sender, recipient, token, amount);
  }

  // ----- update -----

  lemma UpdateKeepsTables(b: RegistryBook, id: U64, withdrawn: I128, status: Status)
    requires TablesOk(b)
    requires UpdateStream(b, id, withdrawn, status).Ok?
    ensures var b2 := UpdateStream(b, id, withdrawn, status).value;
            TablesOk(b2) && AllIds(b2) == AllIds(b)
  {
    hide IdsBetween, LastReport;
    var b2 := UpdateStream(b, id, withdrawn, status).value;
    forall i: U64 {
      LastReportAppend(b.log, Updated(id, withdrawn), i);
    }
  }

  lemma UpdateKeepsStats(b: RegistryBook, id: U64, withdrawn: I128, status: Status)
    requires TablesOk(b) && StatsAgree(b)
    requires UpdateStream(b, id, withdrawn, status).Ok?
    ensures var b2 := UpdateStream(b, id, withdrawn, status).value;
            && StatsAgree(b2)
            && StatsOf(b2).activeStreams ==
               StatsOf(b).activeStreams - One(b.records[id].status == Active) + One(status == Active)
  {
    hide IdsBetween, LastReport, UpMoves, DownMoves, Sum, Amounts, Withdrawns, ActiveAmong;
    var b2 := UpdateStream(b, id, withdrawn, status).value;
    ActiveAmongUpdate(b.records, AllIds(b), id, b2.records[id]);
    MovesAppend(b.log, Updated(id, withdrawn));
    TableSums(b.records, id, b2.records[id]);
  }

  /** In a run that began with `initialize` the counter being lowered counts the
      very record that leaves `Active`, so the saturating subtraction is exact. */
  lemma UpdateKeeps(b: RegistryBook, id: U64, withdrawn: I128, status: Status)
    requires Inv(b)
    requires UpdateStream(b, id, withdrawn, status).Ok?
    ensures var b2 := UpdateStream(b, id, withdrawn, status).value;
            && Inv(b2)
            && StatsOf(b2).activeStreams ==
               StatsOf(b).activeStreams - One(b.records[id].status == Active) + One(status == Active)
  {
    hide TablesOk, StatsAgree;
    UpdateKeepsTables(b, id, withdrawn, status);
    UpdateKeepsStats(b, id, withdrawn, status);
  }

  // ----- runs -----

  lemma StepKeeps(b: RegistryBook, call: Call)
    requires Inv(b)
    ensures Inv(Step(b, call))
  {
    hide RegisterStream, UpdateStream, TablesOk, StatsAgree;
    if Perform(b, call).Ok? {
      match call
      case CallInitialize(_, _) =>
      case CallRegister(id, sender, recipient, token, amount) => RegisterKeeps(b, id, sender, recipient, token, amount);
      case CallUpdate(id, withdrawn, status) => UpdateKeeps(b, id, withdrawn, status);
    }
  }

  lemma {:induction false} RunKeeps(b: RegistryBook, calls: seq<Call>)
    requires Inv(b)
    ensures Inv(Run(b, calls))
  {
    hide Inv, Step;
    if calls == [] {
    } else {
      RunKeeps(b, calls[..|calls| - 1]);
      StepKeeps(Run(b, calls[..|calls| - 1]), calls[|calls| - 1]);
    }
  }

  /** A run whose first call is the deployment's `initialize`. */
  function DeployedRun(admin: Address, calls: seq<Call>): RegistryBook {
    Run(Step(EMPTY, CallInitialize({admin}, admin)), calls)
  }

  lemma DeployedInv(admin: Address, calls: seq<Call>)
    ensures Inv(DeployedRun(admin, calls))
  {
    hide Run;
    var b := Step(EMPTY, CallInitialize({admin}, admin));
    assert Amounts(b.records) == map[];
    assert Withdrawns(b.records) == map[];
    RunKeeps(b, calls);
  }

  /** REGISTRY COUNTERS. After `initialize` and any calls, the incrementally kept
      statistics are what a full scan of the table gives, and the position index
      lists exactly the recorded ids. */
  lemma RegistryCounters(admin: Address, calls: seq<Call>)
    ensures var b := DeployedRun(admin, calls);
            var stats := StatsOf(b);
            && stats.totalStreams == b.streamCount == |AllIds(b)| == |b.records|
            && Distinct(AllIds(b))
            && (forall id: U64 :: id in AllIds(b) <==> id in b.records)
            && stats.totalStreamed == Sum(Amounts(b.records))
            && stats.activeStreams == |ActiveAmong(b.records, AllIds(b))|
            && stats.activeStreams == |ActiveRecords(b.records)|
  {
    hide DeployedRun, IdsBetween, ActiveAmong, Distinct, RecordsOk, LogOk, Sum, UpMoves, DownMoves;
    DeployedInv(admin, calls);
    var b := DeployedRun(admin, calls);
    DistinctCount(AllIds(b), b.records.Keys);
    assert |b.records.Keys| == |b.records|;
    ActiveAmongExact(b.records, AllIds(b));
    DistinctCount(ActiveAmong(b.records, AllIds(b)), ActiveRecords(b.records));
  }

  /** ACTIVE LISTING. What `get_active_streams` answers is every id whose record is
      Active, once, in registration order. */
  lemma ActiveListing(admin: Address, calls: seq<Call>)
    ensures var b := DeployedRun(admin, calls);
            var active := ActiveAmong(b.records, AllIds(b));
            && Distinct(active)
            && InOrderOf(active, AllIds(b))
            && forall id: U64 :: id in active <==> id in b.records && b.records[id].status == Active
  {
    hide DeployedRun, IdsBetween, ActiveAmong, Distinct, InOrderOf, RecordsOk, LogOk, StatsAgree;
    DeployedInv(admin, calls);
    ActiveAmongExact(DeployedRun(admin, calls).records, AllIds(DeployedRun(admin, calls)));
    ActiveAmongInOrder(DeployedRun(admin, calls).records, AllIds(DeployedRun(admin, calls)));
  }

  // ----- what accepted calls reported -----

  /** What one call reports if it is accepted, from its arguments. */
  function AcceptedEvent(b: RegistryBook, call: Call): seq<RegistryEvent> {
    if Perform(b, call).Err? then []
    else
      match call
      case CallInitialize(_, _) => []
      case CallRegister(id, _, _, _, amount) => [Registered(id, amount)]
      case CallUpdate(id, withdrawn, _) => [Updated(id, withdrawn)]
  }

  function AcceptedEvents(b: RegistryBook, calls: seq<Call>): seq<RegistryEvent> {
    if calls == [] then []
    else
      var before := calls[..|calls| - 1];
      AcceptedEvents(b, before) + AcceptedEvent(Run(b, before), calls[|calls| - 1])
  }

  lemma StepLogsAccepted(b: RegistryBook, call: Call)
    ensures Step(b, call).log == b.log + AcceptedEvent(b, call)
  {
  }

  /** The log holds the arguments of the accepted calls, in order, and nothing else. */
  lemma {:induction false} LogIsAccepted(b: RegistryBook, calls: seq<Call>)
    ensures Run(b, calls).log == b.log + AcceptedEvents(b, calls)
  {
    hide Step, AcceptedEvent;
    if calls == [] {
    } else {
      LogIsAccepted(b, calls[..|calls| - 1]);
      StepLogsAccepted(Run(b, calls[..|calls| - 1]), calls[|calls| - 1]);
    }
  }

  /** No report on record was below the previous one for the same stream. */
  ghost predicate NeverLowered(log: seq<RegistryEvent>) {
    forall k :: 0 <= k < |log| && log[k].Updated? ==> log[k].withdrawn >= LastReport(log[..k], log[k].id)
  }

  lemma {:induction false} DownMovesZeroIff(log: seq<RegistryEvent>)
    ensures DownMoves(log) >= 0
    ensures DownMoves(log) == 0 <==> NeverLowered(log)
  {
    if log == [] {
    } else {
      var init := log[..|log| - 1];
      DownMovesZeroIff(init);
      forall k | 0 <= k < |init| ensures log[..k] == init[..k] && log[k] == init[k] {
      }
      assert NeverLowered(log) <==> NeverLowered(init) && LastMove(log) >= 0 by {
        if NeverLowered(log) {
          assert log[|log| - 1].Updated? ==> LastMove(log) >= 0;
        }
      }
    }
  }

  /** REGISTRY WITHDRAWALS. Over the reports of the accepted updates: each record
      holds the last one for its id; `total_withdrawn` is the sum of all upward
      moves between successive ones, never below the sum of the current values,
      and equal to it exactly when no report ever lowered one. */
  lemma RegistryWithdrawals(admin: Address, calls: seq<Call>)
    ensures var b := DeployedRun(admin, calls);
            var reports := AcceptedEvents(Step(EMPTY, CallInitialize({admin}, admin)), calls);
            var total := StatsOf(b).totalWithdrawn;
            && b.log == reports
            && (forall id :: id in b.records ==> b.records[id].withdrawn == LastReport(reports, id))
            && total == UpMoves(reports)
            && total >= Sum(Withdrawns(b.records)) >= 0
            && (total == Sum(Withdrawns(b.records)) <==> NeverLowered(reports))
  {
    hide Run, IdsBetween, Distinct;
    DeployedInv(admin, calls);
    var b := DeployedRun(admin, calls);
    LogIsAccepted(Step(EMPTY, CallInitialize({admin}, admin)), calls);
    DownMovesZeroIff(b.log);
    SumNonNegative(Withdrawns(b.records));
  }

  lemma {:induction false} TotalWithdrawnGrows(b: RegistryBook, calls: seq<Call>)
    requires Inv(b)
    ensures StatsOf(Run(b, calls)).totalWithdrawn >= StatsOf(b).totalWithdrawn
  {
    hide TablesOk, StatsAgree;
    if calls == [] {
    } else {
      TotalWithdrawnGrows(b, calls[..|calls| - 1]);
      RunKeeps(b, calls[..|calls| - 1]);
    }
  }

  // ----- pages -----

  /** In a reachable registry no position is skipped: a page is the slice of the list. */
  lemma {:induction false} IdsBetweenSlice(b: RegistryBook, lo: nat, hi: U32)
    requires IndexOk(b)
    requires hi <= b.streamCount
    ensures IdsBetween(b.streamIdAt, lo, hi) == AllIds(b)[Min(lo, hi)..hi]
  {
    hide Distinct;
    if hi <= lo {
    } else {
      assert AllIds(b)[hi - 1] == b.streamIdAt[hi - 1];
      IdsBetweenSlice(b, lo, hi - 1);
    }
  }

  /** What `get_streams_page` answers. */
  function PageAnswer(b: RegistryBook, offset: U32, limit: U32): seq<U64> {
    IdsBetween(b.streamIdAt, offset, Min(SaturatingAdd32(offset, Min(limit, MAX_PAGE_SIZE)), b.streamCount))
  }

  lemma {:induction false} IdsBetweenLength(at: map<U32, U64>, lo: nat, hi: U32)
    ensures |IdsBetween(at, lo, hi)| <= Max(hi - lo, 0)
  {
    if hi <= lo {
    } else {
      IdsBetweenLength(at, lo, hi - 1);
    }
  }

  lemma AnswerWithinIndex(b: RegistryBook, offset: U32, limit: U32)
    ensures PageAnswer(b, offset, limit) == [] || offset + |PageAnswer(b, offset, limit)| <= b.streamCount
  {
    IdsBetweenLength(b.streamIdAt, offset, Min(SaturatingAdd32(offset, Min(limit, MAX_PAGE_SIZE)), b.streamCount));
  }

  /** A client that asks for page after page, each from where the answers so far
      end, until one comes back empty: the ids it is shown. */
  function Listed(b: RegistryBook, offset: U32, limit: U32): seq<U64>
    decreases b.streamCount - offset
  {
    var answer := PageAnswer(b, offset, limit);
    if answer == [] then []
    else
      assert offset + |answer| <= b.streamCount by { AnswerWithinIndex(b, offset, limit); }
      answer + Listed(b, offset + |answer|, limit)
  }

  lemma PageAnswerIsPage(b: RegistryBook, offset: U32, limit: U32)
    requires IndexOk(b)
    ensures PageAnswer(b, offset, limit) == Page(AllIds(b), offset, limit)
  {
    IdsBetweenSlice(b, offset, Min(SaturatingAdd32(offset, Min(limit, MAX_PAGE_SIZE)), b.streamCount));
  }

  lemma ListedStep(b: RegistryBook, offset: U32, limit: U32)
    ensures var answer := PageAnswer(b, offset, limit);
            && (answer == [] ==> Listed(b, offset, limit) == [])
            && (answer != [] ==>
                  && offset + |answer| <= b.streamCount
                  && Listed(b, offset, limit) == answer + Listed(b, offset + |answer|, limit))
  {
    hide PageAnswer;
    AnswerWithinIndex(b, offset, limit);
  }

  lemma {:induction false} ListedIsComplete(b: RegistryBook, offset: U32, limit: U32)
    requires IndexOk(b)
    requires limit >= 1
    requires offset <= b.streamCount
    ensures Listed(b, offset, limit) == AllIds(b)[offset..]
    decreases b.streamCount - offset
  {
    hide Listed, PageAnswer, Page, AllIds, IdsBetween, Distinct;
    var answer := PageAnswer(b, offset, limit);
    PageAnswerIsPage(b, offset, limit);
    PageIsSlice(AllIds(b), offset, limit);
    ListedStep(b, offset, limit);
    if answer == [] {
    } else {
      ListedIsComplete(b, offset + |answer|, limit);
    }
  }

  /** COMPLETE PAGES. What `get_streams_page` answers is the page of the full list,
      and a client that walks its answers with any positive limit is shown every
      registered id once, in registration order. */
  lemma RegistryPages(admin: Address, calls: seq<Call>, offset: U32, limit: U32)
    ensures var b := DeployedRun(admin, calls);
            && PageAnswer(b, offset, limit) == Page(AllIds(b), offset, limit)
            && (limit >= 1 ==> Listed(b, 0, limit) == AllIds(b))
  {
    hide DeployedRun, Listed, PageAnswer, IdsBetween;
    DeployedInv(admin, calls);
    var b := DeployedRun(admin, calls);
    PageAnswerIsPage(b, offset, limit);
    if limit >= 1 {
      ListedIsComplete(b, 0, limit);
      assert AllIds(b)[0..] == AllIds(b);
    }
  }

  // ----- a late initialize -----

  /** Without a successful `initialize` only a registration can leave a mark. */
  lemma {:induction false} UnmarkedBeforeInitialize(calls: seq<Call>)
    ensures var b := Run(EMPTY, calls);
            b.admin.Some? || b == EMPTY || b.streamCount > 0
  {
    if calls == [] {
    } else {
      UnmarkedBeforeInitialize(calls[..|calls| - 1]);
    }
  }

  /** Once initialised, nothing ever changes how many registrations `total_streams` misses. */
  lemma {:induction false} MissingStays(b: RegistryBook, calls: seq<Call>)
    requires b.admin.Some?
    ensures var b2 := Run(b, calls);
            && b2.admin.Some?
            && b2.streamCount - StatsOf(b2).totalStreams == b.streamCount - StatsOf(b).totalStreams
  {
    if calls == [] {
    } else {
      MissingStays(b, calls[..|calls| - 1]);
    }
  }

  /** Nothing makes `register_stream` wait for `initialize`, which zeroes the
      statistics. After any calls before it, refused `initialize`s included, and
      any calls after it, every aggregate agrees with the table exactly when nothing had been registered
      before it, and then the run is one that begins with `initialize`; otherwise
      later calls never repair the counters. */
  lemma LateInitialize(signers: set<Address>, admin: Address, before: seq<Call>, after: seq<Call>)
    requires Run(EMPTY, before).admin == None
    requires admin in signers
    ensures var b := Run(EMPTY, before);
            var b2 := Step(b, CallInitialize(signers, admin));
            && b2.admin == Some(admin)
            && (Inv(Run(b2, after)) <==> b.streamCount == 0)
            && (b.streamCount == 0 ==> Run(b2, after) == DeployedRun(admin, after))
  {
    hide Run, TablesOk;
    UnmarkedBeforeInitialize(before);
    var b := Run(EMPTY, before);
    var b2 := Step(b, CallInitialize(signers, admin));
    MissingStays(b2, after);
    if b.streamCount == 0 {
      DeployedInv(admin, after);
    }
  }

  /** Such a run exists: one registration, then `initialize`. */
  lemma LateInitializeLosesCount(admin: Address, a: Address)
    ensures var b := Run(EMPTY, [CallRegister(1, a, a, a, 5), CallInitialize({admin}, admin)]);
            |b.records| == 1 && StatsOf(b).totalStreams == 0
  {
    var calls := [CallRegister(1, a, a, a, 5), CallInitialize({admin}, admin)];
    assert calls[..1] == [calls[0]];
    assert calls[..1][..0] == [];
    assert Run(EMPTY, calls[..1]) == Step(EMPTY, calls[0]);
  }
}
