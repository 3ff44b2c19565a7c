/** What each call of the registry answers and writes, argument by argument. */
module RegistryCalls {
  import opened Soroban
  import opened Sums
  import opened RegistryBooks
  import opened RegistryRuns

  lemma EmptyTablesOk()
    ensures TablesOk(EMPTY)
  {
  }

  lemma InitializeKeepsTables(b: RegistryBook, signers: set<Address>, admin: Address)
    requires TablesOk(b)
    requires Initialize(b, signers, admin).Ok?
    ensures TablesOk(Initialize(b, signers, admin).value)
  {
  }

  /** Whatever is called, `initialize` or not, the tables stay in order. */
  lemma {:induction false} TablesAlwaysOk(calls: seq<Call>)
    ensures TablesOk(Run(EMPTY, calls))
  {
    hide TablesOk, RegisterStream, UpdateStream;
    if calls == [] {
      EmptyTablesOk();
    } else {
      var before, call := Run(EMPTY, calls[..|calls| - 1]), calls[|calls| - 1];
      TablesAlwaysOk(calls[..|calls| - 1]);
      if Perform(before, call).Ok? {
        match call
        case CallInitialize(signers, admin) => InitializeKeepsTables(before, signers, admin);
        case CallRegister(id, sender, recipient, token, amount) =>
          RegisterKeepsTables(before, id, sender, recipient, token, amount);
        case CallUpdate(id, withdrawn, status) => UpdateKeepsTables(before, id, withdrawn, status);
      }
    }
  }

  lemma InitializeExact(b: RegistryBook, signers: set<Address>, admin: Address)
    ensures var r := Perform(b, CallInitialize(signers, admin));
            if b.admin.Some? then r == Err(RegistryFailure(RegistryAlreadyInitialized))
            else if admin !in signers then r == Err(AuthFailure)
            else r == Ok(b.(admin := Some(admin), stats := Some(Stats(0, 0, 0, 0))))
  {
  }

  /** The exact outcome of `register_stream` in every state a run can reach: the
      record holds what was passed, as Active with nothing withdrawn, its id is the
      next in registration order, and each counter moves by its share. */
  lemma RegisterExact(b: RegistryBook, id: U64, sender: Address, recipient: Address, token: Address, amount: I128)
    requires TablesOk(b)
    ensures var r, stats := Perform(b, CallRegister(id, sender, recipient, token, amount)), StatsOf(b);
            if amount < 0 then r == Err(RegistryFailure(RegistryInvalidAmount))
            else if id in b.records then r == Err(RegistryFailure(AlreadyRegistered))
            else if b.streamCount == U32_MAX then r == Err(HostTrap)
            else if stats.totalStreams == U64_MAX || stats.activeStreams == U64_MAX
                    || stats.totalStreamed + amount > I128_MAX then r == Err(RegistryFailure(RegistryMathOverflow))
            else
              && r.Ok?
              && r.value.admin == b.admin
              && r.value.records == b.records[id := StreamRecord(id, sender, recipient, token, amount, 0, Active)]
              && r.value.streamCount == b.streamCount + 1
              && AllIds(r.value) == AllIds(b) + [id]
              && StatsOf(r.value) == Stats(stats.totalStreams + 1, stats.activeStreams + 1,
                                           stats.totalStreamed + amount, stats.totalWithdrawn)
              && r.value.log == b.log + [Registered(id, amount)]
  {
    hide TablesOk, AllIds;
    if RegisterStream(b, id, sender, recipient, token, amount).Ok? {
      RegisterKeepsTables(b, id, sender, recipient, token, amount);
    }
  }

  /** The exact outcome of `update_stream` in every state a run can reach: the
      record of `id` takes the two values passed and nothing else moves but the
      counters; the value withdrawn adds to the total only where it went up. */
  lemma UpdateExact(b: RegistryBook, id: U64, withdrawn: I128, status: Status)
    requires TablesOk(b)
    ensures var r, stats := Perform(b, CallUpdate(id, withdrawn, status)), StatsOf(b);
            if withdrawn < 0 then r == Err(RegistryFailure(RegistryInvalidAmount))
            else if id !in b.records then r == Err(RegistryFailure(RecordNotFound))
            else
              var record := b.records[id];
              var raised := Max(withdrawn - record.withdrawn, 0);
              var leaves := record.status == Active && status != Active;
              var joins := record.status != Active && status == Active;
              if stats.totalWithdrawn + raised > I128_MAX || (joins && stats.activeStreams == U64_MAX) then
                r == Err(RegistryFailure(RegistryMathOverflow))
              else
                && r.Ok?
                && r.value.records == b.records[id := record.(withdrawn := withdrawn, status := status)]
                && r.value == b.(records := r.value.records, stats := r.value.stats, log := r.value.log)
                && StatsOf(r.value).totalStreams == stats.totalStreams
                && StatsOf(r.value).totalStreamed == stats.totalStreamed
                && StatsOf(r.value).totalWithdrawn == stats.totalWithdrawn + raised
                && StatsOf(r.value).activeStreams ==
                   (if leaves then Max(stats.activeStreams - 1, 0) else stats.activeStreams + One(joins))
                && r.value.log == b.log + [Updated(id, withdrawn)]
  {
    hide IdsBetween, LastReport;
  }

  lemma {:induction false} ActiveAmongIsShort(records: map<U64, StreamRecord>, ids: seq<U64>)
    ensures |ActiveAmong(records, ids)| <= |ids|
  {
    if ids == [] {
    } else {
      ActiveAmongIsShort(records, ids[..|ids| - 1]);
    }
  }

  /** In a run that began with `initialize` the 64-bit counters never refuse a
      call: `MathOverflow` means that the sum of the amounts, or of the upward
      moves, would leave i128. */
  lemma OverflowIff(b: RegistryBook, call: Call)
    requires Inv(b)
    ensures Perform(b, call) == Err(RegistryFailure(RegistryMathOverflow)) <==>
            match call
            case CallInitialize(_, _) => false
            case CallRegister(id, _, _, _, amount) =>
              && amount >= 0 && id !in b.records && |b.records| < U32_MAX
              && Sum(Amounts(b.records)) + amount > I128_MAX
            case CallUpdate(id, withdrawn, _) =>
              && withdrawn >= 0 && id in b.records
              && UpMoves(b.log) + Max(withdrawn - b.records[id].withdrawn, 0) > I128_MAX
  {
    hide Perform, AllIds, Distinct, RecordsOk, LogOk, Sum, Amounts, UpMoves, ActiveAmong;
    DistinctCount(AllIds(b), b.records.Keys);
    assert |b.records.Keys| == |b.records|;
    ActiveAmongIsShort(b.records, AllIds(b));
    match call
    case CallInitialize(signers, admin) => InitializeExact(b, signers, admin);
    case CallRegister(id, sender, recipient, token, amount) => RegisterExact(b, id, sender, recipient, token, amount);
    case CallUpdate(id, withdrawn, status) => UpdateExact(b, id, withdrawn, status);
  }
}
