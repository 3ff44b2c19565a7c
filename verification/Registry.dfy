/** The registry contract, field by field and loop by loop, proved against the
    effects stated in `RegistryBooks`. */
module Registry {
  import opened Soroban
  import opened RegistryBooks
  import opened Paging

  class RegistryContract {
    var admin: Option<Address>
    var streamCount: U32
    var streamIdAt: map<U32, U64>
    var records: map<U64, StreamRecord>
    var stats: Option<Stats>
    var log: seq<RegistryEvent>

    function Book(): RegistryBook
      reads this
    {
      RegistryBook(admin, streamCount, streamIdAt, records, stats, log)
    }

    constructor ()
      ensures Book() == EMPTY
    {
      admin, streamCount, streamIdAt, records, stats, log := None, 0, map[], map[], None, [];
    }

    /** Puts the entries back as they were when a call began. */
    method Restore(book: RegistryBook)
      modifies this
      ensures Book() == book
    {
      admin, streamCount, streamIdAt := book.admin, book.streamCount, book.streamIdAt;
      records, stats, log := book.records, book.stats, book.log;
    }

    function GetStats(): Stats
      reads this
    {
      StatsOf(Book())
    }

    /** One entry per registration position; the counter traps at the end of u32. */
    method AddStreamId(id: U64) returns (r: Outcome<Unit>)
      modifies this`streamIdAt, this`streamCount
      ensures if old(streamCount) < U32_MAX then
                && r == Ok(Unit)
                && streamIdAt == old(streamIdAt)[old(streamCount) := id]
                && streamCount == old(streamCount) + 1
              else r == Err(HostTrap)
    {
      var index := streamCount;
      streamIdAt := streamIdAt[index := id];
      if index == U32_MAX {
        return Err(HostTrap);
      }
      streamCount := index + 1;
      return Ok(Unit);
    }

    method Initialize(signers: set<Address>, admin: Address) returns (r: Outcome<Unit>)
      modifies this
      ensures match RegistryBooks.Initialize(old(Book()), signers, admin)
              case Ok(b) => r == Ok(Unit) && Book() == b
              case Err(e) => r == Err(e)
    {
      if this.admin.Some? {
        return Err(RegistryFailure(RegistryAlreadyInitialized));
      }
      if admin !in signers {
        return Err(AuthFailure);
      }
      this.admin := Some(admin);
      stats := Some(Stats(0, 0, 0, 0));
      return Ok(Unit);
    }

    method RegisterStream(id: U64, sender: Address, recipient: Address, token: Address, amount: I128)
      returns (r: Outcome<Unit>)
      modifies this
      ensures match RegistryBooks.RegisterStream(old(Book()), id, sender, recipient, token, amount)
              case Ok(b) => r == Ok(Unit) && Book() == b
              case Err(e) => r == Err(e)
    {
      if amount < 0 {
        return Err(RegistryFailure(RegistryInvalidAmount));
      }
      if id in records {
        return Err(RegistryFailure(AlreadyRegistered));
      }

      var record := StreamRecord(id, sender, recipient, token, amount, 0, Active);
      records := records[record.id := record];
      var added := AddStreamId(id);
      if added.Err? {
        return Err(added.error);
      }

      var stats := GetStats();
      var totalStreams := CheckedCount(stats.totalStreams + 1);
      if totalStreams.Err? {
        return Err(totalStreams.error);
      }
      stats := stats.(totalStreams := totalStreams.value);
      var activeStreams := CheckedCount(stats.activeStreams + 1);
      if activeStreams.Err? {
        return Err(activeStreams.error);
      }
      stats := stats.(activeStreams := activeStreams.value);
      var totalStreamed := Checked(stats.totalStreamed + amount, OVERFLOW);
      if totalStreamed.Err? {
        return Err(totalStreamed.error);
      }
      stats := stats.(totalStreamed := totalStreamed.value);
      this.stats := Some(stats);

      log := log + [Registered(id, amount)];
      return Ok(Unit);
    }

    method UpdateStream(id: U64, withdrawn: I128, status: Status) returns (r: Outcome<Unit>)
      modifies this
      ensures match RegistryBooks.UpdateStream(old(Book()), id, withdrawn, status)
              case Ok(b) => r == Ok(Unit) && Book() == b
              case Err(e) => r == Err(e)
    {
      if withdrawn < 0 {
        return Err(RegistryFailure(RegistryInvalidAmount));
      }
      if id !in records {
        return Err(RegistryFailure(RecordNotFound));
      }
      var record := records[id];
      var stats := GetStats();

      var withdrawnDelta := Checked(withdrawn - record.withdrawn, OVERFLOW);
      if withdrawnDelta.Err? {
        return Err(withdrawnDelta.error);
      }
      if withdrawnDelta.value > 0 {
        var totalWithdrawn := Checked(stats.totalWithdrawn + withdrawnDelta.value, OVERFLOW);
        if totalWithdrawn.Err? {
          return Err(totalWithdrawn.error);
        }
        stats := stats.(totalWithdrawn := totalWithdrawn.value);
      }

      var wasActive, willBeActive := record.status == Active, status == Active;
      if wasActive && !willBeActive {
        stats := stats.(activeStreams := Max(stats.activeStreams - 1, 0));
      } else if !wasActive && willBeActive {
        var activeStreams := CheckedCount(stats.activeStreams + 1);
        if activeStreams.Err? {
          return Err(activeStreams.error);
        }
        stats := stats.(activeStreams := activeStreams.value);
      }

      record := record.(withdrawn := withdrawn);
      record := record.(status := status);
      records := records[record.id := record];
      this.stats := Some(stats);

      log := log + [Updated(id, withdrawn)];
      return Ok(Unit);
    }

    // ----- queries -----

    method GetStreamIdsPage(offset: U32, limit: U32) returns (out: seq<U64>)
      ensures out == IdsBetween(streamIdAt, offset, Min(SaturatingAdd32(offset, limit), streamCount))
    {
      var end := Min(SaturatingAdd32(offset, limit), streamCount);
      out := [];
      var index := offset;
      while index < end
        invariant offset <= index
        invariant offset < end ==> index <= end
        invariant out == IdsBetween(streamIdAt, offset, if offset < end then index else end)
      {
        if index in streamIdAt {
          out := out + [streamIdAt[index]];
        }
        index := index + 1;
      }
    }

    method GetAllStreamIds() returns (out: seq<U64>)
      ensures out == AllIds(Book())
    {
      out := GetStreamIdsPage(0, streamCount);
    }

    method GetStreamsPage(offset: U32, limit: U32) returns (out: seq<U64>)
      ensures out == IdsBetween(streamIdAt, offset,
                                Min(SaturatingAdd32(offset, Min(limit, MAX_PAGE_SIZE)), streamCount))
    {
      out := GetStreamIdsPage(offset, Min(limit, MAX_PAGE_SIZE));
    }

    method GetActiveStreams() returns (out: seq<U64>)
      ensures out == ActiveAmong(records, AllIds(Book()))
    {
      var ids := GetAllStreamIds();
      out := [];
      for i := 0 to |ids|
        invariant out == ActiveAmong(records, ids[..i])
      {
        assert ids[..i + 1][..i] == ids[..i];
        if ids[i] in records {
          if records[ids[i]].status == Active {
            out := out + [ids[i]];
          }
        }
      }
      assert ids[..|ids|] == ids;
    }
  }

  /** One transaction against the registry: a failing call is undone. */
  method Execute(registry: RegistryContract, call: Call) returns (r: Outcome<Unit>)
    modifies registry
    ensures registry.Book() == Step(old(registry.Book()), call)
    ensures r.Ok? <==> Perform(old(registry.Book()), call).Ok?
    ensures r.Err? ==> r.error == Perform(old(registry.Book()), call).error
  {
    hide RegistryBooks.Initialize, RegistryBooks.RegisterStream, RegistryBooks.UpdateStream;
    var before := registry.Book();
    match call {
      case CallInitialize(signers, admin) =>
        r := registry.Initialize(signers, admin);
      case CallRegister(id, sender, recipient, token, amount) =>
        r := registry.RegisterStream(id, sender, recipient, token, amount);
      case CallUpdate(id, withdrawn, status) =>
        r := registry.UpdateStream(id, withdrawn, status);
    }
    if r.Err? {
      registry.Restore(before);
    }
  }
}
