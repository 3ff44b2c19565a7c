/** The registry's tables and the effect of its calls on them
    (contracts/registry/src/lib.rs, contracts/registry/src/storage.rs). */
module RegistryBooks {
  import opened Soroban

  datatype Status = Pending | Active | Completed | Cancelled

  datatype StreamRecord = StreamRecord(
    id: U64,
    sender: Address,
    recipient: Address,
    token: Address,
    amount: I128,
    withdrawn: I128,
    status: Status)

  datatype Stats = Stats(totalStreams: U64, activeStreams: U64, totalStreamed: I128, totalWithdrawn: I128)

  datatype RegistryEvent =
    | Registered(id: U64, amount: I128)
    | Updated(id: U64, withdrawn: I128)

  datatype RegistryBook = RegistryBook(
    admin: Option<Address>,
    streamCount: U32,
    streamIdAt: map<U32, U64>,
    records: map<U64, StreamRecord>,
    stats: Option<Stats>,
    log: seq<RegistryEvent>)

  const NO_STATS := Stats(0, 0, 0, 0)
  const OVERFLOW := RegistryFailure(RegistryMathOverflow)

  function StatsOf(b: RegistryBook): Stats {
    if b.stats.Some? then b.stats.value else NO_STATS
  }

  function Initialize(b: RegistryBook, signers: set<Address>, admin: Address): Outcome<RegistryBook> {
    var vacant := b.admin.None?;
    :- Check(vacant, RegistryFailure(RegistryAlreadyInitialized));
    :- Check(admin in signers, AuthFailure);
    Ok(b.(admin := Some(admin), stats := Some(NO_STATS)))
  }

  function CheckedCount(n: int): Outcome<U64> {
    if 0 <= n <= U64_MAX then Ok(n) else Err(OVERFLOW)
  }

  function RegisterStream(b: RegistryBook, id: U64, sender: Address, recipient: Address, token: Address, amount: I128)
    : Outcome<RegistryBook>
  {
    var stats := StatsOf(b);
    :- Check(amount >= 0, RegistryFailure(RegistryInvalidAmount));
    :- Check(id !in b.records, RegistryFailure(AlreadyRegistered));
    :- Check(b.streamCount < U32_MAX, HostTrap);
    var totalStreams :- CheckedCount(stats.totalStreams + 1);
    var activeStreams :- CheckedCount(stats.activeStreams + 1);
    var totalStreamed :- Checked(stats.totalStreamed + amount, OVERFLOW);
    Ok(b.(records := b.records[id := StreamRecord(id, sender, recipient, token, amount, 0, Active)],
          streamIdAt := b.streamIdAt[b.streamCount := id],
          streamCount := b.streamCount + 1,
          stats := Some(Stats(totalStreams, activeStreams, totalStreamed, stats.totalWithdrawn)),
          log := b.log + [Registered(id, amount)]))
  }

  function UpdatedActive(active: U64, was: bool, will: bool): Outcome<U64> {
    if was && !will then Ok(Max(active - 1, 0))
    else if !was && will then CheckedCount(active + 1)
    else Ok(active)
  }

  function UpdateStream(b: RegistryBook, id: U64, withdrawn: I128, status: Status): Outcome<RegistryBook> {
    var stats := StatsOf(b);
    :- Check(withdrawn >= 0, RegistryFailure(RegistryInvalidAmount));
    :- Check(id in b.records, RegistryFailure(RecordNotFound));
    var record := b.records[id];
    var delta :- Checked(withdrawn - record.withdrawn, OVERFLOW);
    var totalWithdrawn :- Checked(stats.totalWithdrawn + Max(delta, 0), OVERFLOW);
    var activeStreams :- UpdatedActive(stats.activeStreams, record.status == Active, status == Active);
    Ok(b.(records := b.records[record.id := record.(withdrawn := withdrawn, status := status)],
          stats := Some(stats.(totalWithdrawn := totalWithdrawn, activeStreams := activeStreams)),
          log := b.log + [Updated(id, withdrawn)]))
  }

  datatype Call =
    | CallInitialize(signers: set<Address>, admin: Address)
    | CallRegister(id: U64, sender: Address, recipient: Address, token: Address, amount: I128)
    | CallUpdate(id: U64, withdrawn: I128, status: Status)

  function Perform(b: RegistryBook, call: Call): Outcome<RegistryBook> {
    match call
    case CallInitialize(signers, admin) => Initialize(b, signers, admin)
    case CallRegister(id, sender, recipient, token, amount) => RegisterStream(b, id, sender, recipient, token, amount)
    case CallUpdate(id, withdrawn, status) => UpdateStream(b, id, withdrawn, status)
  }

  /** A failed call leaves no trace. */
  function Step(b: RegistryBook, call: Call): RegistryBook {
    var r := Perform(b, call);
    if r.Ok? then r.value else b
  }

  function Run(b: RegistryBook, calls: seq<Call>): RegistryBook {
    if calls == [] then b
    else Step(Run(b, calls[..|calls| - 1]), calls[|calls| - 1])
  }

  const EMPTY := RegistryBook(None, 0, map[], map[], None, [])

  // ----- queries -----

  /** The ids at positions lo..hi of the index, skipping positions without an entry. */
  function IdsBetween(at: map<U32, U64>, lo: nat, hi: U32): seq<U64> {
    if hi <= lo then []
    else IdsBetween(at, lo, hi - 1) + if hi - 1 in at then [at[hi - 1]] else []
  }

  function AllIds(b: RegistryBook): seq<U64> {
    IdsBetween(b.streamIdAt, 0, b.streamCount)
  }

  function ActiveAmong(records: map<U64, StreamRecord>, ids: seq<U64>): seq<U64> {
    if ids == [] then []
    else
      var id := ids[|ids| - 1];
      ActiveAmong(records, ids[..|ids| - 1])
      + if id in records && records[id].status == Active then [id] else []
  }
}
