/** The wired system as a state machine: stream contract, vault, tokens and
    ledger clock (contracts/stream/src/lib.rs, contracts/stream/src/storage.rs). */
module Protocol {
  import opened Soroban
  import opened Accrual
  import opened Custody
  import Token

  /** A Soroban `Vec` counts its elements in a u32. */
  type Ids = s: seq<U64> | |s| <= U32_MAX

  datatype Terms = Terms(
    sender: Address,
    recipient: Address,
    token: Address,
    totalAmount: I128,
    startLedger: U32,
    endLedger: U32,
    cliffLedger: U32,
    cancellable: bool)

  datatype StreamEvent =
    | Created(id: U64, terms: Terms)
    | Withdrew(id: U64, recipient: Address, amount: I128)
    | Cancelled(id: U64, sender: Address, streamedNow: I128, remainder: I128)
    | PauseSet(admin: Address, paused: bool)

  /** An event with the ledger whose transaction emitted it. */
  datatype Entry = Entry(ledger: U32, event: StreamEvent)

  datatype StreamBook = StreamBook(
    self: Address,
    admin: Option<Address>,
    vault: Option<Address>,
    paused: bool,
    lastId: U64,
    streams: map<U64, Stream>,
    senderStreams: map<Address, Ids>,
    recipientStreams: map<Address, Ids>,
    log: seq<Entry>)

  datatype World = World(now: U32, book: StreamBook, holdings: Holdings)

  datatype Reply = Nothing | StreamId(id: U64) | Amount(amount: I128)

  datatype Done = Done(world: World, reply: Reply)

  function NewStream(id: U64, terms: Terms, now: U32): Stream {
    Stream(id, terms.sender, terms.recipient, terms.token, terms.totalAmount, 0,
           terms.startLedger, terms.endLedger, terms.cliffLedger, terms.cancellable,
           Status.Pending, now, 0)
  }

  function TermsOf(s: Stream): Terms {
    Terms(s.sender, s.recipient, s.token, s.totalAmount, s.startLedger, s.endLedger, s.cliffLedger, s.cancellable)
  }

  // ----- the stream contract's calls -----

  function StreamErr(e: StreamError): Failure {
    StreamFailure(e)
  }

  function Push(index: map<Address, Ids>, party: Address, id: U64): Outcome<map<Address, Ids>> {
    var list := GetOr(index, party, []);
    :- Check(|list| < U32_MAX, HostTrap);
    Ok(index[party := list + [id]])
  }

  /** The configured vault, provided it is the one deployed here; a call to any
      other address traps. */
  function WiredVault(w: World): Guard {
    if w.book.vault.None? then Fail(StreamErr(StreamNotInitialized))
    else Check(w.book.vault.value == w.holdings.book.self, HostTrap)
  }

  function CreateStream(w: World, signers: set<Address>, terms: Terms): Outcome<Done> {
    var b := w.book;
    :- Check(terms.sender in signers, AuthFailure);
    :- Check(!b.paused, StreamErr(Paused));
    :- Check(terms.totalAmount > 0, StreamErr(StreamInvalidAmount));
    :- Check(terms.endLedger > terms.startLedger, StreamErr(InvalidTimeRange));
    :- Check(terms.startLedger <= terms.cliffLedger <= terms.endLedger, StreamErr(InvalidCliff));
    :- Check(b.vault.Some?, StreamErr(StreamNotInitialized));
    :- Check(b.lastId < U64_MAX, HostTrap);
    var id := b.lastId + 1;
    var senderStreams :- Push(b.senderStreams, terms.sender, id);
    var recipientStreams :- Push(b.recipientStreams, terms.recipient, id);
    :- WiredVault(w);
    var holdings :- Deposit(w.holdings, signers + {b.self}, terms.sender, terms.token, terms.totalAmount, id);
    Ok(Done(
         w.(book := b.(lastId := id,
                       streams := b.streams[id := NewStream(id, terms, w.now)],
                       senderStreams := senderStreams,
                       recipientStreams := recipientStreams,
                       log := b.log + [Entry(w.now, Created(id, terms))]),
            holdings := holdings),
         StreamId(id)))
  }

  function Withdraw(w: World, signers: set<Address>, recipient: Address, id: U64, amount: I128): Outcome<Done> {
    var b := w.book;
    :- Check(recipient in signers, AuthFailure);
    :- Check(amount > 0, StreamErr(StreamInvalidAmount));
    :- Check(id in b.streams, StreamErr(StreamNotFound));
    var s := b.streams[id];
    :- Check(s.recipient == recipient, StreamErr(StreamUnauthorized));
    var available :- WithdrawableAmount(s, w.now);
    :- Check(amount <= available, StreamErr(ExceedsWithdrawable));
    var withdrawn :- Checked(s.withdrawn + amount, OVERFLOW);
    :- WiredVault(w);
    var holdings :- Pay(w.holdings, signers + {b.self}, b.self, recipient, s.token, amount, id, PayoutKind.Release);
    Ok(Done(
         w.(book := b.(streams := b.streams[s.id := s.(withdrawn := withdrawn)],
                       log := b.log + [Entry(w.now, Withdrew(id, recipient, amount))]),
            holdings := holdings),
         Nothing))
  }

  /** Authorisation is asked for by the delegated `withdraw` only, so a call
      with nothing to withdraw answers zero to anyone. */
  function WithdrawMax(w: World, signers: set<Address>, recipient: Address, id: U64): Outcome<Done> {
    var b := w.book;
    :- Check(id in b.streams, StreamErr(StreamNotFound));
    var s := b.streams[id];
    :- Check(s.recipient == recipient, StreamErr(StreamUnauthorized));
    var available :- WithdrawableAmount(s, w.now);
    if available == 0 then Ok(Done(w, Amount(0)))
    else
      var done :- Withdraw(w, signers, recipient, id, available);
      Ok(done.(reply := Amount(available)))
  }

  function RefundRemainder(w: World, signers: set<Address>, sender: Address, s: Stream, remainder: I128, id: U64)
    : Outcome<Holdings>
  {
    if remainder > 0 then
      :- WiredVault(w);
      Pay(w.holdings, signers + {w.book.self}, w.book.self, sender, s.token, remainder, id, PayoutKind.Refund)
    else Ok(w.holdings)
  }

  function CancelStream(w: World, signers: set<Address>, sender: Address, id: U64): Outcome<Done> {
    var b := w.book;
    :- Check(sender in signers, AuthFailure);
    :- Check(id in b.streams, StreamErr(StreamNotFound));
    var s := b.streams[id];
    :- Check(s.sender == sender, StreamErr(StreamUnauthorized));
    :- Check(s.cancellable, StreamErr(NotCancellable));
    var liveStatus := ComputeStatus(s, w.now);
    :- Check(liveStatus != Status.Cancelled && liveStatus != Status.Completed, StreamErr(AlreadyFinalized));
    var s' := s.(status := Status.Cancelled, cancelledAt := w.now);
    var streamedNow :- StreamedAmount(s', w.now);
    var remainder :- Checked(s'.totalAmount - streamedNow, OVERFLOW);
    var holdings :- RefundRemainder(w, signers, sender, s', remainder, id);
    Ok(Done(
         w.(book := b.(streams := b.streams[s.id := s'],
                       log := b.log + [Entry(w.now, StreamEvent.Cancelled(id, sender, streamedNow, remainder))]),
            holdings := holdings),
         Nothing))
  }

  function SetPaused(w: World, signers: set<Address>, paused: bool): Outcome<Done> {
    var b := w.book;
    :- Check(b.admin.Some?, StreamErr(StreamNotInitialized));
    :- Check(b.admin.value in signers, AuthFailure);
    Ok(Done(w.(book := b.(paused := paused, log := b.log + [Entry(w.now, PauseSet(b.admin.value, paused))])), Nothing))
  }

  // ----- everything that can happen on the ledger -----

  datatype Call =
    | CallCreateStream(terms: Terms)
    | CallWithdraw(recipient: Address, id: U64, amount: I128)
    | CallWithdrawMax(recipient: Address, id: U64)
    | CallCancelStream(sender: Address, id: U64)
    | CallPause
    | CallUnpause
    | CallDeposit(from: Address, token: Address, amount: I128, id: U64)
    | CallRelease(caller: Address, to: Address, token: Address, amount: I128, id: U64)
    | CallRefund(caller: Address, to: Address, token: Address, amount: I128, id: U64)
    | CallTransfer(token: Address, from: Address, to: Address, amount: I128)

  /** The call is about the stored stream `id`. */
  predicate Names(call: Call, id: U64) {
    match call
    case CallWithdraw(_, i, _) => i == id
    case CallWithdrawMax(_, i) => i == id
    case CallCancelStream(_, i) => i == id
    case _ => false
  }

  /** Ledgers close, possibly many at once, and principals submit calls. */
  datatype Op =
    | Advance(to: U32)
    | Submit(signers: set<Address>, call: Call)

  /** Contract addresses hold no keys: they authorise only calls they make themselves. */
  function Principals(w: World, signers: set<Address>): set<Address> {
    signers - {w.book.self, w.holdings.book.self}
  }

  function OnHoldings(w: World, holdings: Outcome<Holdings>): Outcome<Done> {
    var h :- holdings;
    Ok(Done(w.(holdings := h), Nothing))
  }

  function Perform(w: World, signers: set<Address>, call: Call): Outcome<Done> {
    match call
    case CallCreateStream(terms) => CreateStream(w, signers, terms)
    case CallWithdraw(recipient, id, amount) => Withdraw(w, signers, recipient, id, amount)
    case CallWithdrawMax(recipient, id) => WithdrawMax(w, signers, recipient, id)
    case CallCancelStream(sender, id) => CancelStream(w, signers, sender, id)
    case CallPause => SetPaused(w, signers, true)
    case CallUnpause => SetPaused(w, signers, false)
    case CallDeposit(from, token, amount, id) =>
      OnHoldings(w, Deposit(w.holdings, signers, from, token, amount, id))
    case CallRelease(caller, to, token, amount, id) =>
      OnHoldings(w, Pay(w.holdings, signers, caller, to, token, amount, id, PayoutKind.Release))
    case CallRefund(caller, to, token, amount, id) =>
      OnHoldings(w, Pay(w.holdings, signers, caller, to, token, amount, id, PayoutKind.Refund))
    case CallTransfer(token, from, to, amount) =>
      :- Check(from in signers, AuthFailure);
      var bank :- Token.Transfer(w.holdings.bank, token, from, to, amount);
      Ok(Done(w.(holdings := w.holdings.(bank := bank)), Nothing))
  }

  function Attempt(w: World, op: Op): Outcome<Done> {
    match op
    case Advance(to) => Ok(Done(w.(now := Max(w.now, to)), Nothing))
    case Submit(signers, call) => Perform(w, Principals(w, signers), call)
  }

  /** A failed call leaves no trace. */
  function Step(w: World, op: Op): World {
    var r := Attempt(w, op);
    if r.Ok? then r.value.world else w
  }

  function Answer(w: World, op: Op): Outcome<Reply> {
    var done :- Attempt(w, op);
    Ok(done.reply)
  }

  function Run(w: World, ops: seq<Op>): World {
    if ops == [] then w
    else Step(Run(w, ops[..|ops| - 1]), ops[|ops| - 1])
  }

  /** The two contracts freshly initialised to point at each other, with no streams. */
  function Genesis(now: U32, admin: Address, stream: Address, vault: Address, bank: Token.Bank): World {
    World(
      now,
      StreamBook(stream, Some(admin), Some(vault), false, 0, map[], map[], map[], []),
      Holdings(VaultBook(vault, Some(stream), map[], map[], map[], []), bank))
  }

  // ----- the log of the stream contract -----

  function ApplyEntry(streams: map<U64, Stream>, e: Entry): map<U64, Stream> {
    match e.event
    case Created(id, terms) => streams[id := NewStream(id, terms, e.ledger)]
    case Withdrew(id, _, amount) =>
      if id in streams && FitsI128(streams[id].withdrawn + amount)
      then streams[id := streams[id].(withdrawn := streams[id].withdrawn + amount)]
      else streams
    case Cancelled(id, _, _, _) =>
      if id in streams
      then streams[id := streams[id].(status := Status.Cancelled, cancelledAt := e.ledger)]
      else streams
    case PauseSet(_, _) => streams
  }

  /** The stream table an indexer rebuilds from events alone. */
  function Replay(log: seq<Entry>): map<U64, Stream> {
    if log == [] then map[]
    else ApplyEntry(Replay(log[..|log| - 1]), log[|log| - 1])
  }

  lemma ReplayEntry(log: seq<Entry>, e: Entry)
    ensures Replay(log + [e]) == ApplyEntry(Replay(log), e)
  {
    assert (log + [e])[..|log|] == log;
  }
}
