/** The stream contract: storage entries written step by step and nested calls
    to the vault, proved against the effects stated in `Protocol`. A failing
    call may leave writes behind; the host discards them (see `Host`). */
module Streams {
  import opened Soroban
  import opened Accrual
  import opened Vault
  import opened Protocol
  import opened Paging
  import Custody

  function Refreshed(s: Stream, now: U32): Stream {
    s.(status := ComputeStatus(s, now))
  }

  /** A query shows the stored record with nothing but its status replaced, by the
      one that holds at the current ledger. */
  lemma RefreshedIsLive(s: Stream, now: U32)
    requires Scheduled(s)
    ensures var r := Refreshed(s, now);
            && r == s.(status := r.status)
            && StatusSays(r.status, s.startLedger, s.endLedger, s.status == Status.Cancelled, now)
  {
    StatusIsExact(s, now);
  }

  /** The stored streams of `ids`, statuses recomputed; unknown ids are skipped. */
  function Hydrated(streams: map<U64, Stream>, ids: seq<U64>, now: U32): seq<Stream> {
    if ids == [] then []
    else
      var id := ids[|ids| - 1];
      Hydrated(streams, ids[..|ids| - 1], now)
      + if id in streams then [Refreshed(streams[id], now)] else []
  }

  lemma NewStreamId(id: U64, terms: Terms, now: U32)
    ensures NewStream(id, terms, now).id == id
  {
  }

  class StreamContract {
    const self: Address
    const vaultClient: VaultContract
    var admin: Option<Address>
    var vault: Option<Address>
    var paused: bool
    var nextStreamId: U64
    var streams: map<U64, Stream>
    var senderStreams: map<Address, Ids>
    var recipientStreams: map<Address, Ids>
    var log: seq<Entry>

    function Book(): StreamBook
      reads this
    {
      StreamBook(self, admin, vault, paused, nextStreamId, streams, senderStreams, recipientStreams, log)
    }

    function World(now: U32): World
      reads this, vaultClient, vaultClient.tokens
    {
      Protocol.World(now, Book(), vaultClient.Holdings())
    }

    constructor (book: StreamBook, vaultClient: VaultContract)
      ensures Book() == book
      ensures this.vaultClient == vaultClient
    {
      self, this.vaultClient := book.self, vaultClient;
      admin, vault, paused, nextStreamId := book.admin, book.vault, book.paused, book.lastId;
      streams, senderStreams, recipientStreams := book.streams, book.senderStreams, book.recipientStreams;
      log := book.log;
    }

    /** Puts the entries back as they were when a call began. */
    method Restore(book: StreamBook)
      requires book.self == self
      modifies this
      ensures Book() == book
    {
      admin, vault, paused, nextStreamId := book.admin, book.vault, book.paused, book.lastId;
      streams, senderStreams, recipientStreams := book.streams, book.senderStreams, book.recipientStreams;
      log := book.log;
    }

    // ----- storage -----

    /** Allocates the next id; the increment traps at the end of u64. */
    method NextStreamId() returns (r: Outcome<U64>)
      modifies this`nextStreamId
      ensures if old(nextStreamId) < U64_MAX then
                r == Ok(old(nextStreamId) + 1) && nextStreamId == old(nextStreamId) + 1
              else r == Err(HostTrap)
    {
      if nextStreamId == U64_MAX {
        return Err(HostTrap);
      }
      nextStreamId := nextStreamId + 1;
      return Ok(nextStreamId);
    }

    method SetStream(stream: Stream)
      modifies this`streams
      ensures streams == old(streams)[stream.id := stream]
    {
      streams := streams[stream.id := stream];
    }

    method AddSenderStream(sender: Address, id: U64) returns (r: Outcome<Unit>)
      modifies this`senderStreams
      ensures match Push(old(senderStreams), sender, id)
              case Ok(index) => r == Ok(Unit) && senderStreams == index
              case Err(e) => r == Err(e)
    {
      var list := GetOr(senderStreams, sender, []);
      if |list| == U32_MAX {
        return Err(HostTrap);
      }
      senderStreams := senderStreams[sender := list + [id]];
      return Ok(Unit);
    }

    method AddRecipientStream(recipient: Address, id: U64) returns (r: Outcome<Unit>)
      modifies this`recipientStreams
      ensures match Push(old(recipientStreams), recipient, id)
              case Ok(index) => r == Ok(Unit) && recipientStreams == index
              case Err(e) => r == Err(e)
    {
      var list := GetOr(recipientStreams, recipient, []);
      if |list| == U32_MAX {
        return Err(HostTrap);
      }
      recipientStreams := recipientStreams[recipient := list + [id]];
      return Ok(Unit);
    }

    // ----- calls -----

    method CreateStream(now: U32, signers: set<Address>, terms: Terms) returns (r: Outcome<U64>)
      modifies this, vaultClient, vaultClient.tokens
      ensures match Protocol.CreateStream(old(World(now)), signers, terms)
              case Ok(done) => r.Ok? && done.reply == StreamId(r.value) && World(now) == done.world
              case Err(e) => r == Err(e)
    {
      hide Custody.Deposit, Push, NewStream;
      if terms.sender !in signers {
        return Err(AuthFailure);
      }
      if paused {
        return Err(StreamErr(Paused));
      }
      if terms.totalAmount <= 0 {
        return Err(StreamErr(StreamInvalidAmount));
      }
      if terms.endLedger <= terms.startLedger {
        return Err(StreamErr(InvalidTimeRange));
      }
      if terms.cliffLedger < terms.startLedger || terms.cliffLedger > terms.endLedger {
        return Err(StreamErr(InvalidCliff));
      }
      if vault.None? {
        return Err(StreamErr(StreamNotInitialized));
      }
      var next := NextStreamId();
      if next.Err? {
        return Err(next.error);
      }
      var id := next.value;

      var stream := NewStream(id, terms, now);
      assert stream.id == id by { NewStreamId(id, terms, now); }
      SetStream(stream);
      var indexed := AddSenderStream(terms.sender, id);
      if indexed.Err? {
        return Err(indexed.error);
      }
      indexed := AddRecipientStream(terms.recipient, id);
      if indexed.Err? {
        return Err(indexed.error);
      }

      if vault.value != vaultClient.self {
        return Err(HostTrap);
      }
      var deposit := vaultClient.Deposit(signers + {self}, terms.sender, terms.token, terms.totalAmount, id);
      if deposit.Err? {
        return Err(deposit.error);
      }

      log := log + [Entry(now, Created(id, terms))];
      return Ok(id);
    }

    method Withdraw(now: U32, signers: set<Address>, recipient: Address, id: U64, amount: I128)
      returns (r: Outcome<Unit>)
      modifies this, vaultClient, vaultClient.tokens
      ensures match Protocol.Withdraw(old(World(now)), signers, recipient, id, amount)
              case Ok(done) => r == Ok(Unit) && done.reply == Nothing && World(now) == done.world
              case Err(e) => r == Err(e)
    {
      hide Custody.Pay, WithdrawableAmount;
      if recipient !in signers {
        return Err(AuthFailure);
      }
      if amount <= 0 {
        return Err(StreamErr(StreamInvalidAmount));
      }
      if id !in streams {
        return Err(StreamErr(StreamNotFound));
      }
      var stream := streams[id];
      if stream.recipient != recipient {
        return Err(StreamErr(StreamUnauthorized));
      }

      var available := WithdrawableAmount(stream, now);
      if available.Err? {
        return Err(available.error);
      }
      if amount > available.value {
        return Err(StreamErr(ExceedsWithdrawable));
      }

      var withdrawn := Checked(stream.withdrawn + amount, OVERFLOW);
      if withdrawn.Err? {
        return Err(withdrawn.error);
      }
      stream := stream.(withdrawn := withdrawn.value);
      SetStream(stream);

      if vault.None? {
        return Err(StreamErr(StreamNotInitialized));
      }
      if vault.value != vaultClient.self {
        return Err(HostTrap);
      }
      var release := vaultClient.Release(signers + {self}, self, recipient, stream.token, amount, id);
      if release.Err? {
        return Err(release.error);
      }
      log := log + [Entry(now, Withdrew(id, recipient, amount))];
      return Ok(Unit);
    }

    method WithdrawMax(now: U32, signers: set<Address>, recipient: Address, id: U64) returns (r: Outcome<I128>)
      modifies this, vaultClient, vaultClient.tokens
      ensures match Protocol.WithdrawMax(old(World(now)), signers, recipient, id)
              case Ok(done) => r.Ok? && done.reply == Amount(r.value) && World(now) == done.world
              case Err(e) => r == Err(e)
    {
      hide Protocol.Withdraw, WithdrawableAmount;
      if id !in streams {
        return Err(StreamErr(StreamNotFound));
      }
      var stream := streams[id];
      if stream.recipient != recipient {
        return Err(StreamErr(StreamUnauthorized));
      }
      var available := WithdrawableAmount(stream, now);
      if available.Err? {
        return Err(available.error);
      }
      if available.value == 0 {
        return Ok(0);
      }
      var withdrawal := Withdraw(now, signers, recipient, id, available.value);
      if withdrawal.Err? {
        return Err(withdrawal.error);
      }
      return Ok(available.value);
    }

    method CancelStream(now: U32, signers: set<Address>, sender: Address, id: U64) returns (r: Outcome<Unit>)
      modifies this, vaultClient, vaultClient.tokens
      ensures match Protocol.CancelStream(old(World(now)), signers, sender, id)
              case Ok(done) => r == Ok(Unit) && done.reply == Nothing && World(now) == done.world
              case Err(e) => r == Err(e)
    {
      hide Custody.Pay, StreamedAmount;
      if sender !in signers {
        return Err(AuthFailure);
      }
      if id !in streams {
        return Err(StreamErr(StreamNotFound));
      }
      var stream := streams[id];
      if stream.sender != sender {
        return Err(StreamErr(StreamUnauthorized));
      }
      if !stream.cancellable {
        return Err(StreamErr(NotCancellable));
      }
      var liveStatus := ComputeStatus(stream, now);
      if liveStatus == Status.Cancelled || liveStatus == Status.Completed {
        return Err(StreamErr(AlreadyFinalized));
      }

      stream := stream.(status := Status.Cancelled);
      stream := stream.(cancelledAt := now);
      var streamedNow := StreamedAmount(stream, now);
      if streamedNow.Err? {
        return Err(streamedNow.error);
      }
      var remainder := Checked(stream.totalAmount - streamedNow.value, OVERFLOW);
      if remainder.Err? {
        return Err(remainder.error);
      }
      SetStream(stream);

      if remainder.value > 0 {
        if vault.None? {
          return Err(StreamErr(StreamNotInitialized));
        }
        if vault.value != vaultClient.self {
          return Err(HostTrap);
        }
        var refund := vaultClient.Refund(signers + {self}, self, sender, stream.token, remainder.value, id);
        if refund.Err? {
          return Err(refund.error);
        }
      }
      log := log + [Entry(now, StreamEvent.Cancelled(id, sender, streamedNow.value, remainder.value))];
      return Ok(Unit);
    }

    method Pause(now: U32, signers: set<Address>) returns (r: Outcome<Unit>)
      modifies this
      ensures match Protocol.SetPaused(old(World(now)), signers, true)
              case Ok(done) => r == Ok(Unit) && done.reply == Nothing && World(now) == done.world
              case Err(e) => r == Err(e)
    {
      if admin.None? {
        return Err(StreamErr(StreamNotInitialized));
      }
      if admin.value !in signers {
        return Err(AuthFailure);
      }
      paused := true;
      log := log + [Entry(now, PauseSet(admin.value, true))];
      return Ok(Unit);
    }

    method Unpause(now: U32, signers: set<Address>) returns (r: Outcome<Unit>)
      modifies this
      ensures match Protocol.SetPaused(old(World(now)), signers, false)
              case Ok(done) => r == Ok(Unit) && done.reply == Nothing && World(now) == done.world
              case Err(e) => r == Err(e)
    {
      if admin.None? {
        return Err(StreamErr(StreamNotInitialized));
      }
      if admin.value !in signers {
        return Err(AuthFailure);
      }
      paused := false;
      log := log + [Entry(now, PauseSet(admin.value, false))];
      return Ok(Unit);
    }

    // ----- queries -----

    method GetStream(now: U32, id: U64) returns (r: Outcome<Stream>)
      ensures r == if id in streams then Ok(Refreshed(streams[id], now)) else Err(StreamErr(StreamNotFound))
    {
      if id !in streams {
        return Err(StreamErr(StreamNotFound));
      }
      var stream := streams[id];
      stream := stream.(status := ComputeStatus(stream, now));
      return Ok(stream);
    }

    /** The saturating end of the page never shows: a list has at most u32::MAX entries. */
    method Slice(ids: Ids, offset: U32, limit: U32) returns (out: Ids)
      ensures out == Page(ids, offset, limit)
    {
      var limit := Min(limit, MAX_PAGE_SIZE);
      var end := Min(SaturatingAdd32(offset, limit), |ids|);
      out := [];
      var i := offset;
      while i < end
        invariant Min(offset, end) <= i
        invariant offset < end ==> i <= end
        invariant out == if offset < end then ids[offset..i] else []
      {
        out := out + [ids[i]];
        i := i + 1;
      }
    }

    method Hydrate(now: U32, ids: Ids) returns (out: seq<Stream>)
      ensures out == Hydrated(streams, ids, now)
    {
      out := [];
      for i := 0 to |ids|
        invariant out == Hydrated(streams, ids[..i], now)
      {
        assert ids[..i + 1][..i] == ids[..i];
        if ids[i] in streams {
          var s := streams[ids[i]];
          s := s.(status := ComputeStatus(s, now));
          out := out + [s];
        }
      }
      assert ids[..|ids|] == ids;
    }

    method GetStreamsBySenderPage(now: U32, sender: Address, offset: U32, limit: U32) returns (out: seq<Stream>)
      ensures out == Hydrated(streams, Page(GetOr(senderStreams, sender, []), offset, limit), now)
    {
      var ids := Slice(GetOr(senderStreams, sender, []), offset, limit);
      out := Hydrate(now, ids);
    }

    method GetStreamsByRecipientPage(now: U32, recipient: Address, offset: U32, limit: U32) returns (out: seq<Stream>)
      ensures out == Hydrated(streams, Page(GetOr(recipientStreams, recipient, []), offset, limit), now)
    {
      var ids := Slice(GetOr(recipientStreams, recipient, []), offset, limit);
      out := Hydrate(now, ids);
    }
  }

  /** Hydrating ids that are all stored drops nothing and keeps their order. */
  lemma {:induction false} HydratesAll(streams: map<U64, Stream>, ids: seq<U64>, now: U32)
    requires forall id :: id in ids ==> id in streams
    ensures |Hydrated(streams, ids, now)| == |ids|
    ensures forall i :: 0 <= i < |ids| ==> Hydrated(streams, ids, now)[i] == Refreshed(streams[ids[i]], now)
  {
    if ids == [] {
    } else {
      HydratesAll(streams, ids[..|ids| - 1], now);
    }
  }
}
