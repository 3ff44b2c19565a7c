/** What every reachable state satisfies, and that every step keeps it. */
module Invariants {
  import opened Soroban
  import opened Accrual
  import opened Custody
  import opened Protocol
  import Token

  // ----- the invariant -----

  ghost predicate Wired(w: World) {
    && w.book.admin.Some?
    && w.book.vault == Some(w.holdings.book.self)
    && w.holdings.book.streamContract == Some(w.book.self)
    && w.book.self != w.holdings.book.self
  }

  /** Only `Pending` and `Cancelled` are ever stored, a cancel froze a computable
      amount strictly before the end, and nobody was paid more than earned. */
  ghost predicate StreamOk(s: Stream, id: U64, now: U32) {
    && s.id == id
    && Scheduled(s)
    && s.createdAt <= now
    && (|| (s.status == Pending && s.cancelledAt == 0)
        || (&& s.status == Status.Cancelled
            && s.cancellable
            && s.createdAt <= s.cancelledAt <= now
            && s.cancelledAt < s.endLedger
            && !Overflows(s, now)))
    && 0 <= s.withdrawn <= Entitlement(s, now)
  }

  ghost predicate StreamsOk(b: StreamBook, now: U32) {
    && (forall id: U64 :: id in b.streams <==> 1 <= id <= b.lastId)
    && (forall id :: id in b.streams ==> StreamOk(b.streams[id], id, now))
  }

  /** What the vault holds for an id beyond what the stream contract owes on it. */
  ghost function Slack(w: World, id: U64): int
    requires id in w.book.streams ==> Scheduled(w.book.streams[id])
  {
    StreamBalance(w.holdings.book, id) - if id in w.book.streams then Owed(w.book.streams[id]) else 0
  }

  ghost predicate Backed(w: World, id: U64) {
    id in w.book.streams ==>
      && Scheduled(w.book.streams[id])
      && id in w.holdings.book.token
      && w.holdings.book.token[id] == w.book.streams[id].token
      && Slack(w, id) >= 0
  }

  datatype Role = Sender | Recipient

  function Party(s: Stream, role: Role): Address {
    match role
    case Sender => s.sender
    case Recipient => s.recipient
  }

  /** The ids in 1..n whose stored stream names `party`, ascending. */
  function IdsNaming(streams: map<U64, Stream>, n: U64, role: Role, party: Address): seq<U64> {
    if n == 0 then []
    else
      IdsNaming(streams, n - 1, role, party)
      + if n in streams && Party(streams[n], role) == party then [n] else []
  }

  function IndexOf(b: StreamBook, role: Role, party: Address): Ids {
    match role
    case Sender => GetOr(b.senderStreams, party, [])
    case Recipient => GetOr(b.recipientStreams, party, [])
  }

  ghost predicate Indexed(b: StreamBook) {
    forall role, party :: IndexOf(b, role, party) == IdsNaming(b.streams, b.lastId, role, party)
  }

  ghost predicate Inv(w: World) {
    && Wired(w)
    && Solvent(w.holdings)
    && VaultReplayed(w.holdings.book)
    && StreamsOk(w.book, w.now)
    && (forall id: U64 :: Backed(w, id))
    && Indexed(w.book)
    && Replay(w.book.log) == w.book.streams
  }

  /** The signers of a submitted call are never the contracts themselves. */
  ghost predicate Outside(w: World, signers: set<Address>) {
    w.book.self !in signers && w.holdings.book.self !in signers
  }

  lemma GenesisInv(now: U32, admin: Address, stream: Address, vault: Address, bank: Token.Bank)
    requires stream != vault
    requires Token.Honest(bank)
    ensures Inv(Genesis(now, admin, stream, vault, bank))
  {
    var w := Genesis(now, admin, stream, vault, bank);
    forall t ensures SolventIn(w.holdings, t) {
      assert FundedIn(w.holdings.book, t) == map[];
      Token.HoldingsFit(bank, t, vault, stream);
    }
  }

  // ----- secondary indexes -----

  lemma {:induction false} IdsNamingAgree(s1: map<U64, Stream>, s2: map<U64, Stream>, n: U64, role: Role,
                                          party: Address)
    requires forall id: U64 :: 1 <= id <= n ==>
               (id in s1 <==> id in s2) && (id in s1 ==> Party(s1[id], role) == Party(s2[id], role))
    ensures IdsNaming(s1, n, role, party) == IdsNaming(s2, n, role, party)
  {
    if n == 0 {
    } else {
      IdsNamingAgree(s1, s2, n - 1, role, party);
    }
  }

  /** Rewriting a stored stream without touching its parties keeps both indexes. */
  lemma RewriteKeepsIndexed(b: StreamBook, id: U64, s: Stream, log: seq<Entry>)
    requires Indexed(b)
    requires id in b.streams
    requires s.sender == b.streams[id].sender && s.recipient == b.streams[id].recipient
    ensures Indexed(b.(streams := b.streams[id := s], log := log))
  {
    var b2 := b.(streams := b.streams[id := s], log := log);
    forall role, party ensures IndexOf(b2, role, party) == IdsNaming(b2.streams, b2.lastId, role, party) {
      assert IndexOf(b, role, party) == IdsNaming(b.streams, b.lastId, role, party);
      IdsNamingAgree(b.streams, b2.streams, b.lastId, role, party);
    }
  }

  // ----- create -----

  /** `w2` is `w` with one more stream, funded with its whole amount. */
  ghost predicate CreatedIn(w: World, w2: World, id: U64, terms: Terms) {
    && id == w.book.lastId + 1
    && w2.now == w.now
    && w2.book.self == w.book.self && w2.book.admin == w.book.admin && w2.book.vault == w.book.vault
    && w2.book.paused == w.book.paused
    && w2.book.lastId == id
    && w2.book.streams == w.book.streams[id := NewStream(id, terms, w.now)]
    && w2.book.log == w.book.log + [Entry(w.now, Created(id, terms))]
    && (forall role, party :: IndexOf(w2.book, role, party) == IndexOf(w.book, role, party)
                              + if Party(NewStream(id, terms, w.now), role) == party then [id] else [])
    && w2.holdings.book.self == w.holdings.book.self
    && w2.holdings.book.streamContract == w.holdings.book.streamContract
    && (id in w.holdings.book.token ==> w.holdings.book.token[id] == terms.token)
    && w2.holdings.book.token == w.holdings.book.token[id := terms.token]
    && (forall i: U64 :: StreamBalance(w2.holdings.book, i)
                      == StreamBalance(w.holdings.book, i) + if i == id then terms.totalAmount else 0)
  }

  lemma DepositWrites(h: Holdings, signers: set<Address>, from: Address, token: Address, amount: I128, id: U64)
    requires Deposit(h, signers, from, token, amount, id).Ok?
    ensures var v, u := h.book, Deposit(h, signers, from, token, amount, id).value.book;
            && u.self == v.self && u.streamContract == v.streamContract
            && (id in v.token ==> v.token[id] == token)
            && u.token == v.token[id := token]
            && forall i: U64 :: StreamBalance(u, i) == StreamBalance(v, i) + if i == id then amount else 0
  {
    hide Token.Transfer;
  }

  lemma CreateShape(w: World, signers: set<Address>, terms: Terms)
    requires CreateStream(w, signers, terms).Ok?
    ensures CreatedIn(w, CreateStream(w, signers, terms).value.world, w.book.lastId + 1, terms)
    ensures Scheduled(NewStream(w.book.lastId + 1, terms, w.now))
  {
    hide Deposit;
    DepositWrites(w.holdings, signers + {w.book.self}, terms.sender, terms.token, terms.totalAmount, w.book.lastId + 1);
  }

  lemma CreateKeepsIndexed(w: World, w2: World, id: U64, terms: Terms)
    requires Indexed(w.book)
    requires CreatedIn(w, w2, id, terms)
    ensures Indexed(w2.book)
  {
    forall role, party ensures IndexOf(w2.book, role, party) == IdsNaming(w2.book.streams, id, role, party) {
      assert IndexOf(w.book, role, party) == IdsNaming(w.book.streams, id - 1, role, party);
      IdsNamingAgree(w.book.streams, w2.book.streams, id - 1, role, party);
    }
  }

  lemma NewStreamOk(id: U64, terms: Terms, now: U32)
    requires Scheduled(NewStream(id, terms, now))
    ensures var s := NewStream(id, terms, now);
            StreamOk(s, id, now) && Owed(s) == terms.totalAmount
  {
    EntitlementBounds(NewStream(id, terms, now), now);
  }

  lemma SlackNonNegative(w: World, id: U64)
    requires Inv(w)
    ensures Slack(w, id) >= 0
  {
    assert Backed(w, id);
  }

  lemma CreatedKeepsInv(w: World, w2: World, id: U64, terms: Terms)
    requires Inv(w)
    requires CreatedIn(w, w2, id, terms)
    requires Solvent(w2.holdings) && VaultReplayed(w2.holdings.book)
    requires Scheduled(NewStream(id, terms, w.now))
    ensures Inv(w2)
    ensures forall i: U64 :: Slack(w2, i) == Slack(w, i)
  {
    hide Solvent, VaultReplayed, IdsNaming, IndexOf;
    CreateKeepsIndexed(w, w2, id, terms);
    NewStreamOk(id, terms, w.now);
    ReplayEntry(w.book.log, Entry(w.now, Created(id, terms)));
    forall i: U64 ensures Backed(w2, i) && Slack(w2, i) == Slack(w, i) {
      assert Backed(w, i);
      SlackNonNegative(w, i);
    }
  }

  lemma CreateKeepsHoldings(w: World, signers: set<Address>, terms: Terms)
    requires Solvent(w.holdings) && VaultReplayed(w.holdings.book)
    requires Outside(w, signers)
    requires w.book.self != w.holdings.book.self
    requires CreateStream(w, signers, terms).Ok?
    ensures var h := CreateStream(w, signers, terms).value.world.holdings;
            Solvent(h) && VaultReplayed(h.book)
  {
    hide Solvent, VaultReplayed, Deposit;
    var inner, id := signers + {w.book.self}, w.book.lastId + 1;
    DepositKeepsSolvent(w.holdings, inner, terms.sender, terms.token, terms.totalAmount, id);
    DepositKeepsReplay(w.holdings, inner, terms.sender, terms.token, terms.totalAmount, id);
  }

  lemma CreateKeeps(w: World, signers: set<Address>, terms: Terms)
    requires Inv(w) && Outside(w, signers)
    requires CreateStream(w, signers, terms).Ok?
    ensures var w2 := CreateStream(w, signers, terms).value.world;
            Inv(w2) && forall i: U64 :: Slack(w2, i) == Slack(w, i)
  {
    hide CreateStream, IdsNaming, Solvent;
    var w2 := CreateStream(w, signers, terms).value.world;
    CreateShape(w, signers, terms);
    CreateKeepsHoldings(w, signers, terms);
    CreatedKeepsInv(w, w2, w.book.lastId + 1, terms);
  }

  // ----- a payout against one stream -----

  /** `w2` is `w` after a payout of `amount` against stream `id`, whose record became `s`. */
  ghost predicate PaidAgainst(w: World, w2: World, id: U64, s: Stream, amount: int, e: Entry) {
    && id in w.book.streams
    && w2.now == w.now
    && w2.book == w.book.(streams := w.book.streams[id := s], log := w.book.log + [e])
    && w2.holdings.book.self == w.holdings.book.self
    && w2.holdings.book.streamContract == w.holdings.book.streamContract
    && w2.holdings.book.token == w.holdings.book.token
    && (forall i: U64 :: StreamBalance(w2.holdings.book, i)
                      == StreamBalance(w.holdings.book, i) - if i == id then amount else 0)
  }

  /** The two sets of books stay in step when a record drops what it owes by
      exactly what was paid. */
  lemma PayoutKeepsInv(w: World, w2: World, id: U64, s: Stream, amount: int, e: Entry)
    requires Inv(w)
    requires PaidAgainst(w, w2, id, s, amount, e)
    requires Solvent(w2.holdings) && VaultReplayed(w2.holdings.book)
    requires StreamOk(s, id, w.now)
    requires TermsOf(s) == TermsOf(w.book.streams[id])
    requires Owed(s) == Owed(w.book.streams[id]) - amount
    requires ApplyEntry(w.book.streams, e) == w2.book.streams
    ensures Inv(w2)
    ensures forall i: U64 :: Slack(w2, i) == Slack(w, i)
  {
    assert Indexed(w2.book) by {
      RewriteKeepsIndexed(w.book, id, s, w2.book.log);
    }
    ReplayEntry(w.book.log, e);
    forall i: U64 ensures Backed(w2, i) && Slack(w2, i) == Slack(w, i) {
      assert Backed(w, i);
    }
  }

  // ----- withdraw -----

  lemma RecipientIsOwed(w: World, id: U64)
    requires StreamsOk(w.book, w.now)
    requires id in w.book.streams
    ensures var s := w.book.streams[id];
            && Scheduled(s)
            && 0 <= Entitlement(s, w.now) - s.withdrawn <= Owed(s)
            && 0 <= Owed(s) <= s.totalAmount
  {
    EntitlementBounds(w.book.streams[id], w.now);
  }

  /** Whatever the stream contract asks to release within the entitlement, the
      vault can pay. */
  lemma ReleaseSucceeds(w: World, signers: set<Address>, recipient: Address, id: U64, amount: I128)
    requires Inv(w)
    requires id in w.book.streams
    requires 0 < amount <= Entitlement(w.book.streams[id], w.now) - w.book.streams[id].withdrawn
    ensures Pay(w.holdings, signers + {w.book.self}, w.book.self, recipient, w.book.streams[id].token,
                amount, id, PayoutKind.Release).Ok?
    ensures FitsI128(w.book.streams[id].withdrawn + amount)
  {
    hide Indexed, VaultReplayed, Replay, Pay, Solvent;
    RecipientIsOwed(w, id);
    assert Backed(w, id);
    PayExact(w.holdings, signers + {w.book.self}, w.book.self, recipient, w.book.streams[id].token, amount, id,
             PayoutKind.Release);
  }

  /** The exact outcome of `withdraw` in a reachable state: past the contract's
      own checks the vault, the token and the arithmetic never refuse. */
  lemma WithdrawExact(w: World, signers: set<Address>, recipient: Address, id: U64, amount: I128)
    requires Inv(w)
    ensures var r := Withdraw(w, signers, recipient, id, amount);
            if recipient !in signers then r == Err(AuthFailure)
            else if amount <= 0 then r == Err(StreamErr(StreamInvalidAmount))
            else if id !in w.book.streams then r == Err(StreamErr(StreamNotFound))
            else if w.book.streams[id].recipient != recipient then r == Err(StreamErr(StreamUnauthorized))
            else
              var s := w.book.streams[id];
              if StopLedger(s, w.now) >= s.cliffLedger && Overflows(s, w.now) then r == Err(OVERFLOW)
              else if amount > Entitlement(s, w.now) - s.withdrawn then r == Err(StreamErr(ExceedsWithdrawable))
              else
                && r.Ok?
                && r.value.world.book.streams == w.book.streams[id := s.(withdrawn := s.withdrawn + amount)]
                && Pay(w.holdings, signers + {w.book.self}, w.book.self, recipient, s.token, amount, id,
                       PayoutKind.Release) == Ok(r.value.world.holdings)
  {
    hide WithdrawableAmount, Pay, Indexed, Solvent, VaultReplayed, Overflows, Entitlement, Replay;
    if amount > 0 && id in w.book.streams {
      var s := w.book.streams[id];
      WithdrawableIsExact(s, w.now);
      if amount <= Entitlement(s, w.now) - s.withdrawn {
        ReleaseSucceeds(w, signers, recipient, id, amount);
      }
    }
  }

  lemma WithdrawnStreamOk(s: Stream, id: U64, now: U32, amount: I128)
    requires StreamOk(s, id, now)
    requires 0 < amount <= Entitlement(s, now) - s.withdrawn
    requires FitsI128(s.withdrawn + amount)
    ensures var s' := s.(withdrawn := s.withdrawn + amount);
            && StreamOk(s', id, now)
            && Owed(s') == Owed(s) - amount
            && Entitlement(s', now) == Entitlement(s, now)
  {
  }

  lemma WithdrawKeepsHoldings(w: World, signers: set<Address>, recipient: Address, id: U64, amount: I128)
    requires Solvent(w.holdings) && VaultReplayed(w.holdings.book)
    requires Outside(w, signers)
    requires Withdraw(w, signers, recipient, id, amount).Ok?
    ensures var h := Withdraw(w, signers, recipient, id, amount).value.world.holdings;
            Solvent(h) && VaultReplayed(h.book)
  {
    hide Solvent, VaultReplayed, WithdrawableAmount, Pay;
    var inner, token := signers + {w.book.self}, w.book.streams[id].token;
    PayKeepsSolvent(w.holdings, inner, w.book.self, recipient, token, amount, id, PayoutKind.Release);
    PayKeepsReplay(w.holdings, inner, w.book.self, recipient, token, amount, id, PayoutKind.Release);
  }

  lemma WithdrawPays(w: World, signers: set<Address>, recipient: Address, id: U64, amount: I128)
    requires StreamsOk(w.book, w.now)
    requires Withdraw(w, signers, recipient, id, amount).Ok?
    ensures var w2 := Withdraw(w, signers, recipient, id, amount).value.world;
            var e := Entry(w.now, Withdrew(id, recipient, amount));
            && PaidAgainst(w, w2, id, w2.book.streams[id], amount, e)
            && w2.book.streams[id] == w.book.streams[id].(withdrawn := w.book.streams[id].withdrawn + amount)
            && ApplyEntry(w.book.streams, e) == w2.book.streams
            && 0 < amount <= Entitlement(w.book.streams[id], w.now) - w.book.streams[id].withdrawn
  {
    hide WithdrawableAmount, Pay;
    WithdrawableIsExact(w.book.streams[id], w.now);
    PayWrites(w.holdings, signers + {w.book.self}, w.book.self, recipient, w.book.streams[id].token, amount, id,
              PayoutKind.Release);
  }

  lemma WithdrawKeeps(w: World, signers: set<Address>, recipient: Address, id: U64, amount: I128)
    requires Inv(w) && Outside(w, signers)
    requires Withdraw(w, signers, recipient, id, amount).Ok?
    ensures var w2 := Withdraw(w, signers, recipient, id, amount).value.world;
            Inv(w2) && forall i: U64 :: Slack(w2, i) == Slack(w, i)
  {
    hide Withdraw, IdsNaming;
    var w2 := Withdraw(w, signers, recipient, id, amount).value.world;
    WithdrawPays(w, signers, recipient, id, amount);
    WithdrawKeepsHoldings(w, signers, recipient, id, amount);
    WithdrawnStreamOk(w.book.streams[id], id, w.now, amount);
    PayoutKeepsInv(w, w2, id, w2.book.streams[id], amount, Entry(w.now, Withdrew(id, recipient, amount)));
  }

  // ----- cancel -----

  /** A live stream before its end cancels into a frozen record that still
      covers everything the recipient took, and frees a positive remainder. */
  lemma CancelledStreamOk(s: Stream, id: U64, now: U32)
    requires StreamOk(s, id, now)
    requires s.status == Pending && s.cancellable && now < s.endLedger
    requires var f := s.(status := Status.Cancelled, cancelledAt := now); !Overflows(f, now)
    ensures var f := s.(status := Status.Cancelled, cancelledAt := now);
            && StreamOk(f, id, now)
            && Owed(f) == Owed(s) - (s.totalAmount - Streamed(f, now))
            && s.withdrawn <= Streamed(f, now) < s.totalAmount
  {
    var f := s.(status := Status.Cancelled, cancelledAt := now);
    AccruedBounds(f, now);
    EntitlementBounds(f, now);
    assert Accrued(f, now) == Accrued(s, now);
  }

  /** The exact outcome of `cancel_stream` in a reachable state. The refund is
      never skipped, and the vault and the token never refuse it. */
  lemma CancelExact(w: World, signers: set<Address>, sender: Address, id: U64)
    requires Inv(w)
    ensures var r := CancelStream(w, signers, sender, id);
            if sender !in signers then r == Err(AuthFailure)
            else if id !in w.book.streams then r == Err(StreamErr(StreamNotFound))
            else if w.book.streams[id].sender != sender then r == Err(StreamErr(StreamUnauthorized))
            else if !w.book.streams[id].cancellable then r == Err(StreamErr(NotCancellable))
            else
              var s := w.book.streams[id];
              var f := s.(status := Status.Cancelled, cancelledAt := w.now);
              if s.status == Status.Cancelled || w.now >= s.endLedger then r == Err(StreamErr(AlreadyFinalized))
              else if Overflows(f, w.now) then r == Err(OVERFLOW)
              else
                && r.Ok?
                && r.value.world.book.streams == w.book.streams[id := f]
                && 0 < s.totalAmount - Streamed(f, w.now) <= Owed(s)
                && Pay(w.holdings, signers + {w.book.self}, w.book.self, sender, s.token,
                       s.totalAmount - Streamed(f, w.now), id, PayoutKind.Refund) == Ok(r.value.world.holdings)
  {
    hide Pay, Token.Transfer, Indexed, Solvent;
    if id in w.book.streams && w.book.streams[id].status == Pending
       && w.book.streams[id].cancellable && w.now < w.book.streams[id].endLedger
    {
      var s := w.book.streams[id];
      var f := s.(status := Status.Cancelled, cancelledAt := w.now);
      StreamedIsExact(f, w.now);
      if !Overflows(f, w.now) {
        CancelledStreamOk(s, id, w.now);
        RecipientIsOwed(w, id);
        assert Backed(w, id);
        PayExact(w.holdings, signers + {w.book.self}, w.book.self, sender, s.token,
                 s.totalAmount - Streamed(f, w.now), id, PayoutKind.Refund);
      }
    }
  }

  lemma CancelKeepsHoldings(w: World, signers: set<Address>, sender: Address, id: U64)
    requires Solvent(w.holdings) && VaultReplayed(w.holdings.book)
    requires Outside(w, signers)
    requires CancelStream(w, signers, sender, id).Ok?
    ensures var h := CancelStream(w, signers, sender, id).value.world.holdings;
            Solvent(h) && VaultReplayed(h.book)
  {
    hide Solvent, VaultReplayed, StreamedAmount, Pay;
    var inner, s := signers + {w.book.self}, w.book.streams[id];
    var f := s.(status := Status.Cancelled, cancelledAt := w.now);
    var remainder := s.totalAmount - StreamedAmount(f, w.now).value;
    if remainder > 0 {
      PayKeepsSolvent(w.holdings, inner, w.book.self, sender, s.token, remainder, id, PayoutKind.Refund);
      PayKeepsReplay(w.holdings, inner, w.book.self, sender, s.token, remainder, id, PayoutKind.Refund);
    }
  }

  /** A successful cancel splits the deposit: what was streamed stays frozen for
      the recipient, a positive remainder leaves, and the event reports both. */
  lemma CancelPays(w: World, signers: set<Address>, sender: Address, id: U64)
    requires StreamsOk(w.book, w.now)
    requires CancelStream(w, signers, sender, id).Ok?
    ensures id in w.book.streams
    ensures var w2 := CancelStream(w, signers, sender, id).value.world;
            var s, f := w.book.streams[id], w2.book.streams[id];
            && f == s.(status := Status.Cancelled, cancelledAt := w.now)
            && s.status == Pending && s.cancellable && w.now < s.endLedger && !Overflows(f, w.now)
            && 0 < s.totalAmount - Streamed(f, w.now) <= s.totalAmount
            && var e := Entry(w.now, StreamEvent.Cancelled(id, sender, Streamed(f, w.now),
                                                           s.totalAmount - Streamed(f, w.now)));
               && PaidAgainst(w, w2, id, f, s.totalAmount - Streamed(f, w.now), e)
               && ApplyEntry(w.book.streams, e) == w2.book.streams
  {
    hide StreamedAmount, Pay, Overflows;
    var s := w.book.streams[id];
    var f := s.(status := Status.Cancelled, cancelledAt := w.now);
    StreamedIsExact(f, w.now);
    CancelledStreamOk(s, id, w.now);
    EntitlementBounds(f, w.now);
    PayWrites(w.holdings, signers + {w.book.self}, w.book.self, sender, s.token,
              s.totalAmount - Streamed(f, w.now), id, PayoutKind.Refund);
  }

  lemma CancelKeeps(w: World, signers: set<Address>, sender: Address, id: U64)
    requires Inv(w) && Outside(w, signers)
    requires CancelStream(w, signers, sender, id).Ok?
    ensures var w2 := CancelStream(w, signers, sender, id).value.world;
            Inv(w2) && forall i: U64 :: Slack(w2, i) == Slack(w, i)
  {
    hide CancelStream, IdsNaming, Solvent, Overflows, PaidAgainst;
    var w2 := CancelStream(w, signers, sender, id).value.world;
    CancelPays(w, signers, sender, id);
    var s, f := w.book.streams[id], w.book.streams[id].(status := Status.Cancelled, cancelledAt := w.now);
    CancelKeepsHoldings(w, signers, sender, id);
    CancelledStreamOk(s, id, w.now);
    var remainder := s.totalAmount - Streamed(f, w.now);
    PayoutKeepsInv(w, w2, id, f, remainder,
                   Entry(w.now, StreamEvent.Cancelled(id, sender, Streamed(f, w.now), remainder)));
  }

  // ----- the other steps -----

  lemma LaterStreamOk(s: Stream, id: U64, now: U32, later: U32)
    requires StreamOk(s, id, now)
    requires now <= later
    ensures StreamOk(s, id, later)
  {
    EntitlementGrows(s, now, later);
  }

  lemma AdvanceKeeps(w: World, later: U32)
    requires Inv(w)
    requires w.now <= later
    ensures var w2 := w.(now := later); Inv(w2) && forall i: U64 :: Slack(w2, i) == Slack(w, i)
  {
    hide Solvent, IdsNaming, VaultReplayed, StreamOk;
    var w2 := w.(now := later);
    forall id | id in w.book.streams ensures StreamOk(w.book.streams[id], id, later) {
      LaterStreamOk(w.book.streams[id], id, w.now, later);
    }
    forall i: U64 ensures Backed(w2, i) {
      assert Backed(w, i);
    }
  }

  /** Anyone's direct deposit only ever adds to what backs an id. */
  lemma DonateKeeps(w: World, signers: set<Address>, from: Address, token: Address, amount: I128, id: U64)
    requires Inv(w) && Outside(w, signers)
    requires Deposit(w.holdings, signers, from, token, amount, id).Ok?
    ensures var w2 := w.(holdings := Deposit(w.holdings, signers, from, token, amount, id).value);
            Inv(w2) && forall i: U64 :: Slack(w2, i) == Slack(w, i) + if i == id then amount else 0
  {
    hide Solvent, IdsNaming, VaultReplayed, StreamOk, Token.Transfer;
    var w2 := w.(holdings := Deposit(w.holdings, signers, from, token, amount, id).value);
    DepositKeepsSolvent(w.holdings, signers, from, token, amount, id);
    DepositKeepsReplay(w.holdings, signers, from, token, amount, id);
    forall i: U64 ensures Backed(w2, i) {
      assert Backed(w, i);
    }
  }

  /** Token movements between outsiders, or to the vault's address, leave the books alone. */
  lemma TransferKeeps(w: World, signers: set<Address>, token: Address, from: Address, to: Address, amount: I128)
    requires Inv(w) && Outside(w, signers)
    requires from in signers
    requires Token.Transfer(w.holdings.bank, token, from, to, amount).Ok?
    ensures var bank := Token.Transfer(w.holdings.bank, token, from, to, amount).value;
            var w2 := w.(holdings := w.holdings.(bank := bank));
            Inv(w2) && forall i: U64 :: Slack(w2, i) == Slack(w, i)
  {
    var w2 := w.(holdings := w.holdings.(bank := Token.Transfer(w.holdings.bank, token, from, to, amount).value));
    assert Solvent(w2.holdings) by {
      hide Token.Transfer;
      Token.TransferConserves(w.holdings.bank, token, from, to, amount);
      forall t ensures SolventIn(w2.holdings, t) {
        assert SolventIn(w.holdings, t);
      }
    }
    hide Solvent, IdsNaming, VaultReplayed, StreamOk, Token.Transfer;
    forall i: U64 ensures Backed(w2, i) {
      assert Backed(w, i);
    }
  }

  lemma PauseKeeps(w: World, signers: set<Address>, paused: bool)
    requires Inv(w)
    requires SetPaused(w, signers, paused).Ok?
    ensures var w2 := SetPaused(w, signers, paused).value.world;
            Inv(w2) && forall i: U64 :: Slack(w2, i) == Slack(w, i)
  {
    hide Solvent, VaultReplayed, StreamOk, IdsNaming;
    var w2 := SetPaused(w, signers, paused).value.world;
    ReplayEntry(w.book.log, Entry(w.now, PauseSet(w.book.admin.value, paused)));
    forall role, party
      ensures IndexOf(w2.book, role, party) == IdsNaming(w2.book.streams, w2.book.lastId, role, party)
    {
      assert IndexOf(w.book, role, party) == IdsNaming(w.book.streams, w.book.lastId, role, party);
    }
    forall i: U64 ensures Backed(w2, i) {
      assert Backed(w, i);
    }
  }

  /** The custody boundary: nobody outside can make the vault pay, whatever the arguments. */
  lemma OnlyTheStreamContractPays(w: World, signers: set<Address>, caller: Address, to: Address, token: Address,
                                  amount: I128, id: U64, kind: PayoutKind)
    requires Wired(w) && Outside(w, signers)
    ensures Pay(w.holdings, signers, caller, to, token, amount, id, kind).Err?
  {
  }
}
