/** The specification of the whole system, call by call: why a call is refused and
    what it does otherwise, over exact accrual and token balances; and that in every
    reachable state the contracts do just that. */
module Calls {
  import opened Soroban
  import opened Accrual
  import opened Custody
  import opened Protocol
  import opened Invariants
  import opened Runs
  import opened Isolation
  import opened Creation
  import opened Evolution
  import opened Noninterference
  import Token

  // ----- why a call is refused -----

  /** The two contracts hold no keys, so nobody signs for them. */
  predicate Signed(w: World, signers: set<Address>, party: Address) {
    party in signers && party != w.book.self && party != w.holdings.book.self
  }

  /** A live stream past its cliff whose accrued product leaves i128. */
  predicate OutOfRange(s: Stream, now: int) {
    s.status != Status.Cancelled && now >= s.cliffLedger && s.totalAmount * Elapsed(s, now) > I128_MAX
  }

  function CreateRefusal(w: World, signers: set<Address>, terms: Terms): Option<Failure> {
    var id := w.book.lastId + 1;
    if !Signed(w, signers, terms.sender) then Some(AuthFailure)
    else if w.book.paused then Some(StreamFailure(Paused))
    else if terms.totalAmount <= 0 then Some(StreamFailure(StreamInvalidAmount))
    else if terms.endLedger <= terms.startLedger then Some(StreamFailure(InvalidTimeRange))
    else if !(terms.startLedger <= terms.cliffLedger <= terms.endLedger) then Some(StreamFailure(InvalidCliff))
    else if id > U64_MAX
            || |IndexOf(w.book, Sender, terms.sender)| == U32_MAX
            || |IndexOf(w.book, Recipient, terms.recipient)| == U32_MAX then Some(HostTrap)
    else if id in w.holdings.book.token && w.holdings.book.token[id] != terms.token then
      Some(VaultFailure(TokenMismatch))
    else if Token.BalanceOf(w.holdings.bank, terms.token, terms.sender) < terms.totalAmount then Some(TokenFailure)
    else None
  }

  function WithdrawRefusal(w: World, signers: set<Address>, recipient: Address, id: U64, amount: I128)
    : Option<Failure>
    requires id in w.book.streams ==> Scheduled(w.book.streams[id])
  {
    if !Signed(w, signers, recipient) then Some(AuthFailure)
    else if amount <= 0 then Some(StreamFailure(StreamInvalidAmount))
    else if id !in w.book.streams then Some(StreamFailure(StreamNotFound))
    else if w.book.streams[id].recipient != recipient then Some(StreamFailure(StreamUnauthorized))
    else if OutOfRange(w.book.streams[id], w.now) then Some(StreamFailure(StreamMathOverflow))
    else if amount > Entitlement(w.book.streams[id], w.now) - w.book.streams[id].withdrawn then
      Some(StreamFailure(ExceedsWithdrawable))
    else None
  }

  function WithdrawMaxRefusal(w: World, signers: set<Address>, recipient: Address, id: U64): Option<Failure>
    requires id in w.book.streams ==> Scheduled(w.book.streams[id])
  {
    if id !in w.book.streams then Some(StreamFailure(StreamNotFound))
    else if w.book.streams[id].recipient != recipient then Some(StreamFailure(StreamUnauthorized))
    else if OutOfRange(w.book.streams[id], w.now) then Some(StreamFailure(StreamMathOverflow))
    else if Entitlement(w.book.streams[id], w.now) > w.book.streams[id].withdrawn && !Signed(w, signers, recipient) then
      Some(AuthFailure)
    else None
  }

  function CancelRefusal(w: World, signers: set<Address>, sender: Address, id: U64): Option<Failure> {
    if !Signed(w, signers, sender) then Some(AuthFailure)
    else if id !in w.book.streams then Some(StreamFailure(StreamNotFound))
    else if w.book.streams[id].sender != sender then Some(StreamFailure(StreamUnauthorized))
    else if !w.book.streams[id].cancellable then Some(StreamFailure(NotCancellable))
    else if w.book.streams[id].status == Status.Cancelled || w.now >= w.book.streams[id].endLedger then
      Some(StreamFailure(AlreadyFinalized))
    else if OutOfRange(w.book.streams[id], w.now) then Some(StreamFailure(StreamMathOverflow))
    else None
  }

  function DepositRefusal(w: World, signers: set<Address>, from: Address, token: Address, amount: I128, id: U64)
    : Option<Failure>
  {
    if amount <= 0 then Some(VaultFailure(VaultInvalidAmount))
    else if !Signed(w, signers, from) then Some(AuthFailure)
    else if id in w.holdings.book.token && w.holdings.book.token[id] != token then Some(VaultFailure(TokenMismatch))
    else if Token.BalanceOf(w.holdings.bank, token, from) < amount then Some(TokenFailure)
    else None
  }

  /** Nobody outside is the stream contract, so a direct payout always fails. */
  function PayoutRefusal(w: World, signers: set<Address>, caller: Address, amount: I128): Option<Failure> {
    if amount <= 0 then Some(VaultFailure(VaultInvalidAmount))
    else if !Signed(w, signers, caller) then Some(AuthFailure)
    else Some(VaultFailure(VaultUnauthorized))
  }

  function SwitchRefusal(w: World, signers: set<Address>): Option<Failure> {
    if w.book.admin.None? then Some(StreamFailure(StreamNotInitialized))
    else if !Signed(w, signers, w.book.admin.value) then Some(AuthFailure)
    else None
  }

  /** Why `call` is refused, by the first reason that applies; None when it succeeds. */
  function Refusal(w: World, signers: set<Address>, call: Call): Option<Failure>
    requires forall id :: id in w.book.streams ==> Scheduled(w.book.streams[id])
  {
    match call
    case CallCreateStream(terms) => CreateRefusal(w, signers, terms)
    case CallWithdraw(recipient, id, amount) => WithdrawRefusal(w, signers, recipient, id, amount)
    case CallWithdrawMax(recipient, id) => WithdrawMaxRefusal(w, signers, recipient, id)
    case CallCancelStream(sender, id) => CancelRefusal(w, signers, sender, id)
    case CallDeposit(from, token, amount, id) => DepositRefusal(w, signers, from, token, amount, id)
    case CallRelease(caller, _, _, amount, _) => PayoutRefusal(w, signers, caller, amount)
    case CallRefund(caller, _, _, amount, _) => PayoutRefusal(w, signers, caller, amount)
    case CallPause => SwitchRefusal(w, signers)
    case CallUnpause => SwitchRefusal(w, signers)
    case CallTransfer(token, from, _, amount) =>
      if !Signed(w, signers, from) then Some(AuthFailure)
      else if !(0 <= amount <= Token.BalanceOf(w.holdings.bank, token, from)) then Some(TokenFailure)
      else None
  }

  // ----- what a call does -----

  /** `amount` of `token` from `from` arrived on `id`, in the books and in the bank. */
  ghost predicate FundsIn(h: Holdings, h2: Holdings, id: U64, token: Address, from: Address, amount: I128) {
    && h2.book == h.book.(token := h.book.token[id := token],
                          balance := h2.book.balance,
                          locked := h2.book.locked,
                          log := h.book.log + [Deposited(id, from, token, amount)])
    && (forall i: U64 :: StreamBalance(h2.book, i) == StreamBalance(h.book, i) + if i == id then amount else 0)
    && (forall t :: TotalLocked(h2.book, t) == TotalLocked(h.book, t) + if t == token then amount else 0)
    && (forall t, a :: Token.BalanceOf(h2.bank, t, a)
                    == Token.BalanceOf(h.bank, t, a) + Token.Moved(token, from, h.book.self, amount, t, a))
  }

  /** `amount` of the token of `id` went from the vault to `to`, reported as `e`. */
  ghost predicate FundsOut(h: Holdings, h2: Holdings, id: U64, token: Address, to: Address, amount: int,
                           e: VaultEvent)
  {
    && id in h.book.token && h.book.token[id] == token
    && h2.book == h.book.(balance := h2.book.balance, locked := h2.book.locked, log := h.book.log + [e])
    && (forall i: U64 :: StreamBalance(h2.book, i) == StreamBalance(h.book, i) - if i == id then amount else 0)
    && (forall t :: TotalLocked(h2.book, t) == TotalLocked(h.book, t) - if t == token then amount else 0)
    && (forall t, a :: Token.BalanceOf(h2.bank, t, a)
                    == Token.BalanceOf(h.bank, t, a) + Token.Moved(token, h.book.self, to, amount, t, a))
  }

  ghost predicate CreateEffect(w: World, w2: World, terms: Terms, id: U64) {
    && id == w.book.lastId + 1
    && w2.now == w.now
    && w2.book == w.book.(
         lastId := id,
         streams := w.book.streams[id := Stream(
           id, terms.sender, terms.recipient, terms.token, terms.totalAmount, 0, terms.startLedger, terms.endLedger,
           terms.cliffLedger, terms.cancellable, Status.Pending, w.now, 0)],
         senderStreams := w2.book.senderStreams,
         recipientStreams := w2.book.recipientStreams,
         log := w.book.log + [Entry(w.now, Created(id, terms))])
    && (forall a :: IndexOf(w2.book, Sender, a)
                 == IndexOf(w.book, Sender, a) + if a == terms.sender then [id] else [])
    && (forall a :: IndexOf(w2.book, Recipient, a)
                 == IndexOf(w.book, Recipient, a) + if a == terms.recipient then [id] else [])
    && FundsIn(w.holdings, w2.holdings, id, terms.token, terms.sender, terms.totalAmount)
  }

  ghost predicate WithdrawEffect(w: World, w2: World, recipient: Address, id: U64, amount: I128) {
    && id in w.book.streams && id in w2.book.streams
    && w2.now == w.now
    && var s, s2 := w.book.streams[id], w2.book.streams[id];
       && s2 == s.(withdrawn := s2.withdrawn)
       && s2.withdrawn == s.withdrawn + amount
       && w2.book == w.book.(streams := w.book.streams[id := s2],
                             log := w.book.log + [Entry(w.now, Withdrew(id, recipient, amount))])
       && FundsOut(w.holdings, w2.holdings, id, s.token, recipient, amount, Released(id, recipient, s.token, amount))
  }

  /** What a stream cancelled at `now` has earned: nothing on the near side of the cliff. */
  ghost function Kept(s: Stream, now: U32): (kept: I128)
    requires Scheduled(s)
    ensures 0 <= kept <= s.totalAmount
  {
    AccruedBounds(s, now);
    if now < s.cliffLedger then 0 else Accrued(s, now)
  }

  ghost predicate CancelEffect(w: World, w2: World, sender: Address, id: U64)
    requires id in w.book.streams ==> Scheduled(w.book.streams[id])
  {
    && id in w.book.streams
    && w2.now == w.now
    && var s := w.book.streams[id];
       var kept := Kept(s, w.now);
       var rest := s.totalAmount - kept;
       && kept >= s.withdrawn
       && rest > 0
       && w2.book == w.book.(
            streams := w.book.streams[id := s.(status := Status.Cancelled, cancelledAt := w.now)],
            log := w.book.log + [Entry(w.now, StreamEvent.Cancelled(id, sender, kept, rest))])
       && FundsOut(w.holdings, w2.holdings, id, s.token, sender, rest, Refunded(id, sender, s.token, rest))
  }

  ghost predicate SwitchEffect(w: World, w2: World, paused: bool) {
    && w.book.admin.Some?
    && w2 == w.(book := w.book.(paused := paused,
                                log := w.book.log + [Entry(w.now, PauseSet(w.book.admin.value, paused))]))
  }

  /** What an accepted call answers and leaves behind. */
  ghost predicate Effect(w: World, w2: World, call: Call, reply: Reply)
    requires forall id :: id in w.book.streams ==> Scheduled(w.book.streams[id])
  {
    match call
    case CallCreateStream(terms) => reply.StreamId? && CreateEffect(w, w2, terms, reply.id)
    case CallWithdraw(recipient, id, amount) => reply == Nothing && WithdrawEffect(w, w2, recipient, id, amount)
    case CallWithdrawMax(recipient, id) =>
      && reply.Amount?
      && id in w.book.streams
      && reply.amount == Entitlement(w.book.streams[id], w.now) - w.book.streams[id].withdrawn
      && if reply.amount == 0 then w2 == w else WithdrawEffect(w, w2, recipient, id, reply.amount)
    case CallCancelStream(sender, id) => reply == Nothing && CancelEffect(w, w2, sender, id)
    case CallPause => reply == Nothing && SwitchEffect(w, w2, true)
    case CallUnpause => reply == Nothing && SwitchEffect(w, w2, false)
    case CallDeposit(from, token, amount, id) =>
      && reply == Nothing
      && w2 == w.(holdings := w2.holdings)
      && FundsIn(w.holdings, w2.holdings, id, token, from, amount)
    case CallRelease(_, _, _, _, _) => false
    case CallRefund(_, _, _, _, _) => false
    case CallTransfer(token, from, to, amount) =>
      && reply == Nothing
      && w2 == w.(holdings := w.holdings.(bank := w2.holdings.bank))
      && forall t, a :: Token.BalanceOf(w2.holdings.bank, t, a)
                     == Token.BalanceOf(w.holdings.bank, t, a) + Token.Moved(token, from, to, amount, t, a)
  }

  // ----- the contracts meet it -----

  /** The call is refused for the reason specified and leaves no trace, or has the
      effect specified. */
  ghost predicate Meets(w: World, signers: set<Address>, call: Call)
    requires forall id :: id in w.book.streams ==> Scheduled(w.book.streams[id])
  {
    var op := Submit(signers, call);
    match Refusal(w, signers, call)
    case Some(reason) => Answer(w, op) == Err(reason) && Step(w, op) == w
    case None => Answer(w, op).Ok? && Effect(w, Step(w, op), call, Answer(w, op).value)
  }

  lemma InvScheduled(w: World)
    requires Inv(w)
    ensures StreamsOk(w.book, w.now) && Solvent(w.holdings) && Wired(w)
    ensures forall id :: id in w.book.streams ==> Scheduled(w.book.streams[id])
  {
  }

  lemma PrincipalsSigned(w: World, signers: set<Address>)
    ensures forall a :: a in Principals(w, signers) <==> Signed(w, signers, a)
    ensures Outside(w, Principals(w, signers))
  {
  }

  /** In a reachable state the cancelled streams are all computable. */
  lemma OutOfRangeIff(s: Stream, id: U64, now: U32)
    requires StreamOk(s, id, now)
    ensures OutOfRange(s, now) <==> StopLedger(s, now) >= s.cliffLedger && Overflows(s, now)
    ensures s.status == Pending && now < s.endLedger ==>
              (OutOfRange(s, now) <==> Overflows(s.(status := Status.Cancelled, cancelledAt := now), now))
  {
  }

  lemma SolventIsHonest(h: Holdings)
    requires Solvent(h)
    ensures Token.Honest(h.bank)
  {
  }

  lemma DepositMoves(h: Holdings, signers: set<Address>, from: Address, token: Address, amount: I128, id: U64)
    requires Solvent(h)
    requires h.book.self !in signers
    requires Deposit(h, signers, from, token, amount, id).Ok?
    ensures FundsIn(h, Deposit(h, signers, from, token, amount, id).value, id, token, from, amount)
  {
    hide Token.Transfer, Solvent, Token.BalanceOf, Token.Moved;
    assert Token.Honest(h.bank) by {
      SolventIsHonest(h);
    }
    Token.TransferConserves(h.bank, token, from, h.book.self, amount);
  }

  lemma PayoutMoves(h: Holdings, signers: set<Address>, caller: Address, to: Address, token: Address,
                    amount: I128, id: U64, kind: PayoutKind)
    requires Solvent(h)
    requires Pay(h, signers, caller, to, token, amount, id, kind).Ok?
    requires id in h.book.token
    ensures FundsOut(h, Pay(h, signers, caller, to, token, amount, id, kind).value, id, token, to, amount,
                     PayoutEvent(kind, id, to, token, amount))
  {
    hide Pay, Solvent, Token.BalanceOf, Token.Moved;
    PayMoves(h, signers, caller, to, token, amount, id, kind);
    PayWrites(h, signers, caller, to, token, amount, id, kind);
  }

  // ----- call by call -----

  lemma CreateFunds(w: World, signers: set<Address>, terms: Terms)
    requires Solvent(w.holdings) && Wired(w)
    requires Outside(w, signers)
    requires CreateStream(w, signers, terms).Ok?
    ensures FundsIn(w.holdings, CreateStream(w, signers, terms).value.world.holdings, w.book.lastId + 1,
                    terms.token, terms.sender, terms.totalAmount)
  {
    hide Deposit, Solvent, FundsIn;
    DepositMoves(w.holdings, signers + {w.book.self}, terms.sender, terms.token, terms.totalAmount, w.book.lastId + 1);
  }

  lemma CreateIndexes(w: World, w2: World, id: U64, terms: Terms)
    requires CreatedIn(w, w2, id, terms)
    requires FundsIn(w.holdings, w2.holdings, id, terms.token, terms.sender, terms.totalAmount)
    ensures CreateEffect(w, w2, terms, id)
  {
    hide FundsIn, IndexOf;
  }

  lemma CreateDecided(w: World, signers: set<Address>, terms: Terms)
    requires Inv(w)
    ensures var r, refusal := CreateStream(w, Principals(w, signers), terms), CreateRefusal(w, signers, terms);
            if refusal.Some? then r == Err(refusal.value)
            else r.Ok? && r.value.reply.StreamId? && r.value.reply.id == w.book.lastId + 1
  {
    hide Inv, CreateStream, Principals, Signed, IndexOf, Token.BalanceOf;
    PrincipalsSigned(w, signers);
    CreateExact(w, Principals(w, signers), terms);
  }

  lemma CreateActs(w: World, signers: set<Address>, terms: Terms)
    requires Inv(w) && Outside(w, signers)
    requires CreateStream(w, signers, terms).Ok?
    ensures CreateEffect(w, CreateStream(w, signers, terms).value.world, terms, w.book.lastId + 1)
  {
    hide Inv, CreateStream, FundsIn, CreatedIn, CreateEffect;
    InvScheduled(w);
    CreateShape(w, signers, terms);
    CreateFunds(w, signers, terms);
    CreateIndexes(w, CreateStream(w, signers, terms).value.world, w.book.lastId + 1, terms);
  }

  lemma WithdrawRepliesNothing(w: World, signers: set<Address>, recipient: Address, id: U64, amount: I128)
    requires Withdraw(w, signers, recipient, id, amount).Ok?
    ensures Withdraw(w, signers, recipient, id, amount).value.reply == Nothing
  {
    hide WithdrawableAmount, Pay;
  }

  lemma WithdrawDecided(w: World, signers: set<Address>, recipient: Address, id: U64, amount: I128)
    requires Inv(w)
    ensures id in w.book.streams ==> Scheduled(w.book.streams[id])
    ensures var r := Withdraw(w, Principals(w, signers), recipient, id, amount);
            var refusal := WithdrawRefusal(w, signers, recipient, id, amount);
            if refusal.Some? then r == Err(refusal.value)
            else r.Ok? && r.value.reply == Nothing
  {
    hide Inv, Withdraw, Pay, Principals, Signed, Entitlement, OutOfRange, Overflows;
    InvScheduled(w);
    PrincipalsSigned(w, signers);
    WithdrawExact(w, Principals(w, signers), recipient, id, amount);
    if id in w.book.streams {
      OutOfRangeIff(w.book.streams[id], id, w.now);
    }
    if Withdraw(w, Principals(w, signers), recipient, id, amount).Ok? {
      WithdrawRepliesNothing(w, Principals(w, signers), recipient, id, amount);
    }
  }

  lemma WithdrawActs(w: World, signers: set<Address>, recipient: Address, id: U64, amount: I128)
    requires Inv(w) && Outside(w, signers)
    requires Withdraw(w, signers, recipient, id, amount).Ok?
    ensures WithdrawEffect(w, Withdraw(w, signers, recipient, id, amount).value.world, recipient, id, amount)
  {
    hide Withdraw, Pay, Solvent, FundsOut, Entitlement, Overflows, VaultReplayed, Replay, Indexed;
    WithdrawPays(w, signers, recipient, id, amount);
    WithdrawExact(w, signers, recipient, id, amount);
    assert Backed(w, id);
    PayoutMoves(w.holdings, signers + {w.book.self}, w.book.self, recipient, w.book.streams[id].token, amount, id,
                PayoutKind.Release);
  }

  lemma WithdrawMaxDecided(w: World, signers: set<Address>, recipient: Address, id: U64)
    requires Inv(w)
    ensures id in w.book.streams ==> Scheduled(w.book.streams[id])
    ensures var r := WithdrawMax(w, Principals(w, signers), recipient, id);
            var refusal := WithdrawMaxRefusal(w, signers, recipient, id);
            if refusal.Some? then r == Err(refusal.value)
            else
              && r.Ok? && r.value.reply.Amount? && id in w.book.streams
              && r.value.reply.amount == Entitlement(w.book.streams[id], w.now) - w.book.streams[id].withdrawn
  {
    hide Inv, Withdraw, WithdrawMax, Principals, Signed, Entitlement, OutOfRange, Overflows;
    InvScheduled(w);
    PrincipalsSigned(w, signers);
    WithdrawMaxExact(w, Principals(w, signers), recipient, id);
    if id in w.book.streams {
      OutOfRangeIff(w.book.streams[id], id, w.now);
      RecipientIsOwed(w, id);
    }
  }

  lemma WithdrawMaxActs(w: World, signers: set<Address>, recipient: Address, id: U64)
    requires Inv(w) && Outside(w, signers)
    requires WithdrawMax(w, signers, recipient, id).Ok?
    ensures var done := WithdrawMax(w, signers, recipient, id).value;
            && done.reply.Amount?
            && if done.reply.amount == 0 then done.world == w
               else WithdrawEffect(w, done.world, recipient, id, done.reply.amount)
  {
    hide Inv, Withdraw, WithdrawMax, WithdrawEffect, WithdrawableAmount;
    WithdrawMaxCases(w, signers, recipient, id);
    var amount := WithdrawMax(w, signers, recipient, id).value.reply.amount;
    if amount != 0 {
      WithdrawActs(w, signers, recipient, id, amount);
    }
  }

  lemma CancelRepliesNothing(w: World, signers: set<Address>, sender: Address, id: U64)
    requires CancelStream(w, signers, sender, id).Ok?
    ensures CancelStream(w, signers, sender, id).value.reply == Nothing
  {
    hide StreamedAmount, Pay;
  }

  lemma CancelDecided(w: World, signers: set<Address>, sender: Address, id: U64)
    requires Inv(w)
    ensures var r := CancelStream(w, Principals(w, signers), sender, id);
            var refusal := CancelRefusal(w, signers, sender, id);
            if refusal.Some? then r == Err(refusal.value)
            else r.Ok? && r.value.reply == Nothing
  {
    hide Inv, CancelStream, Pay, Principals, Signed, OutOfRange, Overflows, Streamed;
    InvScheduled(w);
    PrincipalsSigned(w, signers);
    CancelExact(w, Principals(w, signers), sender, id);
    if id in w.book.streams {
      OutOfRangeIff(w.book.streams[id], id, w.now);
    }
    if CancelStream(w, Principals(w, signers), sender, id).Ok? {
      CancelRepliesNothing(w, Principals(w, signers), sender, id);
    }
  }

  lemma KeptIsStreamed(s: Stream, id: U64, now: U32)
    requires StreamOk(s, id, now)
    requires s.status == Pending && now < s.endLedger
    ensures Streamed(s.(status := Status.Cancelled, cancelledAt := now), now) == Kept(s, now) >= s.withdrawn
  {
    var f := s.(status := Status.Cancelled, cancelledAt := now);
    assert Accrued(f, now) == Accrued(s, now);
  }

  lemma CancelActs(w: World, signers: set<Address>, sender: Address, id: U64)
    requires Inv(w) && Outside(w, signers)
    requires CancelStream(w, signers, sender, id).Ok?
    ensures id in w.book.streams && Scheduled(w.book.streams[id])
    ensures CancelEffect(w, CancelStream(w, signers, sender, id).value.world, sender, id)
  {
    hide CancelStream, Pay, Solvent, FundsOut, Entitlement, Overflows, VaultReplayed, Replay, Indexed, Streamed, Kept;
    CancelPays(w, signers, sender, id);
    CancelExact(w, signers, sender, id);
    assert Backed(w, id);
    var s := w.book.streams[id];
    KeptIsStreamed(s, id, w.now);
    PayoutMoves(w.holdings, signers + {w.book.self}, w.book.self, sender, s.token, s.totalAmount - Kept(s, w.now), id,
                PayoutKind.Refund);
  }

  lemma DepositDecided(w: World, signers: set<Address>, from: Address, token: Address, amount: I128, id: U64)
    requires Inv(w)
    ensures var r := Deposit(w.holdings, Principals(w, signers), from, token, amount, id);
            var refusal := DepositRefusal(w, signers, from, token, amount, id);
            if refusal.Some? then r == Err(refusal.value)
            else r.Ok? && FundsIn(w.holdings, r.value, id, token, from, amount)
  {
    hide Inv, Deposit, Principals, Signed, Solvent, FundsIn, Token.BalanceOf;
    InvScheduled(w);
    PrincipalsSigned(w, signers);
    DepositExact(w.holdings, Principals(w, signers), from, token, amount, id);
    if Deposit(w.holdings, Principals(w, signers), from, token, amount, id).Ok? {
      DepositMoves(w.holdings, Principals(w, signers), from, token, amount, id);
    }
  }

  lemma PayoutDecided(w: World, signers: set<Address>, caller: Address, to: Address, token: Address, amount: I128,
                      id: U64, kind: PayoutKind)
    requires Inv(w)
    ensures PayoutRefusal(w, signers, caller, amount).Some?
    ensures Pay(w.holdings, Principals(w, signers), caller, to, token, amount, id, kind)
         == Err(PayoutRefusal(w, signers, caller, amount).value)
  {
    hide Inv, Solvent;
    InvScheduled(w);
  }

  lemma TransferDecided(w: World, token: Address, from: Address, to: Address, amount: I128)
    requires Inv(w)
    ensures var r := Token.Transfer(w.holdings.bank, token, from, to, amount);
            if 0 <= amount <= Token.BalanceOf(w.holdings.bank, token, from) then
              && r.Ok?
              && forall t, a :: Token.BalanceOf(r.value, t, a)
                             == Token.BalanceOf(w.holdings.bank, t, a) + Token.Moved(token, from, to, amount, t, a)
            else r == Err(TokenFailure)
  {
    hide Inv, Token.Transfer, Token.BalanceOf, Token.Moved;
    InvScheduled(w);
    SolventIsHonest(w.holdings);
    Token.TransferConserves(w.holdings.bank, token, from, to, amount);
  }

  // ----- every call -----

  /** CALLS. In every reachable state every call, by whoever signed it, is refused
      for exactly the reason specified and leaves no trace, or answers and does
      exactly what is specified, in both contracts and in the bank. */
  lemma CallMeets(w: World, signers: set<Address>, call: Call)
    requires Inv(w)
    ensures StreamsOk(w.book, w.now)
    ensures Meets(w, signers, call)
  {
    hide Inv, Principals, StreamOk, CreateStream, Withdraw, WithdrawMax, CancelStream, Deposit, Pay, Token.Transfer;
    hide CreateRefusal, WithdrawRefusal, WithdrawMaxRefusal, CancelRefusal, DepositRefusal, PayoutRefusal;
    hide CreateEffect, WithdrawEffect, CancelEffect, FundsIn, Entitlement;
    InvScheduled(w);
    PrincipalsSigned(w, signers);
    var principals := Principals(w, signers);
    match call
    case CallCreateStream(terms) =>
      CreateDecided(w, signers, terms);
      if CreateStream(w, principals, terms).Ok? {
        CreateActs(w, principals, terms);
      }
    case CallWithdraw(recipient, id, amount) =>
      WithdrawDecided(w, signers, recipient, id, amount);
      if Withdraw(w, principals, recipient, id, amount).Ok? {
        WithdrawActs(w, principals, recipient, id, amount);
      }
    case CallWithdrawMax(recipient, id) =>
      WithdrawMaxDecided(w, signers, recipient, id);
      if WithdrawMax(w, principals, recipient, id).Ok? {
        WithdrawMaxActs(w, principals, recipient, id);
      }
    case CallCancelStream(sender, id) =>
      CancelDecided(w, signers, sender, id);
      if CancelStream(w, principals, sender, id).Ok? {
        CancelActs(w, principals, sender, id);
      }
    case CallPause => SwitchExact(w, signers, call);
    case CallUnpause => SwitchExact(w, signers, call);
    case CallDeposit(from, token, amount, id) => DepositDecided(w, signers, from, token, amount, id);
    case CallRelease(caller, to, token, amount, id) =>
      PayoutDecided(w, signers, caller, to, token, amount, id, PayoutKind.Release);
    case CallRefund(caller, to, token, amount, id) =>
      PayoutDecided(w, signers, caller, to, token, amount, id, PayoutKind.Refund);
    case CallTransfer(token, from, to, amount) => TransferDecided(w, token, from, to, amount);
  }

  /** The same for every operation after any run of a deployment; closing ledgers
      only ever moves the clock forward. */
  lemma SystemMeets(start: World, ops: seq<Op>, op: Op)
    requires Initial(start)
    ensures var w := Run(start, ops);
            && StreamsOk(w.book, w.now)
            && match op
               case Advance(to) => Answer(w, op) == Ok(Nothing) && Step(w, op) == w.(now := Max(w.now, to))
               case Submit(signers, call) => Meets(w, signers, call)
  {
    hide Run, Meets, Perform, Solvent, Indexed;
    InitialInv(start);
    RunKeeps(start, ops);
    if op.Submit? {
      CallMeets(Run(start, ops), op.signers, op.call);
    }
  }
}
