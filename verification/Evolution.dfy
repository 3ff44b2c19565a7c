/** How one stream may change along a run: lifecycle, entitlement, and the
    permanent effect of cancelling or overflowing. */
module Evolution {
  import opened Soroban
  import opened Accrual
  import opened Custody
  import opened Protocol
  import opened Invariants
  import opened Runs
  import opened Isolation
  import Token

  /** From record `s` at ledger `now` to `s2` at `now2`: the terms never change,
      withdrawals only add up, and a cancel happens at most once, before the end. */
  ghost predicate Evolves(s: Stream, now: U32, s2: Stream, now2: U32) {
    && now <= now2
    && s2.id == s.id
    && TermsOf(s2) == TermsOf(s)
    && s2.createdAt == s.createdAt
    && s.withdrawn <= s2.withdrawn
    && (s.status == Status.Cancelled ==> s2.status == Status.Cancelled && s2.cancelledAt == s.cancelledAt)
    && (s.status == Pending && s2.status != Pending ==>
          && s2.status == Status.Cancelled
          && s.cancellable
          && now <= s2.cancelledAt <= now2
          && s2.cancelledAt < s.endLedger)
    && (s2.status == Pending ==> s2.cancelledAt == s.cancelledAt)
  }

  ghost predicate AllEvolve(w: World, w2: World) {
    w.now <= w2.now
    && forall id: U64 :: id in w.book.streams ==>
         id in w2.book.streams && Evolves(w.book.streams[id], w.now, w2.book.streams[id], w2.now)
  }

  lemma PerformEvolves(w: World, signers: set<Address>, call: Call)
    requires StreamsOk(w.book, w.now)
    requires Perform(w, signers, call).Ok?
    ensures AllEvolve(w, Perform(w, signers, call).value.world)
  {
    hide CreateStream, Withdraw, WithdrawMax, CancelStream, Deposit, Pay, Token.Transfer;
    hide Overflows, Entitlement, Streamed;
    match call
    case CallCreateStream(terms) => CreateShape(w, signers, terms);
    case CallWithdraw(recipient, id, amount) => WithdrawPays(w, signers, recipient, id, amount);
    case CallWithdrawMax(recipient, id) =>
      WithdrawMaxCases(w, signers, recipient, id);
      var amount := WithdrawMax(w, signers, recipient, id).value.reply.amount;
      if amount != 0 {
        WithdrawPays(w, signers, recipient, id, amount);
      }
    case CallCancelStream(sender, id) => CancelPays(w, signers, sender, id);
    case _ =>
  }

  lemma StepEvolves(w: World, op: Op)
    requires StreamsOk(w.book, w.now)
    ensures AllEvolve(w, Step(w, op))
  {
    hide Perform, StreamOk;
    if op.Submit? && Attempt(w, op).Ok? {
      PerformEvolves(w, Principals(w, op.signers), op.call);
    }
  }

  lemma EvolvesTransitive(a: World, b: World, c: World)
    requires StreamsOk(a.book, a.now) && StreamsOk(b.book, b.now)
    requires AllEvolve(a, b) && AllEvolve(b, c)
    ensures AllEvolve(a, c)
  {
    hide Overflows, Entitlement, Scheduled;
  }

  lemma EvolvesReflexive(w: World)
    ensures AllEvolve(w, w)
  {
  }

  lemma {:induction false} RunEvolves(w: World, ops: seq<Op>)
    requires Inv(w)
    ensures Inv(Run(w, ops))
    ensures AllEvolve(w, Run(w, ops))
  {
    hide Step, AllEvolve, Solvent, Indexed;
    RunKeeps(w, ops);
    if ops == [] {
      EvolvesReflexive(w);
    } else {
      var before := Run(w, ops[..|ops| - 1]);
      RunEvolves(w, ops[..|ops| - 1]);
      StepEvolves(before, ops[|ops| - 1]);
      EvolvesTransitive(w, before, Run(w, ops));
    }
  }

  // ----- lifecycle -----

  predicate Forward(a: Status, b: Status) {
    || a == b
    || a == Pending
    || (a == Active && b != Pending)
  }

  lemma OthersLeaveItAlone(w: World, signers: set<Address>, call: Call, id: U64)
    requires StreamsOk(w.book, w.now)
    requires id in w.book.streams
    requires !Names(call, id)
    requires Perform(w, signers, call).Ok?
    ensures var w2 := Perform(w, signers, call).value.world;
            id in w2.book.streams && w2.book.streams[id] == w.book.streams[id] && w2.now == w.now
  {
    hide CreateStream, Withdraw, WithdrawMax, CancelStream, Deposit, Pay, Token.Transfer, Overflows, Streamed;
    match call
    case CallCreateStream(terms) => CreateShape(w, signers, terms);
    case CallWithdraw(recipient, i, amount) => WithdrawPays(w, signers, recipient, i, amount);
    case CallWithdrawMax(recipient, i) =>
      WithdrawMaxCases(w, signers, recipient, i);
      var amount := WithdrawMax(w, signers, recipient, i).value.reply.amount;
      if amount != 0 {
        WithdrawPays(w, signers, recipient, i, amount);
      }
    case CallCancelStream(sender, i) => CancelPays(w, signers, sender, i);
    case _ =>
  }

  predicate IsCancelled(w: World, id: U64) {
    id in w.book.streams && w.book.streams[id].status == Status.Cancelled
  }

  /** `op` is a `cancel_stream` on `id` that succeeds at `w`. */
  predicate Cancels(w: World, op: Op, id: U64) {
    op.Submit? && op.call.CallCancelStream? && op.call.id == id && Answer(w, op).Ok?
  }

  ghost predicate CancelledDuring(w: World, ops: seq<Op>, id: U64) {
    exists k :: 0 <= k < |ops| && Cancels(Run(w, ops[..k]), ops[k], id)
  }

  lemma CallSetsCancelled(w: World, signers: set<Address>, call: Call, id: U64)
    requires StreamsOk(w.book, w.now)
    requires Perform(w, signers, call).Ok?
    ensures IsCancelled(Perform(w, signers, call).value.world, id)
       <==> IsCancelled(w, id) || (call.CallCancelStream? && call.id == id)
  {
    hide CreateStream, Withdraw, WithdrawMax, CancelStream, Deposit, Pay, Token.Transfer, Overflows, Streamed;
    if id in w.book.streams && !Names(call, id) {
      OthersLeaveItAlone(w, signers, call, id);
    } else {
      match call
      case CallCreateStream(terms) => CreateShape(w, signers, terms);
      case CallWithdraw(recipient, i, amount) => WithdrawPays(w, signers, recipient, i, amount);
      case CallWithdrawMax(recipient, i) =>
        WithdrawMaxCases(w, signers, recipient, i);
        var amount := WithdrawMax(w, signers, recipient, i).value.reply.amount;
        if amount != 0 {
          WithdrawPays(w, signers, recipient, i, amount);
        }
      case CallCancelStream(sender, i) => CancelPays(w, signers, sender, i);
      case _ =>
    }
  }

  lemma StepSetsCancelled(w: World, op: Op, id: U64)
    requires Inv(w)
    ensures IsCancelled(Step(w, op), id) <==> IsCancelled(w, id) || Cancels(w, op, id)
  {
    hide Perform, Solvent, Indexed, StreamOk;
    if op.Submit? && Attempt(w, op).Ok? {
      CallSetsCancelled(w, Principals(w, op.signers), op.call, id);
    }
  }

  lemma CancelledDuringSplit(w: World, ops: seq<Op>, id: U64)
    requires ops != []
    ensures var before, op := ops[..|ops| - 1], ops[|ops| - 1];
            CancelledDuring(w, ops, id) <==> CancelledDuring(w, before, id) || Cancels(Run(w, before), op, id)
  {
    hide Run, Cancels;
    var before, op := ops[..|ops| - 1], ops[|ops| - 1];
    assert forall k :: 0 <= k < |before| ==> ops[..k] == before[..k] && ops[k] == before[k];
    if Cancels(Run(w, before), op, id) {
      assert ops[..|ops| - 1] == before;
    }
  }

  /** A stored stream is cancelled exactly when a `cancel_stream` on it succeeded. */
  lemma {:induction false} CancelledIff(w: World, ops: seq<Op>, id: U64)
    requires Inv(w)
    ensures IsCancelled(Run(w, ops), id) <==> IsCancelled(w, id) || CancelledDuring(w, ops, id)
  {
    hide Step, Solvent, Indexed, StreamOk, IsCancelled, Cancels;
    if ops == [] {
    } else {
      hide CancelledDuring;
      var before, op := Run(w, ops[..|ops| - 1]), ops[|ops| - 1];
      CancelledIff(w, ops[..|ops| - 1], id);
      CancelledDuringSplit(w, ops, id);
      RunKeeps(w, ops[..|ops| - 1]);
      StepSetsCancelled(before, op, id);
    }
  }

  /** LIFECYCLE. Along any run a stream's derived status only moves forward
      (Pending, Active, Completed, or Cancelled from the first two), and is fixed
      by the terms, the ledger and whether a `cancel_stream` on it has succeeded.
      What is stored is only ever Pending or Cancelled; and the status says what
      has streamed: nothing when Pending, everything when Completed, unless the
      arithmetic overflows. */
  lemma Lifecycle(w: World, ops: seq<Op>, id: U64)
    requires Inv(w)
    requires id in w.book.streams
    ensures var w2 := Run(w, ops);
            && id in w2.book.streams
            && var s, s2 := w.book.streams[id], w2.book.streams[id];
               var status2 := ComputeStatus(s2, w2.now);
               && Forward(ComputeStatus(s, w.now), status2)
               && StatusSays(status2, s.startLedger, s.endLedger,
                             s.status == Status.Cancelled || CancelledDuring(w, ops, id), w2.now)
               && (s2.status == Pending || s2.status == Status.Cancelled)
               && (s2.status == Status.Cancelled ==> s2.cancelledAt < s2.endLedger)
               && (status2 == Pending ==> StreamedAmount(s2, w2.now) == Ok(0))
               && (status2 == Completed ==>
                     StreamedAmount(s2, w2.now) == if Overflows(s2, w2.now) then Err(OVERFLOW) else Ok(s2.totalAmount))
  {
    hide Solvent, Indexed, Run, StreamedAmount, CancelledDuring;
    RunEvolves(w, ops);
    CancelledIff(w, ops, id);
    var w2 := Run(w, ops);
    var s2 := w2.book.streams[id];
    StatusIsExact(s2, w2.now);
    StreamedIsExact(s2, w2.now);
    AccruedBounds(s2, w2.now);
  }

  /** The same from the creation on: the status of a new stream after any run
      follows from the terms passed and from its cancels. */
  lemma LifecycleFromCreation(w: World, creators: set<Address>, terms: Terms, ops: seq<Op>)
    requires Inv(w)
    requires Answer(w, Submit(creators, CallCreateStream(terms))).Ok?
    ensures var created, id := Step(w, Submit(creators, CallCreateStream(terms))), w.book.lastId + 1;
            var w2 := Run(created, ops);
            && id in w2.book.streams
            && StatusSays(ComputeStatus(w2.book.streams[id], w2.now), terms.startLedger, terms.endLedger,
                          CancelledDuring(created, ops, id), w2.now)
  {
    hide Run, CreateStream, Solvent, Indexed, CancelledDuring;
    var create := Submit(creators, CallCreateStream(terms));
    StepKeeps(w, create);
    CreateShape(w, Principals(w, creators), terms);
    Lifecycle(Step(w, create), ops, w.book.lastId + 1);
  }

  // ----- entitlement -----

  lemma EvolvingEntitlement(s: Stream, now: U32, s2: Stream, now2: U32, id: U64)
    requires StreamOk(s, id, now) && StreamOk(s2, id, now2)
    requires Evolves(s, now, s2, now2)
    ensures Entitlement(s, now) <= Entitlement(s2, now2)
  {
    var at, at2 := StopLedger(s, now), StopLedger(s2, now2);
    EntitlementBounds(s2, now2);
    AccruedMonotone(s, at, at2);
    assert Accrued(s2, at2) == Accrued(s, at2);
  }

  /** NO OVERPAYMENT. Along any run the recipient of a stream never holds more
      than the exact entitlement, holds nothing on the near side of the cliff,
      and the entitlement never goes down. */
  lemma NoOverpayment(w: World, ops: seq<Op>, id: U64)
    requires Inv(w)
    requires id in w.book.streams
    ensures var w2 := Run(w, ops);
            && id in w2.book.streams
            && var s, s2 := w.book.streams[id], w2.book.streams[id];
               && Scheduled(s) && Scheduled(s2)
               && 0 <= s2.withdrawn <= Entitlement(s2, w2.now) <= s2.totalAmount
               && (StopLedger(s2, w2.now) < s2.cliffLedger ==> s2.withdrawn == 0)
               && Entitlement(s, w.now) <= Entitlement(s2, w2.now)
  {
    hide Solvent, Indexed, Run;
    RunEvolves(w, ops);
    var w2 := Run(w, ops);
    EvolvingEntitlement(w.book.streams[id], w.now, w2.book.streams[id], w2.now, id);
    EntitlementBounds(w2.book.streams[id], w2.now);
  }

  /** The raw `streamed_amount` is not monotone: a cancel makes it drop exactly
      when it comes before the cliff after something had accrued. */
  lemma CancelDropsStreamedIff(s: Stream, id: U64, now: U32)
    requires StreamOk(s, id, now) && s.status == Pending && now < s.endLedger
    ensures var f := s.(status := Status.Cancelled, cancelledAt := now);
            Streamed(f, now) < Streamed(s, now) <==> now < s.cliffLedger && Accrued(s, now) > 0
  {
    var f := s.(status := Status.Cancelled, cancelledAt := now);
    AccruedBounds(s, now);
    assert Accrued(f, now) == Accrued(s, now);
  }

  // ----- withdraw_max -----

  /** `s2` is `s` after withdrawals up to `withdrawn` in all. */
  ghost predicate WithdrawnUpTo(s: Stream, s2: Stream, withdrawn: int) {
    s2.withdrawn == withdrawn && s2 == s.(withdrawn := s2.withdrawn)
  }

  /** The recipient's own `withdraw_max` on `id` succeeds, answers exactly what
      was missing to `total`, moves that from the vault to the recipient and
      touches nothing else, and leaves `total` withdrawn. */
  ghost predicate DrainsTo(w: World, id: U64, total: int)
    requires id in w.book.streams
  {
    var s := w.book.streams[id];
    var op := Submit({s.recipient}, CallWithdrawMax(s.recipient, id));
    var answer, w2 := Answer(w, op), Step(w, op);
    && answer.Ok? && answer.value.Amount?
    && answer.value.amount == total - s.withdrawn
    && w2.now == w.now
    && w2.book.self == w.book.self
    && w2.holdings.book.self == w.holdings.book.self
    && w2.book.streams.Keys == w.book.streams.Keys
    && WithdrawnUpTo(s, w2.book.streams[id], total)
    && PaidOnly(w, w2, id, s.recipient, total - s.withdrawn)
  }

  /** The exact outcome of `withdraw_max` in a reachable state. It never answers
      `ExceedsWithdrawable`, nor any error of the vault or the token. */
  lemma WithdrawMaxExact(w: World, signers: set<Address>, recipient: Address, id: U64)
    requires Inv(w)
    ensures var r := WithdrawMax(w, signers, recipient, id);
            if id !in w.book.streams then r == Err(StreamErr(StreamNotFound))
            else if w.book.streams[id].recipient != recipient then r == Err(StreamErr(StreamUnauthorized))
            else
              var s := w.book.streams[id];
              if StopLedger(s, w.now) >= s.cliffLedger && Overflows(s, w.now) then r == Err(OVERFLOW)
              else if Entitlement(s, w.now) == s.withdrawn then r == Ok(Done(w, Amount(0)))
              else if recipient !in signers then r == Err(AuthFailure)
              else
                && r.Ok?
                && r.value.reply.Amount?
                && r.value.reply.amount == Entitlement(s, w.now) - s.withdrawn > 0
                && Withdraw(w, signers, recipient, id, r.value.reply.amount).Ok?
                && r.value.world == Withdraw(w, signers, recipient, id, r.value.reply.amount).value.world
  {
    hide Withdraw, WithdrawableAmount, Solvent, Indexed, Pay;
    if id in w.book.streams {
      var s := w.book.streams[id];
      WithdrawableIsExact(s, w.now);
      EntitlementBounds(s, w.now);
      WithdrawExact(w, signers, recipient, id, Entitlement(s, w.now) - s.withdrawn);
    }
  }

  lemma PaidNothing(w: World, id: U64, payee: Address)
    requires id in w.book.streams
    ensures PaidOnly(w, w, id, payee, 0)
  {
  }

  lemma StoredScheduled(w: World, id: U64)
    requires Inv(w)
    requires id in w.book.streams
    ensures StreamsOk(w.book, w.now)
    ensures Scheduled(w.book.streams[id])
  {
  }

  lemma WithdrawMaxDrains(w: World, id: U64)
    requires Inv(w)
    requires id in w.book.streams
    requires var s := w.book.streams[id]; StopLedger(s, w.now) < s.cliffLedger || !Overflows(s, w.now)
    requires Outside(w, {w.book.streams[id].recipient})
    ensures Scheduled(w.book.streams[id])
    ensures DrainsTo(w, id, Entitlement(w.book.streams[id], w.now))
  {
    hide Withdraw, WithdrawMax, Inv, Entitlement, Overflows, PaidOnly;
    StoredScheduled(w, id);
    var s := w.book.streams[id];
    var signers := {s.recipient};
    assert Principals(w, signers) == signers;
    WithdrawMaxExact(w, signers, s.recipient, id);
    if Entitlement(s, w.now) == s.withdrawn {
      PaidNothing(w, id, s.recipient);
    } else {
      var amount := WithdrawMax(w, signers, s.recipient, id).value.reply.amount;
      WithdrawPays(w, signers, s.recipient, id, amount);
      WithdrawIsolated(w, signers, s.recipient, id, amount);
    }
  }

  // ----- cancel -----

  lemma FrozenForever(s: Stream, now: U32, s2: Stream, now2: U32, id: U64, t: U32)
    requires StreamOk(s, id, now) && StreamOk(s2, id, now2)
    requires Evolves(s, now, s2, now2)
    requires s.status == Status.Cancelled
    ensures StreamedAmount(s2, t) == Ok(Streamed(s, now))
    ensures Entitlement(s2, t) == Streamed(s, now)
  {
    StreamedIsExact(s2, t);
    AccruedBounds(s, s.cancelledAt);
    assert Product(s2, s.cancelledAt) == Product(s, s.cancelledAt);
  }

  /** CANCEL SPLIT. A successful cancel divides the deposit into what streamed,
      at least what was already withdrawn, and a positive remainder; the event
      reports the two and the vault refunds the second to the sender. */
  lemma CancelSplit(w: World, signers: set<Address>, sender: Address, id: U64)
    requires Inv(w)
    requires CancelStream(w, signers, sender, id).Ok?
    ensures id in w.book.streams && Scheduled(w.book.streams[id])
    ensures var s, w2 := w.book.streams[id], CancelStream(w, signers, sender, id).value.world;
            && id in w2.book.streams && Scheduled(w2.book.streams[id])
            && var streamed := Streamed(w2.book.streams[id], w.now);
               && w2.book.streams[id].status == Status.Cancelled
               && s.withdrawn <= streamed < s.totalAmount
               && w2.book.log == w.book.log
                  + [Entry(w.now, StreamEvent.Cancelled(id, sender, streamed, s.totalAmount - streamed))]
               && StreamBalance(w2.holdings.book, id) == StreamBalance(w.holdings.book, id) - (s.totalAmount - streamed)
  {
    hide CancelStream, Solvent, Indexed, Overflows, Streamed;
    CancelPays(w, signers, sender, id);
    CancelledStreamOk(w.book.streams[id], id, w.now);
  }

  /** FROZEN. From a cancelled stream on, along any run, `streamed_amount` is
      computable at every ledger and always the frozen value; withdrawals never
      exceed it; and the recipient's next `withdraw_max` brings them to it. */
  lemma CancelledForever(w: World, id: U64, ops: seq<Op>, t: U32)
    requires Inv(w)
    requires id in w.book.streams && w.book.streams[id].status == Status.Cancelled
    ensures var w2 := Run(w, ops);
            && Inv(w2)
            && id in w2.book.streams
            && Scheduled(w.book.streams[id])
            && var frozen, s2 := Streamed(w.book.streams[id], w.now), w2.book.streams[id];
               && StreamedAmount(s2, t) == Ok(frozen)
               && s2.withdrawn <= frozen
               && (Outside(w2, {s2.recipient}) ==> DrainsTo(w2, id, frozen))
  {
    hide Run, Solvent, Indexed, StreamedAmount, DrainsTo, Outside, Streamed, Entitlement;
    RunEvolves(w, ops);
    var w2 := Run(w, ops);
    FrozenForever(w.book.streams[id], w.now, w2.book.streams[id], w2.now, id, t);
    FrozenForever(w.book.streams[id], w.now, w2.book.streams[id], w2.now, id, w2.now);
    if Outside(w2, {w2.book.streams[id].recipient}) {
      WithdrawMaxDrains(w2, id);
    }
  }
}
