/** The exact boundary past which the arithmetic of a stream fails, and what lies beyond. */
module Frontier {
  import opened Soroban
  import opened Sums
  import opened Accrual
  import opened Custody
  import opened Protocol
  import opened Invariants
  import opened Runs
  import opened Creation
  import opened Evolution
  import Token

  /** A live stream past its cliff whose accrual has left i128. */
  ghost predicate Locked(w: World, id: U64) {
    && id in w.book.streams
    && w.book.streams[id].status == Pending
    && w.now >= w.book.streams[id].cliffLedger
    && Overflows(w.book.streams[id], w.now)
  }

  lemma LockedRefuses(w: World, signers: set<Address>, call: Call, id: U64)
    requires Inv(w) && Locked(w, id)
    requires Names(call, id)
    ensures Perform(w, signers, call).Err?
  {
    hide Withdraw, WithdrawMax, CancelStream, Solvent, Indexed;
    match call
    case CallWithdraw(recipient, _, amount) => WithdrawExact(w, signers, recipient, id, amount);
    case CallWithdrawMax(recipient, _) => WithdrawMaxExact(w, signers, recipient, id);
    case CallCancelStream(sender, _) => CancelExact(w, signers, sender, id);
  }

  lemma StepKeepsLocked(w: World, op: Op, id: U64)
    requires Inv(w) && Locked(w, id)
    ensures var w2 := Step(w, op);
            Locked(w2, id) && w2.book.streams[id] == w.book.streams[id]
  {
    hide Perform, Solvent, Indexed, Overflows;
    match op
    case Advance(to) => OverflowPersists(w.book.streams[id], w.now, Max(w.now, to));
    case Submit(signers, call) =>
      if Attempt(w, op).Ok? {
        if Names(call, id) {
          LockedRefuses(w, Principals(w, signers), call, id);
        } else {
          OthersLeaveItAlone(w, Principals(w, signers), call, id);
        }
      }
  }

  lemma {:induction false} RunKeepsLocked(w: World, ops: seq<Op>, id: U64)
    requires Inv(w) && Locked(w, id)
    ensures var w2 := Run(w, ops);
            Inv(w2) && Locked(w2, id) && w2.book.streams[id] == w.book.streams[id]
  {
    hide Inv, Locked, Step;
    RunKeeps(w, ops);
    if ops == [] {
    } else {
      RunKeepsLocked(w, ops[..|ops| - 1], id);
      StepKeepsLocked(Run(w, ops[..|ops| - 1]), ops[|ops| - 1], id);
    }
  }

  /** LOCKED FOREVER. Once a live stream is past its cliff with total · elapsed
      above i128::MAX, no run ever changes its record again: every withdrawal and
      every cancel on it answers an error, whoever signs it. */
  lemma LockedForever(w: World, ops: seq<Op>, id: U64)
    requires Inv(w) && Locked(w, id)
    ensures var w2 := Run(w, ops);
            && Locked(w2, id)
            && w2.book.streams[id] == w.book.streams[id]
            && forall signers, call :: Names(call, id) ==> Answer(w2, Submit(signers, call)).Err?
  {
    hide Inv, Locked, Run, Perform, Names;
    RunKeepsLocked(w, ops, id);
    var w2 := Run(w, ops);
    forall signers, call | Names(call, id) ensures Answer(w2, Submit(signers, call)).Err? {
      LockedRefuses(w2, Principals(w2, signers), call, id);
    }
  }

  /** Which streams can end up locked: exactly those created with total · duration
      above i128::MAX, which `create_stream` accepts. */
  lemma LockedAtEndIff(w: World, id: U64)
    requires Inv(w)
    requires id in w.book.streams && w.book.streams[id].status == Pending
    ensures Locked(Step(w, Advance(w.book.streams[id].endLedger)), id) <==> !NeverOverflows(w.book.streams[id])
  {
    hide Solvent, Indexed;
    var s := w.book.streams[id];
    var later := Max(w.now, s.endLedger);
    ElapsedBounds(s, later);
    assert Product(s, later) == s.totalAmount * Duration(s);
  }

  lemma OneHolderIsHonest(token: Address, holder: Address)
    ensures Token.Honest(map[token := map[holder := I128_MAX]])
  {
    var bank: Token.Bank := map[token := map[holder := I128_MAX]];
    forall t ensures Token.HonestToken(bank, t) {
      var one := map[holder := I128_MAX];
      if t == token {
        SumUpdate(map[], holder, I128_MAX);
        assert map[][holder := I128_MAX] == one;
        assert Token.Holders(bank, t) == one;
      } else {
        assert Token.Holders(bank, t) == map[];
      }
    }
  }

  /** Such a stream can really be created: a whole supply streamed over seven
      ledgers is locked from the second one on. */
  lemma LockedIsReachable(admin: Address, stream: Address, vault: Address, sender: Address, token: Address)
    requires stream != vault && sender != stream && sender != vault
    ensures var start := Genesis(0, admin, stream, vault, map[token := map[sender := I128_MAX]]);
            var terms := Terms(sender, sender, token, I128_MAX, 0, 7, 0, true);
            && Initial(start)
            && Locked(Run(start, [Submit({sender}, CallCreateStream(terms)), Advance(2)]), 1)
  {
    var bank: Token.Bank := map[token := map[sender := I128_MAX]];
    var start := Genesis(0, admin, stream, vault, bank);
    var terms := Terms(sender, sender, token, I128_MAX, 0, 7, 0, true);
    var create := Submit({sender}, CallCreateStream(terms));
    var ops := [create, Advance(2)];
    assert Token.Honest(bank) by {
      OneHolderIsHonest(token, sender);
    }
    assert Initial(start);
    InitialInv(start);
    var created := Step(start, create);
    assert Locked(Step(created, Advance(2)), 1) by {
      assert Principals(start, {sender}) == {sender};
      CreateExact(start, {sender}, terms);
      CreateShape(start, {sender}, terms);
      hide CreateStream;
      assert created.book.streams[1] == NewStream(1, terms, 0);
      assert Product(NewStream(1, terms, 0), 2) == I128_MAX * 2;
    }
    hide Step, Locked;
    assert ops[..1] == [create] && [create][..0] == [];
    assert Run(start, [create]) == created;
  }

  /** In a reachable state no call of any kind, by anyone, makes the vault's
      arithmetic overflow. */
  lemma VaultNeverOverflows(w: World, op: Op)
    requires Inv(w)
    ensures Answer(w, op) != Err(VaultFailure(VaultMathOverflow))
  {
    hide CreateStream, Withdraw, WithdrawMax, CancelStream, Deposit, Pay, Solvent, Indexed, Overflows;
    if op.Submit? {
      var signers := Principals(w, op.signers);
      match op.call
      case CallCreateStream(terms) => CreateExact(w, signers, terms);
      case CallWithdraw(recipient, id, amount) => WithdrawExact(w, signers, recipient, id, amount);
      case CallWithdrawMax(recipient, id) => WithdrawMaxExact(w, signers, recipient, id);
      case CallCancelStream(sender, id) => CancelExact(w, signers, sender, id);
      case CallPause =>
      case CallUnpause =>
      case CallDeposit(from, token, amount, id) => DepositExact(w.holdings, signers, from, token, amount, id);
      case CallRelease(caller, to, token, amount, id) =>
        PayExact(w.holdings, signers, caller, to, token, amount, id, PayoutKind.Release);
      case CallRefund(caller, to, token, amount, id) =>
        PayExact(w.holdings, signers, caller, to, token, amount, id, PayoutKind.Refund);
      case CallTransfer(_, _, _, _) =>
    }
  }

  lemma CancelledGuard(s: Stream, now: U32)
    requires Scheduled(s) && NeverOverflows(s)
    ensures !Overflows(s.(status := Status.Cancelled, cancelledAt := now), now)
  {
    GuardedNeverOverflows(s.(status := Status.Cancelled, cancelledAt := now), now);
  }

  /** NO OVERFLOW. A call is refused for arithmetic only if it is about a stored
      stream that fails total · duration <= i128::MAX, whatever other streams
      anyone has created. */
  lemma GuardedNeverRefusedForArithmetic(w: World, op: Op)
    requires Inv(w)
    requires op.Submit? ==>
               forall id :: id in w.book.streams && Names(op.call, id) ==> NeverOverflows(w.book.streams[id])
    ensures Answer(w, op) != Err(OVERFLOW)
    ensures Answer(w, op) != Err(VaultFailure(VaultMathOverflow))
  {
    hide CreateStream, Withdraw, WithdrawMax, CancelStream, Deposit, Pay, Solvent, Indexed, NeverOverflows, Overflows;
    VaultNeverOverflows(w, op);
    if op.Submit? {
      var signers := Principals(w, op.signers);
      match op.call
      case CallCreateStream(terms) => CreateExact(w, signers, terms);
      case CallWithdraw(recipient, id, amount) =>
        WithdrawExact(w, signers, recipient, id, amount);
        if id in w.book.streams {
          GuardedNeverOverflows(w.book.streams[id], w.now);
        }
      case CallWithdrawMax(recipient, id) =>
        WithdrawMaxExact(w, signers, recipient, id);
        if id in w.book.streams {
          GuardedNeverOverflows(w.book.streams[id], w.now);
        }
      case CallCancelStream(sender, id) =>
        CancelExact(w, signers, sender, id);
        if id in w.book.streams {
          CancelledGuard(w.book.streams[id], w.now);
        }
      case CallDeposit(from, token, amount, id) => DepositExact(w.holdings, signers, from, token, amount, id);
      case CallRelease(caller, to, token, amount, id) =>
        PayExact(w.holdings, signers, caller, to, token, amount, id, PayoutKind.Release);
      case CallRefund(caller, to, token, amount, id) =>
        PayExact(w.holdings, signers, caller, to, token, amount, id, PayoutKind.Refund);
      case _ =>
    }
  }

  /** A guarded stream stays guarded: along any run no call on it by anyone is
      ever refused for arithmetic. */
  lemma GuardedForever(w: World, ops: seq<Op>, id: U64, signers: set<Address>, call: Call)
    requires Inv(w)
    requires id in w.book.streams && NeverOverflows(w.book.streams[id])
    requires Names(call, id)
    ensures var answer := Answer(Run(w, ops), Submit(signers, call));
            answer != Err(OVERFLOW) && answer != Err(VaultFailure(VaultMathOverflow))
  {
    hide Run, Solvent, Indexed, Perform;
    RunEvolves(w, ops);
    GuardedNeverRefusedForArithmetic(Run(w, ops), Submit(signers, call));
  }

  /** So a sender who checks total · duration before creating a stream has ruled
      out every arithmetic refusal on it, by whatever happens afterwards. */
  lemma GuardedAtCreation(w: World, creators: set<Address>, terms: Terms, ops: seq<Op>,
                          signers: set<Address>, call: Call)
    requires Inv(w)
    requires Answer(w, Submit(creators, CallCreateStream(terms))).Ok?
    requires terms.totalAmount * (terms.endLedger - terms.startLedger) <= I128_MAX
    requires Names(call, w.book.lastId + 1)
    ensures var created := Step(w, Submit(creators, CallCreateStream(terms)));
            var answer := Answer(Run(created, ops), Submit(signers, call));
            answer != Err(OVERFLOW) && answer != Err(VaultFailure(VaultMathOverflow))
  {
    hide Run, CreateStream, Solvent, Indexed;
    var create := Submit(creators, CallCreateStream(terms));
    StepKeeps(w, create);
    CreateShape(w, Principals(w, creators), terms);
    GuardedForever(Step(w, create), ops, w.book.lastId + 1, signers, call);
  }

  lemma EntitledToAllAtEnd(s: Stream, now: U32)
    requires Scheduled(s) && s.status != Status.Cancelled && now >= s.endLedger
    ensures Entitlement(s, now) == s.totalAmount
  {
    AccruedBounds(s, now);
  }

  /** PAID IN FULL. A live, guarded stream is paid out to the last unit: after any
      run by anyone that reaches its end ledger, unless its sender cancelled it,
      which a stream that is not cancellable rules out, its recipient's own
      `withdraw_max` succeeds and completes the whole deposit. */
  lemma PaidInFull(w: World, ops: seq<Op>, id: U64)
    requires Inv(w)
    requires id in w.book.streams
    requires var s := w.book.streams[id];
             s.status == Pending && NeverOverflows(s) && Outside(w, {s.recipient})
    requires Run(w, ops).now >= w.book.streams[id].endLedger
    ensures var w2 := Run(w, ops);
            && id in w2.book.streams
            && (w2.book.streams[id].status == Status.Cancelled ==> w.book.streams[id].cancellable)
            && (w2.book.streams[id].status != Status.Cancelled ==> DrainsTo(w2, id, w.book.streams[id].totalAmount))
  {
    hide Run, Solvent, Indexed, DrainsTo, Overflows;
    RunEvolves(w, ops);
    RunPersists(w, ops);
    var w2 := Run(w, ops);
    var s2 := w2.book.streams[id];
    if s2.status != Status.Cancelled {
      GuardedNeverOverflows(s2, w2.now);
      EntitledToAllAtEnd(s2, w2.now);
      WithdrawMaxDrains(w2, id);
    }
  }

  /** From the creation on: terms that are guarded and not cancellable, with an
      outside recipient, guarantee the whole amount at the end. */
  lemma PaidInFullFromCreation(w: World, creators: set<Address>, terms: Terms, ops: seq<Op>)
    requires Inv(w)
    requires Answer(w, Submit(creators, CallCreateStream(terms))).Ok?
    requires terms.totalAmount * (terms.endLedger - terms.startLedger) <= I128_MAX
    requires !terms.cancellable
    requires Outside(w, {terms.recipient})
    requires Run(Step(w, Submit(creators, CallCreateStream(terms))), ops).now >= terms.endLedger
    ensures var w2 := Run(Step(w, Submit(creators, CallCreateStream(terms))), ops);
            && w.book.lastId < U64_MAX
            && w.book.lastId + 1 in w2.book.streams
            && w2.book.streams[w.book.lastId + 1].recipient == terms.recipient
            && DrainsTo(w2, w.book.lastId + 1, terms.totalAmount)
  {
    hide Run, CreateStream, Solvent, Indexed, DrainsTo;
    var create := Submit(creators, CallCreateStream(terms));
    StepKeeps(w, create);
    CreateShape(w, Principals(w, creators), terms);
    PaidInFull(Step(w, create), ops, w.book.lastId + 1);
    RunEvolves(Step(w, create), ops);
  }
}
