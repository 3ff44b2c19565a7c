/** Where every deposited unit went: the vault's event log against the stream
    table, and the supply of every token. */
module Conservation {
  import opened Soroban
  import opened Accrual
  import opened Custody
  import opened Protocol
  import opened Invariants
  import opened Runs
  import Token

  datatype Totals = Totals(deposited: int, released: int, refunded: int)

  /** The money events of one id, added up. */
  function Flows(log: seq<VaultEvent>, id: U64): Totals {
    if log == [] then Totals(0, 0, 0)
    else
      var t := Flows(log[..|log| - 1], id);
      var e := log[|log| - 1];
      if e.id != id then t
      else
        match e
        case Deposited(_, _, _, amount) => t.(deposited := t.deposited + amount)
        case Released(_, _, _, amount) => t.(released := t.released + amount)
        case Refunded(_, _, _, amount) => t.(refunded := t.refunded + amount)
  }

  /** What a stream's record says was paid out on it. */
  function PaidPerRecord(b: StreamBook, id: U64): (int, int)
    requires id in b.streams ==> Scheduled(b.streams[id])
  {
    if id !in b.streams then (0, 0)
    else
      var s := b.streams[id];
      (s.withdrawn, if s.status == Status.Cancelled then s.totalAmount - Streamed(s, 0) else 0)
  }

  /** A payout goes to the stream's own recipient or sender, in its own token. */
  ghost predicate RightPayee(b: StreamBook, e: VaultEvent) {
    match e
    case Deposited(_, _, _, _) => true
    case Released(id, to, token, _) => id in b.streams && to == b.streams[id].recipient && token == b.streams[id].token
    case Refunded(id, to, token, _) => id in b.streams && to == b.streams[id].sender && token == b.streams[id].token
  }

  ghost predicate FlowsAgree(w: World, id: U64) {
    && (id in w.book.streams ==> Scheduled(w.book.streams[id]))
    && PaidPerRecord(w.book, id) == (Flows(w.holdings.book.log, id).released, Flows(w.holdings.book.log, id).refunded)
  }

  ghost predicate Accounted(w: World) {
    && (forall id: U64 :: FlowsAgree(w, id))
    && (forall k :: 0 <= k < |w.holdings.book.log| ==> RightPayee(w.book, w.holdings.book.log[k]))
  }

  lemma FlowsAppend(log: seq<VaultEvent>, e: VaultEvent, id: U64)
    ensures var t := Flows(log, id);
            Flows(log + [e], id) ==
            if e.id != id then t
            else if e.Deposited? then t.(deposited := t.deposited + e.amount)
            else if e.Released? then t.(released := t.released + e.amount)
            else t.(refunded := t.refunded + e.amount)
  {
    assert (log + [e])[..|log|] == log;
  }

  /** An id's vault balance is its inflow less its two outflows, by replay. */
  lemma {:induction false} BalanceFromFlows(log: seq<VaultEvent>, id: U64)
    ensures var t := Flows(log, id);
            GetOr(ReplayVault(log).balance, id, 0) == t.deposited - t.released - t.refunded
  {
    if log == [] {
    } else {
      BalanceFromFlows(log[..|log| - 1], id);
    }
  }

  /** A step that appends one vault event for `id` and rewrites only that stream. */
  lemma AppendKeepsAccounted(w: World, w2: World, e: VaultEvent)
    requires Accounted(w)
    requires w2.holdings.book.log == w.holdings.book.log + [e]
    requires forall i: U64 :: i in w.book.streams ==>
               i in w2.book.streams && TermsOf(w2.book.streams[i]) == TermsOf(w.book.streams[i])
    requires forall i: U64 :: i != e.id ==>
               (i in w2.book.streams <==> i in w.book.streams)
               && (i in w.book.streams ==> w2.book.streams[i] == w.book.streams[i])
    requires FlowsAgree(w2, e.id)
    requires RightPayee(w2.book, e)
    ensures Accounted(w2)
  {
    forall i: U64 ensures FlowsAgree(w2, i) {
      assert FlowsAgree(w, i);
      FlowsAppend(w.holdings.book.log, e, i);
    }
    forall k | 0 <= k < |w2.holdings.book.log| ensures RightPayee(w2.book, w2.holdings.book.log[k]) {
      if k < |w.holdings.book.log| {
        assert RightPayee(w.book, w.holdings.book.log[k]);
      }
    }
  }

  /** A step that leaves the vault's log and every stream alone. */
  lemma QuietKeepsAccounted(w: World, w2: World)
    requires Accounted(w)
    requires w2.holdings.book.log == w.holdings.book.log
    requires w2.book.streams == w.book.streams
    ensures Accounted(w2)
  {
    forall i: U64 ensures FlowsAgree(w2, i) {
      assert FlowsAgree(w, i);
    }
    forall k | 0 <= k < |w2.holdings.book.log| ensures RightPayee(w2.book, w2.holdings.book.log[k]) {
      assert RightPayee(w.book, w.holdings.book.log[k]);
    }
  }

  lemma StreamedIgnoresWithdrawn(s: Stream, withdrawn: I128)
    requires Scheduled(s)
    ensures Streamed(s.(withdrawn := withdrawn), 0) == Streamed(s, 0)
  {
  }

  lemma WithdrawAccounted(w: World, signers: set<Address>, recipient: Address, id: U64, amount: I128)
    requires Inv(w) && Accounted(w)
    requires Withdraw(w, signers, recipient, id, amount).Ok?
    ensures Accounted(Withdraw(w, signers, recipient, id, amount).value.world)
  {
    hide Solvent, Indexed, VaultReplayed, Backed, WithdrawableAmount, Pay, Flows, ApplyEntry, Overflows,
         Streamed, Entitlement;
    var w2 := Withdraw(w, signers, recipient, id, amount).value.world;
    StreamedIgnoresWithdrawn(w.book.streams[id], w2.book.streams[id].withdrawn);
    PayWrites(w.holdings, signers + {w.book.self}, w.book.self, recipient, w.book.streams[id].token, amount, id,
              PayoutKind.Release);
    var e := Released(id, recipient, w.book.streams[id].token, amount);
    WithdrawPays(w, signers, recipient, id, amount);
    assert FlowsAgree(w, id);
    FlowsAppend(w.holdings.book.log, e, id);
    AppendKeepsAccounted(w, w2, e);
  }

  lemma CancelAccounted(w: World, signers: set<Address>, sender: Address, id: U64)
    requires Inv(w) && Accounted(w)
    requires CancelStream(w, signers, sender, id).Ok?
    ensures Accounted(CancelStream(w, signers, sender, id).value.world)
  {
    hide Solvent, Indexed, VaultReplayed, Backed, StreamedAmount, Token.Transfer, Flows, ApplyEntry, Accrued, Overflows;
    var w2 := CancelStream(w, signers, sender, id).value.world;
    CancelPays(w, signers, sender, id);
    var s, f := w.book.streams[id], w2.book.streams[id];
    StreamedIsExact(f, w.now);
    var e := Refunded(id, sender, s.token, s.totalAmount - Streamed(f, w.now));
    assert FlowsAgree(w, id);
    FlowsAppend(w.holdings.book.log, e, id);
    AppendKeepsAccounted(w, w2, e);
  }

  lemma CreateAccounted(w: World, signers: set<Address>, terms: Terms)
    requires Inv(w) && Accounted(w)
    requires CreateStream(w, signers, terms).Ok?
    ensures Accounted(CreateStream(w, signers, terms).value.world)
  {
    hide Solvent, Indexed, Token.Transfer, Flows;
    var w2 := CreateStream(w, signers, terms).value.world;
    var id := w.book.lastId + 1;
    CreateShape(w, signers, terms);
    var e := Deposited(id, terms.sender, terms.token, terms.totalAmount);
    assert FlowsAgree(w, id);
    FlowsAppend(w.holdings.book.log, e, id);
    AppendKeepsAccounted(w, w2, e);
  }

  lemma DonateAccounted(w: World, signers: set<Address>, from: Address, token: Address, amount: I128, id: U64)
    requires Accounted(w)
    requires Deposit(w.holdings, signers, from, token, amount, id).Ok?
    ensures Accounted(w.(holdings := Deposit(w.holdings, signers, from, token, amount, id).value))
  {
    hide Token.Transfer, Flows;
    var w2 := w.(holdings := Deposit(w.holdings, signers, from, token, amount, id).value);
    var e := Deposited(id, from, token, amount);
    assert FlowsAgree(w, id);
    FlowsAppend(w.holdings.book.log, e, id);
    AppendKeepsAccounted(w, w2, e);
  }

  lemma PerformAccounted(w: World, signers: set<Address>, call: Call)
    requires Inv(w) && Outside(w, signers) && Accounted(w)
    requires Perform(w, signers, call).Ok?
    ensures Accounted(Perform(w, signers, call).value.world)
  {
    hide Inv, Accounted, CreateStream, Withdraw, WithdrawMax, CancelStream, Deposit, Pay, Token.Transfer;
    match call
    case CallCreateStream(terms) => CreateAccounted(w, signers, terms);
    case CallWithdraw(recipient, id, amount) => WithdrawAccounted(w, signers, recipient, id, amount);
    case CallWithdrawMax(recipient, id) =>
      WithdrawMaxCases(w, signers, recipient, id);
      var amount := WithdrawMax(w, signers, recipient, id).value.reply.amount;
      if amount != 0 {
        WithdrawAccounted(w, signers, recipient, id, amount);
      }
    case CallCancelStream(sender, id) => CancelAccounted(w, signers, sender, id);
    case CallPause => QuietKeepsAccounted(w, Perform(w, signers, call).value.world);
    case CallUnpause => QuietKeepsAccounted(w, Perform(w, signers, call).value.world);
    case CallDeposit(from, token, amount, id) => DonateAccounted(w, signers, from, token, amount, id);
    case CallRelease(caller, to, token, amount, id) =>
      InvWired(w);
      OnlyTheStreamContractPays(w, signers, caller, to, token, amount, id, PayoutKind.Release);
    case CallRefund(caller, to, token, amount, id) =>
      InvWired(w);
      OnlyTheStreamContractPays(w, signers, caller, to, token, amount, id, PayoutKind.Refund);
    case CallTransfer(_, _, _, _) => QuietKeepsAccounted(w, Perform(w, signers, call).value.world);
  }

  lemma {:induction false} RunAccounted(w: World, ops: seq<Op>)
    requires Inv(w) && Accounted(w)
    ensures Accounted(Run(w, ops))
  {
    hide Inv, Accounted, Perform;
    if ops == [] {
    } else {
      var before, op := Run(w, ops[..|ops| - 1]), ops[|ops| - 1];
      RunAccounted(w, ops[..|ops| - 1]);
      RunKeeps(w, ops[..|ops| - 1]);
      match op
      case Advance(to) => QuietKeepsAccounted(before, Step(before, op));
      case Submit(signers, call) =>
        if Attempt(before, op).Ok? {
          PerformAccounted(before, Principals(before, signers), call);
        }
    }
  }

  /** CONSERVATION. After any run, for every stream, what its recipient was paid,
      what its sender was refunded and what is still owed add up to the deposit;
      its inflow is the deposit and the donations; and every payout on record
      went to the stream's own party in the stream's own token. */
  lemma StreamConservation(start: World, ops: seq<Op>, id: U64)
    requires Initial(start)
    requires id in Run(start, ops).book.streams
    ensures var w := Run(start, ops);
            var s, t := w.book.streams[id], Flows(w.holdings.book.log, id);
            && Scheduled(s)
            && t.released == s.withdrawn
            && t.refunded == (if s.status == Status.Cancelled then s.totalAmount - Streamed(s, 0) else 0)
            && t.released + t.refunded + Owed(s) == s.totalAmount
            && t.deposited == s.totalAmount + Donated(start, ops, id)
    ensures forall k :: 0 <= k < |Run(start, ops).holdings.book.log| ==>
              RightPayee(Run(start, ops).book, Run(start, ops).holdings.book.log[k])
  {
    hide Run, Solvent, Indexed;
    InitialInv(start);
    RunKeeps(start, ops);
    forall i: U64 ensures FlowsAgree(start, i) {
    }
    RunAccounted(start, ops);
    var w := Run(start, ops);
    assert FlowsAgree(w, id);
    BalanceFromFlows(w.holdings.book.log, id);
    Backing(start, ops, id);
  }

  // ----- token supply -----

  ghost predicate SameSupply(w: World, w2: World) {
    forall t :: Token.Supply(w2.holdings.bank, t) == Token.Supply(w.holdings.bank, t)
  }

  lemma TransferSameSupply(bank: Token.Bank, token: Address, from: Address, to: Address, amount: I128)
    requires Token.Transfer(bank, token, from, to, amount).Ok?
    ensures forall t :: Token.Supply(Token.Transfer(bank, token, from, to, amount).value, t) == Token.Supply(bank, t)
  {
    forall t {
      Token.TransferMoves(bank, token, from, to, amount, t, from);
    }
  }

  lemma WithdrawSameSupply(w: World, signers: set<Address>, recipient: Address, id: U64, amount: I128)
    requires Withdraw(w, signers, recipient, id, amount).Ok?
    ensures SameSupply(w, Withdraw(w, signers, recipient, id, amount).value.world)
  {
    hide Token.Transfer, WithdrawableAmount;
    TransferSameSupply(w.holdings.bank, w.book.streams[id].token, w.holdings.book.self, recipient, amount);
  }

  lemma CancelSameSupply(w: World, signers: set<Address>, sender: Address, id: U64)
    requires CancelStream(w, signers, sender, id).Ok?
    ensures SameSupply(w, CancelStream(w, signers, sender, id).value.world)
  {
    hide Token.Transfer, StreamedAmount;
    var s := w.book.streams[id];
    var streamedNow := StreamedAmount(s.(status := Status.Cancelled, cancelledAt := w.now), w.now).value;
    if s.totalAmount - streamedNow > 0 {
      TransferSameSupply(w.holdings.bank, s.token, w.holdings.book.self, sender, s.totalAmount - streamedNow);
    }
  }

  lemma CreateSameSupply(w: World, signers: set<Address>, terms: Terms)
    requires CreateStream(w, signers, terms).Ok?
    ensures SameSupply(w, CreateStream(w, signers, terms).value.world)
  {
    hide Token.Transfer;
    TransferSameSupply(w.holdings.bank, terms.token, terms.sender, w.holdings.book.self, terms.totalAmount);
  }

  lemma StepSameSupply(w: World, op: Op)
    ensures SameSupply(w, Step(w, op))
  {
    hide Token.Transfer, Token.Supply, CreateStream, Withdraw, WithdrawMax, CancelStream;
    if op.Submit? && Attempt(w, op).Ok? {
      var signers := Principals(w, op.signers);
      match op.call
      case CallCreateStream(terms) => CreateSameSupply(w, signers, terms);
      case CallWithdraw(recipient, id, amount) => WithdrawSameSupply(w, signers, recipient, id, amount);
      case CallWithdrawMax(recipient, id) =>
        WithdrawMaxCases(w, signers, recipient, id);
        var amount := WithdrawMax(w, signers, recipient, id).value.reply.amount;
        if amount != 0 {
          WithdrawSameSupply(w, signers, recipient, id, amount);
        }
      case CallCancelStream(sender, id) => CancelSameSupply(w, signers, sender, id);
      case CallPause =>
      case CallUnpause =>
      case CallDeposit(from, token, amount, _) =>
        TransferSameSupply(w.holdings.bank, token, from, w.holdings.book.self, amount);
      case CallRelease(_, to, token, amount, _) =>
        TransferSameSupply(w.holdings.bank, token, w.holdings.book.self, to, amount);
      case CallRefund(_, to, token, amount, _) =>
        TransferSameSupply(w.holdings.bank, token, w.holdings.book.self, to, amount);
      case CallTransfer(token, from, to, amount) => TransferSameSupply(w.holdings.bank, token, from, to, amount);
    }
  }

  /** No run, from any state, creates or destroys a unit of any token. */
  lemma {:induction false} SupplyConservation(w: World, ops: seq<Op>)
    ensures SameSupply(w, Run(w, ops))
  {
    hide Token.Supply, Step;
    if ops == [] {
    } else {
      SupplyConservation(w, ops[..|ops| - 1]);
      StepSameSupply(Run(w, ops[..|ops| - 1]), ops[|ops| - 1]);
    }
  }
}
