/** Where real tokens are: every account's balance, and the vault's holding
    beyond its books, along any run. */
module Accounts {
  import opened Soroban
  import opened Custody
  import opened Protocol
  import opened Invariants
  import opened Runs
  import Token

  /** What a vault event says happened to the balance of `a` in token `t`. */
  function EventMove(vault: Address, e: VaultEvent, t: Address, a: Address): int {
    match e
    case Deposited(_, from, token, amount) => Token.Moved(token, from, vault, amount, t, a)
    case Released(_, to, token, amount) => Token.Moved(token, vault, to, amount, t, a)
    case Refunded(_, to, token, amount) => Token.Moved(token, vault, to, amount, t, a)
  }

  /** The sum of that over a whole log: paid to `a` less deposited by `a`. */
  function VaultMoves(vault: Address, log: seq<VaultEvent>, t: Address, a: Address): int {
    if log == [] then 0
    else VaultMoves(vault, log[..|log| - 1], t, a) + EventMove(vault, log[|log| - 1], t, a)
  }

  /** What a plain transfer, outside both contracts, does to that balance. */
  function PlainMove(w: World, op: Op, t: Address, a: Address): int {
    match op
    case Submit(_, CallTransfer(token, from, to, amount)) =>
      if Attempt(w, op).Ok? then Token.Moved(token, from, to, amount, t, a) else 0
    case _ => 0
  }

  function PlainMoves(w: World, ops: seq<Op>, t: Address, a: Address): int {
    if ops == [] then 0
    else
      var before := ops[..|ops| - 1];
      PlainMoves(w, before, t, a) + PlainMove(Run(w, before), ops[|ops| - 1], t, a)
  }

  /** What the vault's address holds of a token beyond what its books lock. */
  function Surplus(h: Holdings, t: Address): int {
    HeldByVault(h, t) - TotalLocked(h.book, t)
  }

  /** From `h` to `h2` the balance of `a` moved as the new events and `plain` say,
      and the surplus by `plainToVault`. */
  ghost predicate Ledgered(h: Holdings, h2: Holdings, t: Address, a: Address, plain: int, plainToVault: int) {
    && h2.book.self == h.book.self
    && Token.BalanceOf(h2.bank, t, a) - VaultMoves(h2.book.self, h2.book.log, t, a)
       == Token.BalanceOf(h.bank, t, a) - VaultMoves(h.book.self, h.book.log, t, a) + plain
    && Surplus(h2, t) == Surplus(h, t) + plainToVault
  }

  lemma VaultMovesAppend(vault: Address, log: seq<VaultEvent>, e: VaultEvent, t: Address, a: Address)
    ensures VaultMoves(vault, log + [e], t, a) == VaultMoves(vault, log, t, a) + EventMove(vault, e, t, a)
  {
    assert (log + [e])[..|log|] == log;
  }

  lemma DepositLedgered(h: Holdings, signers: set<Address>, from: Address, token: Address, amount: I128, id: U64,
                        t: Address, a: Address)
    requires from != h.book.self
    requires Deposit(h, signers, from, token, amount, id).Ok?
    ensures Ledgered(h, Deposit(h, signers, from, token, amount, id).value, t, a, 0, 0)
  {
    hide Token.Transfer, Token.BalanceOf, VaultMoves;
    Token.TransferMoves(h.bank, token, from, h.book.self, amount, t, a);
    Token.TransferMoves(h.bank, token, from, h.book.self, amount, t, h.book.self);
    VaultMovesAppend(h.book.self, h.book.log, Deposited(id, from, token, amount), t, a);
  }

  lemma PayLedgered(h: Holdings, signers: set<Address>, caller: Address, to: Address, token: Address,
                    amount: I128, id: U64, kind: PayoutKind, t: Address, a: Address)
    requires to != h.book.self
    requires Pay(h, signers, caller, to, token, amount, id, kind).Ok?
    ensures Ledgered(h, Pay(h, signers, caller, to, token, amount, id, kind).value, t, a, 0, 0)
  {
    hide Token.Transfer, Token.BalanceOf, VaultMoves;
    Token.TransferMoves(h.bank, token, h.book.self, to, amount, t, a);
    Token.TransferMoves(h.bank, token, h.book.self, to, amount, t, h.book.self);
    VaultMovesAppend(h.book.self, h.book.log, PayoutEvent(kind, id, to, token, amount), t, a);
  }

  lemma CreateLedgered(w: World, signers: set<Address>, terms: Terms, t: Address, a: Address)
    requires Outside(w, signers)
    requires CreateStream(w, signers, terms).Ok?
    ensures Ledgered(w.holdings, CreateStream(w, signers, terms).value.world.holdings, t, a, 0, 0)
  {
    hide Deposit, Ledgered;
    DepositLedgered(w.holdings, signers + {w.book.self}, terms.sender, terms.token, terms.totalAmount,
                    w.book.lastId + 1, t, a);
  }

  lemma WithdrawLedgered(w: World, signers: set<Address>, recipient: Address, id: U64, amount: I128,
                         t: Address, a: Address)
    requires Outside(w, signers)
    requires Withdraw(w, signers, recipient, id, amount).Ok?
    ensures Ledgered(w.holdings, Withdraw(w, signers, recipient, id, amount).value.world.holdings, t, a, 0, 0)
  {
    hide Pay, Ledgered, Accrual.WithdrawableAmount;
    PayLedgered(w.holdings, signers + {w.book.self}, w.book.self, recipient, w.book.streams[id].token, amount, id,
                PayoutKind.Release, t, a);
  }

  lemma CancelLedgered(w: World, signers: set<Address>, sender: Address, id: U64, t: Address, a: Address)
    requires Outside(w, signers)
    requires CancelStream(w, signers, sender, id).Ok?
    ensures Ledgered(w.holdings, CancelStream(w, signers, sender, id).value.world.holdings, t, a, 0, 0)
  {
    hide Pay, Accrual.StreamedAmount;
    var s := w.book.streams[id];
    var f := s.(status := Accrual.Status.Cancelled, cancelledAt := w.now);
    var remainder := s.totalAmount - Accrual.StreamedAmount(f, w.now).value;
    if remainder > 0 {
      PayLedgered(w.holdings, signers + {w.book.self}, w.book.self, sender, s.token, remainder, id,
                  PayoutKind.Refund, t, a);
    }
  }

  lemma PerformLedgered(w: World, signers: set<Address>, call: Call, t: Address, a: Address)
    requires Wired(w) && Outside(w, signers)
    requires Perform(w, signers, call).Ok?
    requires !call.CallTransfer?
    ensures Ledgered(w.holdings, Perform(w, signers, call).value.world.holdings, t, a, 0, 0)
  {
    hide CreateStream, Withdraw, WithdrawMax, CancelStream, Pay, VaultMoves, Token.BalanceOf, Token.Transfer;
    match call
    case CallCreateStream(terms) => CreateLedgered(w, signers, terms, t, a);
    case CallWithdraw(recipient, id, amount) => WithdrawLedgered(w, signers, recipient, id, amount, t, a);
    case CallWithdrawMax(recipient, id) =>
      WithdrawMaxCases(w, signers, recipient, id);
      var amount := WithdrawMax(w, signers, recipient, id).value.reply.amount;
      if amount != 0 {
        WithdrawLedgered(w, signers, recipient, id, amount, t, a);
      }
    case CallCancelStream(sender, id) => CancelLedgered(w, signers, sender, id, t, a);
    case CallPause =>
    case CallUnpause =>
    case CallDeposit(from, token, amount, id) => DepositLedgered(w.holdings, signers, from, token, amount, id, t, a);
    case CallRelease(caller, to, token, amount, id) =>
      OnlyTheStreamContractPays(w, signers, caller, to, token, amount, id, PayoutKind.Release);
    case CallRefund(caller, to, token, amount, id) =>
      OnlyTheStreamContractPays(w, signers, caller, to, token, amount, id, PayoutKind.Refund);
  }

  lemma StepLedgered(w: World, op: Op, t: Address, a: Address)
    requires Wired(w)
    ensures Ledgered(w.holdings, Step(w, op).holdings, t, a, PlainMove(w, op, t, a),
                     PlainMove(w, op, t, w.holdings.book.self))
  {
    hide CreateStream, Withdraw, WithdrawMax, CancelStream, Deposit, Pay, VaultMoves, Token.BalanceOf, Token.Transfer;
    if op.Submit? && Attempt(w, op).Ok? {
      match op.call
      case CallTransfer(token, from, to, amount) =>
        Token.TransferMoves(w.holdings.bank, token, from, to, amount, t, a);
        Token.TransferMoves(w.holdings.bank, token, from, to, amount, t, w.holdings.book.self);
      case _ => PerformLedgered(w, Principals(w, op.signers), op.call, t, a);
    }
  }

  lemma {:induction false} RunLedgered(w: World, ops: seq<Op>, t: Address, a: Address)
    requires Inv(w)
    ensures Ledgered(w.holdings, Run(w, ops).holdings, t, a, PlainMoves(w, ops, t, a),
                     PlainMoves(w, ops, t, w.holdings.book.self))
  {
    hide Inv, Step, PlainMove, VaultMoves, Surplus, Token.BalanceOf;
    if ops == [] {
    } else {
      var before := ops[..|ops| - 1];
      RunLedgered(w, before, t, a);
      RunKeeps(w, before);
      InvWired(Run(w, before));
      StepLedgered(Run(w, before), ops[|ops| - 1], t, a);
    }
  }

  /** ACCOUNTS. After any run every account holds, of every token, what it held
      at the start, plus what the vault's events say it was released and refunded,
      less what they say it deposited, plus its plain transfers. */
  lemma AccountBalances(start: World, ops: seq<Op>, t: Address, a: Address)
    requires Initial(start)
    ensures var h := Run(start, ops).holdings;
            && h.book.self == start.holdings.book.self
            && Token.BalanceOf(h.bank, t, a) == Token.BalanceOf(start.holdings.bank, t, a)
                                                + VaultMoves(h.book.self, h.book.log, t, a)
                                                + PlainMoves(start, ops, t, a)
  {
    hide Run, Inv, Token.BalanceOf;
    InitialInv(start);
    RunLedgered(start, ops, t, a);
  }

  /** SURPLUS. What the vault holds beyond its books is exactly what it held at
      the start plus the plain transfers made to it: no deposit, withdrawal or
      cancel ever touches it. */
  lemma VaultSurplus(start: World, ops: seq<Op>, t: Address)
    requires Initial(start)
    ensures var vault := start.holdings.book.self;
            var h := Run(start, ops).holdings;
            HeldByVault(h, t) - TotalLocked(h.book, t)
            == Token.BalanceOf(start.holdings.bank, t, vault) + PlainMoves(start, ops, t, vault)
  {
    hide Run, Inv, Token.BalanceOf;
    InitialInv(start);
    RunLedgered(start, ops, t, start.holdings.book.self);
  }
}
