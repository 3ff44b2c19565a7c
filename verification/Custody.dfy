/** The vault's books and the effect of its calls on them and on the tokens
    (contracts/vault/src/lib.rs, contracts/vault/src/storage.rs). */
module Custody {
  import opened Soroban
  import opened Sums
  import opened Token

  datatype VaultEvent =
    | Deposited(id: U64, from: Address, token: Address, amount: I128)
    | Released(id: U64, to: Address, token: Address, amount: I128)
    | Refunded(id: U64, to: Address, token: Address, amount: I128)

  datatype PayoutKind = Release | Refund

  datatype VaultBook = VaultBook(
    self: Address,
    streamContract: Option<Address>,
    balance: map<U64, I128>,
    token: map<U64, Address>,
    locked: map<Address, I128>,
    log: seq<VaultEvent>)

  datatype Holdings = Holdings(book: VaultBook, bank: Bank)

  function StreamBalance(v: VaultBook, id: U64): I128 {
    GetOr(v.balance, id, 0)
  }

  function TotalLocked(v: VaultBook, token: Address): I128 {
    GetOr(v.locked, token, 0)
  }

  function HeldByVault(c: Holdings, token: Address): I128 {
    BalanceOf(c.bank, token, c.book.self)
  }

  // ----- the calls -----

  function Deposit(c: Holdings, signers: set<Address>, from: Address, token: Address, amount: I128, id: U64)
    : Outcome<Holdings>
  {
    var v := c.book;
    :- Check(amount > 0, VaultFailure(VaultInvalidAmount));
    :- Check(from in signers, AuthFailure);
    :- Check(id in v.token ==> v.token[id] == token, VaultFailure(TokenMismatch));
    var bank :- Transfer(c.bank, token, from, v.self, amount);
    var newBalance :- Checked(StreamBalance(v, id) + amount, VaultFailure(VaultMathOverflow));
    var newTotal :- Checked(TotalLocked(v, token) + amount, VaultFailure(VaultMathOverflow));
    Ok(Holdings(
         v.(token := v.token[id := token],
            balance := v.balance[id := newBalance],
            locked := v.locked[token := newTotal],
            log := v.log + [Deposited(id, from, token, amount)]),
         bank))
  }

  function PayoutEvent(kind: PayoutKind, id: U64, to: Address, token: Address, amount: I128): VaultEvent {
    match kind
    case Release => Released(id, to, token, amount)
    case Refund => Refunded(id, to, token, amount)
  }

  /** `release` and `refund`, which differ in their event only. */
  function Pay(c: Holdings, signers: set<Address>, caller: Address, to: Address, token: Address,
               amount: I128, id: U64, kind: PayoutKind)
    : Outcome<Holdings>
  {
    var v := c.book;
    :- Check(amount > 0, VaultFailure(VaultInvalidAmount));
    :- Check(v.streamContract.Some?, VaultFailure(VaultNotInitialized));
    :- Check(caller in signers, AuthFailure);
    :- Check(caller == v.streamContract.value, VaultFailure(VaultUnauthorized));
    :- Check(id in v.token ==> v.token[id] == token, VaultFailure(TokenMismatch));
    :- Check(amount <= StreamBalance(v, id), VaultFailure(InsufficientBalance));
    var newBalance :- Checked(StreamBalance(v, id) - amount, VaultFailure(VaultMathOverflow));
    var newTotal :- Checked(TotalLocked(v, token) - amount, VaultFailure(VaultMathOverflow));
    var bank :- Transfer(c.bank, token, v.self, to, amount);
    Ok(Holdings(
         v.(balance := v.balance[id := newBalance],
            locked := v.locked[token := newTotal],
            log := v.log + [PayoutEvent(kind, id, to, token, amount)]),
         bank))
  }

  // ----- solvency -----

  /** The balances of the streams funded in `token`. */
  function FundedIn(v: VaultBook, token: Address): map<U64, I128> {
    map id | id in v.balance && id in v.token && v.token[id] == token :: v.balance[id]
  }

  /** `total_locked` is the sum of what it summarises, and the vault really holds it. */
  ghost predicate SolventIn(c: Holdings, token: Address) {
    && TotalLocked(c.book, token) == Sum(FundedIn(c.book, token))
    && 0 <= TotalLocked(c.book, token) <= HeldByVault(c, token)
  }

  ghost predicate Solvent(c: Holdings) {
    && Honest(c.bank)
    && c.book.balance.Keys == c.book.token.Keys
    && (forall id :: id in c.book.balance ==> c.book.balance[id] >= 0)
    && (forall t :: SolventIn(c, t))
  }

  lemma StreamBalanceBelowTotal(c: Holdings, id: U64)
    requires Solvent(c)
    requires id in c.book.token
    ensures 0 <= StreamBalance(c.book, id) <= TotalLocked(c.book, c.book.token[id])
  {
    var t := c.book.token[id];
    assert SolventIn(c, t);
    assert FundedIn(c.book, t)[id] == c.book.balance[id];
    EntryBelowSum(FundedIn(c.book, t), id);
  }

  /** Changing one stream's balance changes its token's sum by as much and no other sum. */
  lemma FundedInUpdate(v: VaultBook, id: U64, token: Address, amount: I128, t: Address)
    requires v.balance.Keys == v.token.Keys
    requires id in v.token ==> v.token[id] == token
    ensures var u := v.(token := v.token[id := token], balance := v.balance[id := amount]);
            Sum(FundedIn(u, t)) ==
            Sum(FundedIn(v, t)) + if t == token then amount - StreamBalance(v, id) else 0
  {
    var u := v.(token := v.token[id := token], balance := v.balance[id := amount]);
    if t == token {
      assert FundedIn(u, t) == FundedIn(v, t)[id := amount];
      SumUpdate(FundedIn(v, t), id, amount);
    } else {
      assert FundedIn(u, t) == FundedIn(v, t);
    }
  }

  /** Why a deposit from outside can never overflow the books once the token has moved. */
  lemma DepositFits(c: Holdings, from: Address, token: Address, amount: I128, id: U64)
    requires Solvent(c)
    requires from != c.book.self
    requires id in c.book.token ==> c.book.token[id] == token
    requires 0 < amount <= BalanceOf(c.bank, token, from)
    ensures 0 <= StreamBalance(c.book, id) <= TotalLocked(c.book, token)
    ensures TotalLocked(c.book, token) + amount <= I128_MAX
  {
    assert SolventIn(c, token);
    HoldingsFit(c.bank, token, from, c.book.self);
    if id in c.book.token {
      StreamBalanceBelowTotal(c, id);
    }
  }

  /** The exact outcome of `deposit` on a solvent vault. After the guards the
      token transfer alone decides: `MathOverflow` is out of reach. */
  lemma DepositExact(c: Holdings, signers: set<Address>, from: Address, token: Address, amount: I128, id: U64)
    requires Solvent(c)
    requires c.book.self !in signers
    ensures var r := Deposit(c, signers, from, token, amount, id);
            if amount <= 0 then r == Err(VaultFailure(VaultInvalidAmount))
            else if from !in signers then r == Err(AuthFailure)
            else if id in c.book.token && c.book.token[id] != token then r == Err(VaultFailure(TokenMismatch))
            else if BalanceOf(c.bank, token, from) < amount then r == Err(TokenFailure)
            else
              && r.Ok?
              && Transfer(c.bank, token, from, c.book.self, amount) == Ok(r.value.bank)
              && r.value.book.balance == c.book.balance[id := StreamBalance(c.book, id) + amount]
              && r.value.book.locked == c.book.locked[token := TotalLocked(c.book, token) + amount]
              && r.value.book.token == c.book.token[id := token]
              && r.value.book.log == c.book.log + [Deposited(id, from, token, amount)]
  {
    if amount > 0 && from in signers && (id in c.book.token ==> c.book.token[id] == token) {
      TransferConserves(c.bank, token, from, c.book.self, amount);
      if amount <= BalanceOf(c.bank, token, from) {
        DepositFits(c, from, token, amount, id);
      }
    }
  }

  lemma DepositKeepsSolvent(c: Holdings, signers: set<Address>, from: Address, token: Address, amount: I128, id: U64)
    requires Solvent(c)
    requires c.book.self !in signers
    requires Deposit(c, signers, from, token, amount, id).Ok?
    ensures Solvent(Deposit(c, signers, from, token, amount, id).value)
  {
    var d := Deposit(c, signers, from, token, amount, id).value;
    TransferConserves(c.bank, token, from, c.book.self, amount);
    assert d.book.balance[id] >= 0;
    forall t ensures SolventIn(d, t) {
      assert SolventIn(c, t);
      FundedInUpdate(c.book, id, token, d.book.balance[id], t);
      assert FundedIn(d.book, t) == FundedIn(c.book.(token := d.book.token, balance := d.book.balance), t);
    }
  }

  /** The exact outcome of a payout to an outside account on a solvent vault.
      An id with no recorded token has balance zero, so skipping the token check
      there is harmless; and once the balance suffices nothing later can fail. */
  lemma PayExact(c: Holdings, signers: set<Address>, caller: Address, to: Address, token: Address,
                 amount: I128, id: U64, kind: PayoutKind)
    requires Solvent(c)
    ensures var r := Pay(c, signers, caller, to, token, amount, id, kind);
            if amount <= 0 then r == Err(VaultFailure(VaultInvalidAmount))
            else if c.book.streamContract.None? then r == Err(VaultFailure(VaultNotInitialized))
            else if caller !in signers then r == Err(AuthFailure)
            else if caller != c.book.streamContract.value then r == Err(VaultFailure(VaultUnauthorized))
            else if id in c.book.token && c.book.token[id] != token then r == Err(VaultFailure(TokenMismatch))
            else if StreamBalance(c.book, id) < amount then r == Err(VaultFailure(InsufficientBalance))
            else
              && r.Ok?
              && id in c.book.token
              && Transfer(c.bank, token, c.book.self, to, amount) == Ok(r.value.bank)
              && r.value.book.balance == c.book.balance[id := StreamBalance(c.book, id) - amount]
              && r.value.book.locked == c.book.locked[token := TotalLocked(c.book, token) - amount]
              && r.value.book.token == c.book.token
              && r.value.book.log == c.book.log + [PayoutEvent(kind, id, to, token, amount)]
  {
    if id in c.book.token && c.book.token[id] == token {
      StreamBalanceBelowTotal(c, id);
      assert SolventIn(c, token);
      TransferConserves(c.bank, token, c.book.self, to, amount);
    }
  }

  lemma PayKeepsSolvent(c: Holdings, signers: set<Address>, caller: Address, to: Address, token: Address,
                        amount: I128, id: U64, kind: PayoutKind)
    requires Solvent(c)
    requires to != c.book.self
    requires Pay(c, signers, caller, to, token, amount, id, kind).Ok?
    ensures Solvent(Pay(c, signers, caller, to, token, amount, id, kind).value)
  {
    var d := Pay(c, signers, caller, to, token, amount, id, kind).value;
    PayExact(c, signers, caller, to, token, amount, id, kind);
    StreamBalanceBelowTotal(c, id);
    TransferConserves(c.bank, token, c.book.self, to, amount);
    forall t ensures SolventIn(d, t) {
      assert SolventIn(c, t);
      FundedInUpdate(c.book, id, token, d.book.balance[id], t);
      assert c.book.token[id := token] == c.book.token;
      assert FundedIn(d.book, t) == FundedIn(c.book.(token := c.book.token[id := token], balance := d.book.balance), t);
    }
  }

  /** The checked subtraction alone guards nothing: on books that do not add up a
      payout drives the signed total below zero. Solvency is what rules this out. */
  lemma CheckedSubtractionIsNoGuard(vault: Address, stream: Address, token: Address, to: Address)
    requires to != vault
    ensures var h := Holdings(VaultBook(vault, Some(stream), map[1 := 10], map[1 := token], map[], []),
                              map[token := map[vault := 10]]);
            var r := Pay(h, {stream}, stream, to, token, 10, 1, PayoutKind.Release);
            !Solvent(h) && r.Ok? && TotalLocked(r.value.book, token) == -10
  {
    var h := Holdings(VaultBook(vault, Some(stream), map[1 := 10], map[1 := token], map[], []),
                      map[token := map[vault := 10]]);
    assert !SolventIn(h, token) by {
      assert FundedIn(h.book, token)[1] == 10;
      EntryBelowSum(FundedIn(h.book, token), 1);
    }
  }

  // ----- the vault's event log -----

  /** The books as rebuilt from events alone. */
  datatype Tally = Tally(balance: map<U64, int>, token: map<U64, Address>, locked: map<Address, int>)

  function Credit(tally: Tally, id: U64, token: Address, amount: int): Tally {
    Tally(tally.balance[id := GetOr(tally.balance, id, 0) + amount],
          tally.token[id := token],
          tally.locked[token := GetOr(tally.locked, token, 0) + amount])
  }

  function Apply(tally: Tally, e: VaultEvent): Tally {
    match e
    case Deposited(id, _, token, amount) => Credit(tally, id, token, amount)
    case Released(id, _, token, amount) => Credit(tally, id, token, 0 - amount as int)
    case Refunded(id, _, token, amount) => Credit(tally, id, token, 0 - amount as int)
  }

  function ReplayVault(log: seq<VaultEvent>): Tally {
    if log == [] then Tally(map[], map[], map[])
    else Apply(ReplayVault(log[..|log| - 1]), log[|log| - 1])
  }

  ghost predicate VaultReplayed(v: VaultBook) {
    ReplayVault(v.log) == Tally(v.balance, v.token, v.locked)
  }

  lemma ReplayAppend(log: seq<VaultEvent>, e: VaultEvent)
    ensures ReplayVault(log + [e]) == Apply(ReplayVault(log), e)
  {
    assert (log + [e])[..|log|] == log;
  }

  lemma DepositKeepsReplay(c: Holdings, signers: set<Address>, from: Address, token: Address, amount: I128, id: U64)
    requires VaultReplayed(c.book)
    requires Deposit(c, signers, from, token, amount, id).Ok?
    ensures VaultReplayed(Deposit(c, signers, from, token, amount, id).value.book)
  {
    hide Token.Transfer;
    ReplayAppend(c.book.log, Deposited(id, from, token, amount));
  }

  /** What a payout writes to the books, whatever the solvency of the vault. */
  lemma PayWrites(c: Holdings, signers: set<Address>, caller: Address, to: Address, token: Address,
                  amount: I128, id: U64, kind: PayoutKind)
    requires Pay(c, signers, caller, to, token, amount, id, kind).Ok?
    ensures var v, u := c.book, Pay(c, signers, caller, to, token, amount, id, kind).value.book;
            && u.self == v.self && u.streamContract == v.streamContract
            && amount <= StreamBalance(v, id)
            && (id in v.token ==> v.token[id] == token)
            && u.token == v.token
            && u.log == v.log + [PayoutEvent(kind, id, to, token, amount)]
            && id in u.balance && u.balance[id] == StreamBalance(v, id) - amount
            && u.balance == v.balance[id := u.balance[id]]
            && token in u.locked && u.locked[token] == TotalLocked(v, token) - amount
            && u.locked == v.locked[token := u.locked[token]]
  {
    hide Token.Transfer;
  }

  lemma PayKeepsReplay(c: Holdings, signers: set<Address>, caller: Address, to: Address, token: Address,
                       amount: I128, id: U64, kind: PayoutKind)
    requires VaultReplayed(c.book)
    requires Solvent(c)
    requires Pay(c, signers, caller, to, token, amount, id, kind).Ok?
    ensures VaultReplayed(Pay(c, signers, caller, to, token, amount, id, kind).value.book)
  {
    PayExact(c, signers, caller, to, token, amount, id, kind);
    PayWrites(c, signers, caller, to, token, amount, id, kind);
    hide Solvent, Pay, ReplayVault;
    var v := c.book;
    ReplayAppend(v.log, PayoutEvent(kind, id, to, token, amount));
    assert v.token[id := token] == v.token;
  }
}
