/** The vault contract: storage entries updated step by step, proved against
    the effects stated in `Custody`. A failing call may leave writes behind;
    the host discards them (see `Host`). */
module Vault {
  import opened Soroban
  import opened TokenContracts
  import Custody
  import Token

  class VaultContract {
    const self: Address
    const tokens: TokenLedger
    var streamContract: Option<Address>
    var balance: map<U64, I128>
    var token: map<U64, Address>
    var locked: map<Address, I128>
    var log: seq<Custody.VaultEvent>

    function Book(): Custody.VaultBook
      reads this
    {
      Custody.VaultBook(self, streamContract, balance, token, locked, log)
    }

    function Holdings(): Custody.Holdings
      reads this, tokens
    {
      Custody.Holdings(Book(), tokens.bank)
    }

    constructor (holdings: Custody.Holdings, tokens: TokenLedger)
      requires tokens.bank == holdings.bank
      ensures this.tokens == tokens
      ensures Holdings() == holdings
    {
      var book := holdings.book;
      self, this.tokens := book.self, tokens;
      streamContract, balance, token := book.streamContract, book.balance, book.token;
      locked, log := book.locked, book.log;
    }

    /** Puts the entries back as they were when a call began. */
    method Restore(book: Custody.VaultBook)
      requires book.self == self
      modifies this
      ensures Book() == book
    {
      streamContract, balance, token := book.streamContract, book.balance, book.token;
      locked, log := book.locked, book.log;
    }

    function GetStreamBalance(id: U64): I128
      reads this
    {
      GetOr(balance, id, 0)
    }

    function GetStreamToken(id: U64): Option<Address>
      reads this
    {
      Lookup(token, id)
    }

    function GetTotalLocked(token: Address): I128
      reads this
    {
      GetOr(locked, token, 0)
    }

    method Deposit(signers: set<Address>, from: Address, token: Address, amount: I128, id: U64)
      returns (r: Outcome<Unit>)
      modifies this, tokens
      ensures match Custody.Deposit(old(Holdings()), signers, from, token, amount, id)
              case Ok(h) => r == Ok(Unit) && Holdings() == h
              case Err(e) => r == Err(e)
    {
      hide Token.Transfer;
      if amount <= 0 {
        return Err(VaultFailure(VaultInvalidAmount));
      }
      if from !in signers {
        return Err(AuthFailure);
      }
      var existingToken := GetStreamToken(id);
      if existingToken.Some? {
        if existingToken.value != token {
          return Err(VaultFailure(TokenMismatch));
        }
      } else {
        this.token := this.token[id := token];
      }

      var transfer := tokens.Transfer(token, from, self, amount);
      if transfer.Err? {
        return Err(transfer.error);
      }

      var newBalance := Checked(GetStreamBalance(id) + amount, VaultFailure(VaultMathOverflow));
      if newBalance.Err? {
        return Err(newBalance.error);
      }
      balance := balance[id := newBalance.value];

      var newTotal := Checked(GetTotalLocked(token) + amount, VaultFailure(VaultMathOverflow));
      if newTotal.Err? {
        return Err(newTotal.error);
      }
      locked := locked[token := newTotal.value];

      log := log + [Custody.Deposited(id, from, token, amount)];
      assert this.token == old(this.token)[id := token];
      return Ok(Unit);
    }

    method AuthorizeAndPay(signers: set<Address>, caller: Address, to: Address, token: Address,
                           amount: I128, id: U64, kind: Custody.PayoutKind)
      returns (r: Outcome<Unit>)
      modifies this, tokens
      ensures match Custody.Pay(old(Holdings()), signers, caller, to, token, amount, id, kind)
              case Ok(h) => r == Ok(Unit) && Holdings() == h
              case Err(e) => r == Err(e)
    {
      hide Token.Transfer;
      if amount <= 0 {
        return Err(VaultFailure(VaultInvalidAmount));
      }
      if streamContract.None? {
        return Err(VaultFailure(VaultNotInitialized));
      }
      if caller !in signers {
        return Err(AuthFailure);
      }
      if caller != streamContract.value {
        return Err(VaultFailure(VaultUnauthorized));
      }
      var existingToken := GetStreamToken(id);
      if existingToken.Some? && existingToken.value != token {
        return Err(VaultFailure(TokenMismatch));
      }

      var currentBalance := GetStreamBalance(id);
      if currentBalance < amount {
        return Err(VaultFailure(InsufficientBalance));
      }
      var newBalance := Checked(currentBalance - amount, VaultFailure(VaultMathOverflow));
      if newBalance.Err? {
        return Err(VaultFailure(VaultMathOverflow));
      }
      balance := balance[id := newBalance.value];

      var newTotal := Checked(GetTotalLocked(token) - amount, VaultFailure(VaultMathOverflow));
      if newTotal.Err? {
        return Err(newTotal.error);
      }
      locked := locked[token := newTotal.value];

      var transfer := tokens.Transfer(token, self, to, amount);
      if transfer.Err? {
        return Err(transfer.error);
      }
      log := log + [Custody.PayoutEvent(kind, id, to, token, amount)];
      return Ok(Unit);
    }

    method Release(signers: set<Address>, caller: Address, to: Address, token: Address, amount: I128, id: U64)
      returns (r: Outcome<Unit>)
      modifies this, tokens
      ensures match Custody.Pay(old(Holdings()), signers, caller, to, token, amount, id, Custody.Release)
              case Ok(h) => r == Ok(Unit) && Holdings() == h
              case Err(e) => r == Err(e)
    {
      r := AuthorizeAndPay(signers, caller, to, token, amount, id, Custody.Release);
    }

    method Refund(signers: set<Address>, caller: Address, to: Address, token: Address, amount: I128, id: U64)
      returns (r: Outcome<Unit>)
      modifies this, tokens
      ensures match Custody.Pay(old(Holdings()), signers, caller, to, token, amount, id, Custody.Refund)
              case Ok(h) => r == Ok(Unit) && Holdings() == h
              case Err(e) => r == Err(e)
    {
      r := AuthorizeAndPay(signers, caller, to, token, amount, id, Custody.Refund);
    }
  }
}
