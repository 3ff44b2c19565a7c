/** An honest SEP-41 token ledger: `transfer` moves exactly `amount` or traps. */
module Token {
  import opened Soroban
  import opened Sums

  type Bank = map<Address, map<Address, I128>>

  function Holders(bank: Bank, token: Address): map<Address, I128> {
    GetOr(bank, token, map[])
  }

  function BalanceOf(bank: Bank, token: Address, holder: Address): I128 {
    GetOr(Holders(bank, token), holder, 0)
  }

  function SetBalance(bank: Bank, token: Address, holder: Address, amount: I128): Bank {
    bank[token := Holders(bank, token)[holder := amount]]
  }

  function Transfer(bank: Bank, token: Address, from: Address, to: Address, amount: I128): Outcome<Bank> {
    var funds := BalanceOf(bank, token, from);
    :- Check(0 <= amount <= funds, TokenFailure);
    var debited := SetBalance(bank, token, from, funds - amount);
    var credit :- Checked(BalanceOf(debited, token, to) + amount, TokenFailure);
    Ok(SetBalance(debited, token, to, credit))
  }

  ghost function Supply(bank: Bank, token: Address): int {
    Sum(Holders(bank, token))
  }

  ghost predicate HonestToken(bank: Bank, token: Address) {
    && (forall a :: a in Holders(bank, token) ==> Holders(bank, token)[a] >= 0)
    && Supply(bank, token) <= I128_MAX
  }

  ghost predicate Honest(bank: Bank) {
    forall t :: HonestToken(bank, t)
  }

  lemma HoldingsFit(bank: Bank, token: Address, a: Address, b: Address)
    requires Honest(bank)
    requires a != b
    ensures 0 <= BalanceOf(bank, token, a)
    ensures 0 <= BalanceOf(bank, token, b)
    ensures BalanceOf(bank, token, a) + BalanceOf(bank, token, b) <= Supply(bank, token) <= I128_MAX
  {
    assert HonestToken(bank, token);
    EntryBelowSum(Holders(bank, token), a);
    EntryBelowSum(Holders(bank, token), b);
    TwoEntriesBelowSum(Holders(bank, token), a, b);
  }

  /** Writing one balance moves that token's supply by the change and touches nothing else. */
  lemma WriteBalance(bank: Bank, token: Address, holder: Address, amount: I128, t: Address, a: Address)
    ensures var b := SetBalance(bank, token, holder, amount);
            && BalanceOf(b, t, a) == (if t == token && a == holder then amount else BalanceOf(bank, t, a))
            && Supply(b, t) == Supply(bank, t) + if t == token then amount - BalanceOf(bank, token, holder) else 0
  {
    SumUpdate(Holders(bank, token), holder, amount);
  }

  /** What a transfer does to the balance of `a` in token `t`. */
  function Moved(token: Address, from: Address, to: Address, amount: int, t: Address, a: Address): int {
    (if t == token && a == to then amount else 0) - (if t == token && a == from then amount else 0)
  }

  /** Given the funds, the payee's new balance always fits. */
  lemma TransferSucceeds(bank: Bank, token: Address, from: Address, to: Address, amount: I128)
    requires Honest(bank)
    requires 0 <= amount <= BalanceOf(bank, token, from)
    ensures Transfer(bank, token, from, to, amount).Ok?
  {
    if from != to {
      HoldingsFit(bank, token, from, to);
      WriteBalance(bank, token, from, BalanceOf(bank, token, from) - amount, token, to);
    }
  }

  lemma TransferMoves(bank: Bank, token: Address, from: Address, to: Address, amount: I128, t: Address, a: Address)
    requires Transfer(bank, token, from, to, amount).Ok?
    ensures var b := Transfer(bank, token, from, to, amount).value;
            && BalanceOf(b, t, a) == BalanceOf(bank, t, a) + Moved(token, from, to, amount, t, a)
            && Supply(b, t) == Supply(bank, t)
  {
    var debit := BalanceOf(bank, token, from) - amount;
    var debited := SetBalance(bank, token, from, debit);
    WriteBalance(bank, token, from, debit, t, a);
    WriteBalance(bank, token, from, debit, token, to);
    WriteBalance(debited, token, to, BalanceOf(debited, token, to) + amount, t, a);
  }

  lemma TransferKeepsHonest(bank: Bank, token: Address, from: Address, to: Address, amount: I128)
    requires Honest(bank)
    requires Transfer(bank, token, from, to, amount).Ok?
    ensures Honest(Transfer(bank, token, from, to, amount).value)
  {
    var b := Transfer(bank, token, from, to, amount).value;
    forall t ensures HonestToken(b, t) {
      assert HonestToken(bank, t);
      TransferMoves(bank, token, from, to, amount, t, from);
      forall a | a in Holders(b, t) ensures Holders(b, t)[a] >= 0 {
        TransferMoves(bank, token, from, to, amount, t, a);
        assert Holders(b, t)[a] == BalanceOf(b, t, a);
        assert BalanceOf(bank, t, a) >= 0;
      }
    }
  }

  /** A transfer succeeds exactly when the payer holds the amount; it then moves
      that amount and nothing else, creates and destroys nothing, and never
      overflows the payee. A self-transfer changes no balance. */
  lemma TransferConserves(bank: Bank, token: Address, from: Address, to: Address, amount: I128)
    requires Honest(bank)
    ensures var r := Transfer(bank, token, from, to, amount);
            if 0 <= amount <= BalanceOf(bank, token, from) then
              && r.Ok?
              && Honest(r.value)
              && (forall t :: Supply(r.value, t) == Supply(bank, t))
              && (forall t, a :: BalanceOf(r.value, t, a)
                              == BalanceOf(bank, t, a) + Moved(token, from, to, amount, t, a))
            else r == Err(TokenFailure)
  {
    if 0 <= amount <= BalanceOf(bank, token, from) {
      TransferSucceeds(bank, token, from, to, amount);
      TransferKeepsHonest(bank, token, from, to, amount);
      forall t, a {
        TransferMoves(bank, token, from, to, amount, t, a);
      }
      forall t {
        TransferMoves(bank, token, from, to, amount, t, from);
      }
    }
  }
}

/** The token contracts, each with its own balances, as one mutable ledger. */
module TokenContracts {
  import opened Soroban
  import Token

  class TokenLedger {
    var bank: Token.Bank

    constructor (bank: Token.Bank)
      ensures this.bank == bank
    {
      this.bank := bank;
    }

    method Transfer(token: Address, from: Address, to: Address, amount: I128) returns (r: Outcome<Unit>)
      modifies this
      ensures match Token.Transfer(old(bank), token, from, to, amount)
              case Ok(b) => r == Ok(Unit) && bank == b
              case Err(e) => r == Err(e)
    {
      if !(0 <= amount <= Token.BalanceOf(bank, token, from)) {
        return Err(TokenFailure);
      }
      bank := Token.SetBalance(bank, token, from, Token.BalanceOf(bank, token, from) - amount);
      var credit := Checked(Token.BalanceOf(bank, token, to) + amount, TokenFailure);
      if credit.Err? {
        return Err(credit.error);
      }
      bank := Token.SetBalance(bank, token, to, credit.value);
      return Ok(Unit);
    }
  }
}
