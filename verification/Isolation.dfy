/** What one payout or creation leaves untouched. */
module Isolation {
  import opened Soroban
  import opened Accrual
  import opened Custody
  import opened Protocol
  import opened Invariants
  import Token

  /** `w2` is `w` after `amount` of the token of `id` went from the vault to
      `payee`: no other stream's record, balance or token, no other token's total,
      and no other account's balance has moved. */
  ghost predicate PaidOnly(w: World, w2: World, id: U64, payee: Address, amount: int)
    requires id in w.book.streams
  {
    var token := w.book.streams[id].token;
    && (forall i: U64 :: i != id ==>
          && (i in w2.book.streams <==> i in w.book.streams)
          && (i in w.book.streams ==> w2.book.streams[i] == w.book.streams[i])
          && StreamBalance(w2.holdings.book, i) == StreamBalance(w.holdings.book, i))
    && StreamBalance(w2.holdings.book, id) == StreamBalance(w.holdings.book, id) - amount
    && w2.holdings.book.token == w.holdings.book.token
    && (forall t :: TotalLocked(w2.holdings.book, t)
                 == TotalLocked(w.holdings.book, t) - if t == token then amount else 0)
    && forall t, a :: Token.BalanceOf(w2.holdings.bank, t, a)
                   == Token.BalanceOf(w.holdings.bank, t, a)
                      + Token.Moved(token, w.holdings.book.self, payee, amount, t, a)
  }

  lemma PayMoves(h: Holdings, signers: set<Address>, caller: Address, to: Address, token: Address,
                 amount: I128, id: U64, kind: PayoutKind)
    requires Solvent(h)
    requires Pay(h, signers, caller, to, token, amount, id, kind).Ok?
    ensures var h2 := Pay(h, signers, caller, to, token, amount, id, kind).value;
            && h2.book.token == h.book.token
            && h2.book.balance == h.book.balance[id := h2.book.balance[id]]
            && StreamBalance(h2.book, id) == StreamBalance(h.book, id) - amount
            && (forall t :: TotalLocked(h2.book, t) == TotalLocked(h.book, t) - if t == token then amount else 0)
            && forall t, a :: Token.BalanceOf(h2.bank, t, a) == Token.BalanceOf(h.bank, t, a)
                                                         + Token.Moved(token, h.book.self, to, amount, t, a)
  {
    hide Token.Transfer, SolventIn, Token.BalanceOf;
    Token.TransferConserves(h.bank, token, h.book.self, to, amount);
  }

  /** A withdrawal moves exactly its amount, from the vault to the recipient. */
  lemma WithdrawIsolated(w: World, signers: set<Address>, recipient: Address, id: U64, amount: I128)
    requires Inv(w)
    requires Withdraw(w, signers, recipient, id, amount).Ok?
    ensures id in w.book.streams
    ensures PaidOnly(w, Withdraw(w, signers, recipient, id, amount).value.world, id, recipient, amount)
  {
    hide Solvent, Indexed, VaultReplayed, Replay, Backed, Entitlement, Overflows;
    hide WithdrawableAmount, Pay, Token.Moved, Token.BalanceOf;
    PayMoves(w.holdings, signers + {w.book.self}, w.book.self, recipient, w.book.streams[id].token, amount, id,
             PayoutKind.Release);
  }

  /** A cancel moves exactly the remainder, from the vault to the sender. */
  lemma CancelIsolated(w: World, signers: set<Address>, sender: Address, id: U64)
    requires Inv(w)
    requires CancelStream(w, signers, sender, id).Ok?
    ensures id in w.book.streams
    ensures var w2 := CancelStream(w, signers, sender, id).value.world;
            && id in w2.book.streams && Scheduled(w2.book.streams[id])
            && PaidOnly(w, w2, id, sender, w.book.streams[id].totalAmount - Streamed(w2.book.streams[id], w.now))
  {
    hide Solvent, Indexed, VaultReplayed, Backed, StreamedAmount, Pay, Token.Moved, Overflows, Accrued, ApplyEntry;
    CancelPays(w, signers, sender, id);
    var w2 := CancelStream(w, signers, sender, id).value.world;
    var s, f := w.book.streams[id], w2.book.streams[id];
    StreamedIsExact(f, w.now);
    PayMoves(w.holdings, signers + {w.book.self}, w.book.self, sender, s.token,
             s.totalAmount - Streamed(f, w.now), id, PayoutKind.Refund);
  }

  /** Creating a stream moves exactly the deposit, from the sender to the vault,
      and touches no other stream's books. */
  lemma CreateIsolated(w: World, signers: set<Address>, terms: Terms)
    requires Inv(w)
    requires CreateStream(w, signers, terms).Ok?
    ensures var w2, id := CreateStream(w, signers, terms).value.world, w.book.lastId + 1;
            && (forall i: U64 :: i != id ==>
                  && (i in w2.book.streams <==> i in w.book.streams)
                  && (i in w.book.streams ==> w2.book.streams[i] == w.book.streams[i])
                  && StreamBalance(w2.holdings.book, i) == StreamBalance(w.holdings.book, i))
            && StreamBalance(w2.holdings.book, id) == StreamBalance(w.holdings.book, id) + terms.totalAmount
            && (forall t, a :: Token.BalanceOf(w2.holdings.bank, t, a)
                            == Token.BalanceOf(w.holdings.bank, t, a)
                               + Token.Moved(terms.token, terms.sender, w.holdings.book.self, terms.totalAmount, t, a))
  {
    hide SolventIn, Indexed, Token.Transfer, Token.BalanceOf, Token.Moved, StreamsOk, Backed;
    CreateShape(w, signers, terms);
    Token.TransferConserves(w.holdings.bank, terms.token, terms.sender, w.holdings.book.self, terms.totalAmount);
  }
}
