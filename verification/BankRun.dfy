/** Everyone withdrawing at once: who is paid, how much, and what is left. */
module BankRun {
  import opened Soroban
  import opened Accrual
  import opened Custody
  import opened Protocol
  import opened Invariants
  import opened Runs
  import opened Isolation
  import opened Evolution
  import Token

  /** The stream's accrual is computable now and its recipient can sign. */
  ghost predicate Payable(w: World, id: U64)
    requires id in w.book.streams
  {
    var s := w.book.streams[id];
    && (StopLedger(s, w.now) < s.cliffLedger || !Overflows(s, w.now))
    && Outside(w, {s.recipient})
  }

  function DrainOp(w: World, id: U64): Op
    requires id in w.book.streams
  {
    var recipient := w.book.streams[id].recipient;
    Submit({recipient}, CallWithdrawMax(recipient, id))
  }

  /** The recipients of `order` each call `withdraw_max`, in that order. */
  function DrainOps(w: World, order: seq<U64>): seq<Op>
    requires forall id :: id in order ==> id in w.book.streams
  {
    if order == [] then []
    else DrainOps(w, order[..|order| - 1]) + [DrainOp(w, order[|order| - 1])]
  }

  /** What the recipient of a stream is due now. */
  function Due(w: World, id: U64): int
    requires id in w.book.streams && Scheduled(w.book.streams[id])
  {
    Entitlement(w.book.streams[id], w.now) - w.book.streams[id].withdrawn
  }

  /** What paying out everything due on `order` does to the balance of `a` in token `t`. */
  function DueMoves(w: World, order: seq<U64>, t: Address, a: Address): int
    requires forall id :: id in order ==> id in w.book.streams && Scheduled(w.book.streams[id])
  {
    if order == [] then 0
    else
      var id := order[|order| - 1];
      var s := w.book.streams[id];
      DueMoves(w, order[..|order| - 1], t, a)
      + Token.Moved(s.token, w.holdings.book.self, s.recipient, Due(w, id), t, a)
  }

  /** `w2` is `w` with the streams of `drained` withdrawn to their entitlement and paid. */
  ghost predicate DrainedExactly(w: World, w2: World, drained: seq<U64>)
    requires forall id :: id in drained ==> id in w.book.streams
  {
    && w2.now == w.now
    && w2.book.self == w.book.self
    && w2.holdings.book.self == w.holdings.book.self
    && w2.book.streams.Keys == w.book.streams.Keys
    && (forall id :: id in w.book.streams ==>
          var s := w.book.streams[id];
          && Scheduled(s)
          && WithdrawnUpTo(s, w2.book.streams[id], if id in drained then Entitlement(s, w.now) else s.withdrawn))
    && forall t, a :: Token.BalanceOf(w2.holdings.bank, t, a)
                   == Token.BalanceOf(w.holdings.bank, t, a) + DueMoves(w, drained, t, a)
  }

  /** `id`'s recipient asks next: the answer and the tokens that move are what was due. */
  ghost predicate PaysDue(w: World, before: World, id: U64)
    requires id in w.book.streams && Scheduled(w.book.streams[id])
  {
    var op := DrainOp(w, id);
    var answer := Answer(before, op);
    && answer.Ok? && answer.value.Amount?
    && answer.value.amount == Due(w, id)
    && id in before.book.streams
    && before.book.streams[id].token == w.book.streams[id].token
    && PaidOnly(before, Step(before, op), id, w.book.streams[id].recipient, Due(w, id))
  }

  lemma DrainPays(w: World, before: World, drained: seq<U64>, id: U64)
    requires Inv(before)
    requires forall i :: i in drained ==> i in w.book.streams
    requires id in w.book.streams && id !in drained
    requires DrainedExactly(w, before, drained)
    requires Payable(w, id)
    ensures id in before.book.streams && Scheduled(w.book.streams[id])
    ensures DrainsTo(before, id, Entitlement(w.book.streams[id], w.now))
    ensures PaysDue(w, before, id)
  {
    hide Inv, Step, Answer, Token.BalanceOf, DueMoves, PaidOnly;
    assert before.book.streams[id] == w.book.streams[id];
    WithdrawMaxDrains(before, id);
  }

  lemma DrainAdvances(w: World, before: World, drained: seq<U64>, id: U64)
    requires forall i :: i in drained ==> i in w.book.streams
    requires id in w.book.streams && id !in drained
    requires DrainedExactly(w, before, drained)
    requires id in before.book.streams && Scheduled(w.book.streams[id])
    requires DrainsTo(before, id, Entitlement(w.book.streams[id], w.now))
    ensures DrainedExactly(w, Step(before, DrainOp(w, id)), drained + [id])
  {
    hide Step, Answer, Token.BalanceOf, Token.Moved, Entitlement, Scheduled;
    assert (drained + [id])[..|drained|] == drained;
  }

  lemma DrainOne(w: World, before: World, drained: seq<U64>, id: U64)
    requires Inv(before)
    requires forall i :: i in drained ==> i in w.book.streams
    requires id in w.book.streams && id !in drained
    requires DrainedExactly(w, before, drained)
    requires Payable(w, id)
    ensures Scheduled(w.book.streams[id]) && PaysDue(w, before, id)
    ensures Inv(Step(before, DrainOp(w, id)))
    ensures DrainedExactly(w, Step(before, DrainOp(w, id)), drained + [id])
    ensures forall i: U64 :: Slack(Step(before, DrainOp(w, id)), i) == Slack(before, i)
  {
    hide Inv, Step, Slack, DrainedExactly, PaysDue, DrainsTo, Payable;
    DrainPays(w, before, drained, id);
    DrainAdvances(w, before, drained, id);
    StepKeeps(before, DrainOp(w, id));
  }

  ghost predicate Drained(w: World, order: seq<U64>)
    requires forall id :: id in order ==> id in w.book.streams
  {
    var w2 := Run(w, DrainOps(w, order));
    && Inv(w2)
    && DrainedExactly(w, w2, order)
    && forall i: U64 :: Slack(w2, i) == Slack(w, i)
  }

  lemma DrainOpsStep(w: World, order: seq<U64>)
    requires order != []
    requires forall id :: id in order ==> id in w.book.streams
    ensures Run(w, DrainOps(w, order))
         == Step(Run(w, DrainOps(w, order[..|order| - 1])), DrainOp(w, order[|order| - 1]))
  {
    hide Step;
    var ops := DrainOps(w, order);
    assert ops[..|ops| - 1] == DrainOps(w, order[..|order| - 1]);
  }

  lemma NothingDrained(w: World)
    requires Inv(w)
    ensures Drained(w, [])
  {
    hide Solvent, Indexed;
  }

  lemma DrainNext(w: World, order: seq<U64>)
    requires order != [] && Distinct(order)
    requires forall id :: id in order ==> id in w.book.streams
    requires Payable(w, order[|order| - 1])
    requires Drained(w, order[..|order| - 1])
    ensures Drained(w, order)
  {
    hide Inv, DrainedExactly, DrainOps, Payable, Slack, Step;
    var shorter, id := order[..|order| - 1], order[|order| - 1];
    DrainOne(w, Run(w, DrainOps(w, shorter)), shorter, id);
    assert shorter + [id] == order;
    DrainOpsStep(w, order);
  }

  lemma {:induction false} DrainAll(w: World, order: seq<U64>)
    requires Inv(w)
    requires Distinct(order)
    requires forall id :: id in order ==> id in w.book.streams && Payable(w, id)
    ensures Drained(w, order)
  {
    hide Inv, Drained, Payable, Slack;
    if order == [] {
      NothingDrained(w);
    } else {
      DrainAll(w, order[..|order| - 1]);
      DrainNext(w, order);
    }
  }

  /** BANK RUN. In a reachable state, let the recipients of any streams whose
      accrual is computable call `withdraw_max` in any order: every call succeeds,
      answers exactly the entitlement less prior withdrawals, and moves just that
      from the vault to that recipient. */
  lemma BankRunPays(w: World, order: seq<U64>, k: nat)
    requires Inv(w)
    requires Distinct(order)
    requires forall id :: id in order ==> id in w.book.streams && Payable(w, id)
    requires k < |order|
    ensures Scheduled(w.book.streams[order[k]])
    ensures PaysDue(w, Run(w, DrainOps(w, order[..k])), order[k])
  {
    hide Solvent, Indexed, Run, Step, Answer, Payable, Slack, PaysDue, DrainedExactly;
    DrainAll(w, order[..k]);
    DrainOne(w, Run(w, DrainOps(w, order[..k])), order[..k], order[k]);
  }

  /** After it every account of every token holds what it held before, plus all
      that was due to it, the vault less all that was due from it. */
  lemma BankRunBalances(w: World, order: seq<U64>, t: Address, a: Address)
    requires Inv(w)
    requires Distinct(order)
    requires forall id :: id in order ==> id in w.book.streams && Payable(w, id)
    ensures forall id :: id in order ==> Scheduled(w.book.streams[id])
    ensures Token.BalanceOf(Run(w, DrainOps(w, order)).holdings.bank, t, a)
         == Token.BalanceOf(w.holdings.bank, t, a) + DueMoves(w, order, t, a)
  {
    hide Solvent, Indexed, Run, Payable, Slack, Token.BalanceOf;
    DrainAll(w, order);
  }

  lemma DrainedOwesNothing(s: Stream, s2: Stream, now: U32)
    requires Scheduled(s)
    requires s.status == Status.Cancelled || now >= s.endLedger
    requires WithdrawnUpTo(s, s2, Entitlement(s, now))
    ensures Scheduled(s2) && Owed(s2) == 0
  {
    AccruedBounds(s, StopLedger(s, now));
    EntitlementBounds(s, now);
  }

  /** NO DUST. After any run, whatever other streams there are, once the recipient
      of an ended or cancelled stream has taken part in a bank run nothing is owed
      on it: its vault balance is down to what outsiders donated to it. */
  lemma BankRunLeavesNoDust(start: World, ops: seq<Op>, order: seq<U64>, id: U64)
    requires Initial(start)
    requires Distinct(order)
    requires forall i :: i in order ==> i in Run(start, ops).book.streams && Payable(Run(start, ops), i)
    requires id in order
    requires var w := Run(start, ops);
             w.book.streams[id].status == Status.Cancelled || w.now >= w.book.streams[id].endLedger
    ensures var w := Run(start, ops);
            var w2 := Run(w, DrainOps(w, order));
            && id in w2.book.streams
            && Scheduled(w2.book.streams[id])
            && Owed(w2.book.streams[id]) == 0
            && StreamBalance(w2.holdings.book, id) == Donated(start, ops, id)
  {
    hide Solvent, Indexed, Run, Initial, Payable, DrainOps, DueMoves;
    var w := Run(start, ops);
    InitialInv(start);
    RunKeeps(start, ops);
    DrainAll(w, order);
    DrainedOwesNothing(w.book.streams[id], Run(w, DrainOps(w, order)).book.streams[id], w.now);
  }

  /** In particular, where every stream passed the guard, names outside parties and
      ended or was cancelled, a bank run over all of them settles the whole table. */
  lemma BankRunSettlesAll(start: World, ops: seq<Op>, order: seq<U64>)
    requires Initial(start)
    requires Distinct(order)
    requires forall i :: i in order <==> i in Run(start, ops).book.streams
    requires forall i :: i in order ==>
               var w := Run(start, ops);
               var s := w.book.streams[i];
               && NeverOverflows(s)
               && Outside(w, {s.recipient})
               && (s.status == Status.Cancelled || w.now >= s.endLedger)
    ensures var w := Run(start, ops);
            var w2 := Run(w, DrainOps(w, order));
            && w2.book.streams.Keys == w.book.streams.Keys
            && forall id :: id in w2.book.streams ==>
                 && Scheduled(w2.book.streams[id])
                 && Owed(w2.book.streams[id]) == 0
                 && StreamBalance(w2.holdings.book, id) == Donated(start, ops, id)
  {
    hide Run, Initial, DrainOps, DueMoves, Solvent, Indexed, NeverOverflows, Overflows;
    var w := Run(start, ops);
    InitialInv(start);
    RunKeeps(start, ops);
    forall i | i in order ensures Payable(w, i) {
      GuardedNeverOverflows(w.book.streams[i], w.now);
    }
    DrainAll(w, order);
    forall id | id in w.book.streams
      ensures var s2 := Run(w, DrainOps(w, order)).book.streams[id];
              Scheduled(s2) && Owed(s2) == 0
              && StreamBalance(Run(w, DrainOps(w, order)).holdings.book, id) == Donated(start, ops, id)
    {
      BankRunLeavesNoDust(start, ops, order, id);
    }
  }
}
