/** Backing, solvency and conservation over every run of the system. */
module Runs {
  import opened Soroban
  import opened Accrual
  import opened Custody
  import opened Protocol
  import opened Invariants
  import Token

  /** What a step adds to the backing of `id` from outside the protocol. */
  function Donation(w: World, op: Op, id: U64): int {
    match op
    case Submit(_, CallDeposit(_, _, amount, target)) => if target == id && Attempt(w, op).Ok? then amount else 0
    case _ => 0
  }

  /** Everything donated to `id` along a run. */
  function Donated(w: World, ops: seq<Op>, id: U64): int {
    if ops == [] then 0
    else
      var before := ops[..|ops| - 1];
      Donated(w, before, id) + Donation(Run(w, before), ops[|ops| - 1], id)
  }

  lemma WithdrawMaxCases(w: World, signers: set<Address>, recipient: Address, id: U64)
    requires WithdrawMax(w, signers, recipient, id).Ok?
    ensures var r := WithdrawMax(w, signers, recipient, id).value;
            && r.reply.Amount?
            && WithdrawableAmount(w.book.streams[id], w.now) == Ok(r.reply.amount)
            && if r.reply.amount == 0 then r.world == w
               else
                 && Withdraw(w, signers, recipient, id, r.reply.amount).Ok?
                 && Withdraw(w, signers, recipient, id, r.reply.amount).value.world == r.world
  {
    hide Withdraw, WithdrawableAmount;
  }

  lemma InvWired(w: World)
    requires Inv(w)
    ensures Wired(w)
  {
  }

  /** Every call keeps the invariant, and shifts the backing of each id by the
      donation it makes and nothing else. */
  lemma PerformKeeps(w: World, signers: set<Address>, call: Call)
    requires Inv(w) && Outside(w, signers)
    requires Perform(w, signers, call).Ok?
    ensures var w2 := Perform(w, signers, call).value.world;
            && Inv(w2)
            && forall id: U64 :: Slack(w2, id) ==
                 Slack(w, id) + if call.CallDeposit? && call.id == id then call.amount else 0
  {
    hide Inv, CreateStream, Withdraw, WithdrawMax, CancelStream, SetPaused, Deposit, Pay, Token.Transfer, Slack;
    match call
    case CallCreateStream(terms) => CreateKeeps(w, signers, terms);
    case CallWithdraw(recipient, id, amount) => WithdrawKeeps(w, signers, recipient, id, amount);
    case CallWithdrawMax(recipient, id) =>
      WithdrawMaxCases(w, signers, recipient, id);
      var amount := WithdrawMax(w, signers, recipient, id).value.reply.amount;
      if amount != 0 {
        WithdrawKeeps(w, signers, recipient, id, amount);
      }
    case CallCancelStream(sender, id) => CancelKeeps(w, signers, sender, id);
    case CallPause => PauseKeeps(w, signers, true);
    case CallUnpause => PauseKeeps(w, signers, false);
    case CallDeposit(from, token, amount, id) => DonateKeeps(w, signers, from, token, amount, id);
    case CallRelease(caller, to, token, amount, id) =>
      InvWired(w);
      OnlyTheStreamContractPays(w, signers, caller, to, token, amount, id, PayoutKind.Release);
    case CallRefund(caller, to, token, amount, id) =>
      InvWired(w);
      OnlyTheStreamContractPays(w, signers, caller, to, token, amount, id, PayoutKind.Refund);
    case CallTransfer(token, from, to, amount) => TransferKeeps(w, signers, token, from, to, amount);
  }

  lemma StepKeeps(w: World, op: Op)
    requires Inv(w)
    ensures var w2 := Step(w, op);
            Inv(w2) && forall id: U64 :: Slack(w2, id) == Slack(w, id) + Donation(w, op, id)
  {
    hide Inv, Perform, Slack;
    match op
    case Advance(to) => AdvanceKeeps(w, Max(w.now, to));
    case Submit(signers, call) =>
      if Attempt(w, op).Ok? {
        PerformKeeps(w, Principals(w, signers), call);
      }
  }

  // ----- what no step changes -----

  /** Who is who never changes, a recorded token stays, and ids only count up. */
  ghost predicate Persists(w: World, w2: World) {
    && w2.book.self == w.book.self
    && w2.book.admin == w.book.admin
    && w2.book.vault == w.book.vault
    && w2.holdings.book.self == w.holdings.book.self
    && w2.holdings.book.streamContract == w.holdings.book.streamContract
    && w.book.lastId <= w2.book.lastId
    && forall id: U64 :: id in w.holdings.book.token ==>
         id in w2.holdings.book.token && w2.holdings.book.token[id] == w.holdings.book.token[id]
  }

  lemma WithdrawPersists(w: World, signers: set<Address>, recipient: Address, id: U64, amount: I128)
    requires Withdraw(w, signers, recipient, id, amount).Ok?
    ensures var w2 := Withdraw(w, signers, recipient, id, amount).value.world;
            Persists(w, w2) && w2.book.lastId == w.book.lastId
  {
    hide Pay, WithdrawableAmount;
    PayWrites(w.holdings, signers + {w.book.self}, w.book.self, recipient, w.book.streams[id].token, amount, id,
              PayoutKind.Release);
  }

  lemma CancelPersists(w: World, signers: set<Address>, sender: Address, id: U64)
    requires CancelStream(w, signers, sender, id).Ok?
    ensures var w2 := CancelStream(w, signers, sender, id).value.world;
            Persists(w, w2) && w2.book.lastId == w.book.lastId
  {
    hide Pay, StreamedAmount;
    var s := w.book.streams[id];
    var f := s.(status := Status.Cancelled, cancelledAt := w.now);
    var remainder := s.totalAmount - StreamedAmount(f, w.now).value;
    if remainder > 0 {
      PayWrites(w.holdings, signers + {w.book.self}, w.book.self, sender, s.token, remainder, id, PayoutKind.Refund);
    }
  }

  lemma PerformPersists(w: World, signers: set<Address>, call: Call)
    requires Perform(w, signers, call).Ok?
    ensures var w2 := Perform(w, signers, call).value.world;
            && Persists(w, w2)
            && w2.book.lastId == w.book.lastId + if call.CallCreateStream? then 1 else 0
  {
    hide CreateStream, Withdraw, WithdrawMax, CancelStream, Pay, Token.Transfer;
    match call
    case CallCreateStream(terms) => CreateShape(w, signers, terms);
    case CallWithdraw(recipient, id, amount) => WithdrawPersists(w, signers, recipient, id, amount);
    case CallWithdrawMax(recipient, id) =>
      WithdrawMaxCases(w, signers, recipient, id);
      var amount := WithdrawMax(w, signers, recipient, id).value.reply.amount;
      if amount != 0 {
        WithdrawPersists(w, signers, recipient, id, amount);
      }
    case CallCancelStream(sender, id) => CancelPersists(w, signers, sender, id);
    case CallRelease(caller, to, token, amount, id) =>
      PayWrites(w.holdings, signers, caller, to, token, amount, id, PayoutKind.Release);
    case CallRefund(caller, to, token, amount, id) =>
      PayWrites(w.holdings, signers, caller, to, token, amount, id, PayoutKind.Refund);
    case _ =>
  }

  /** A step allocates an id exactly when it is a creation that succeeds. */
  lemma StepPersists(w: World, op: Op)
    ensures var w2 := Step(w, op);
            && Persists(w, w2)
            && w2.book.lastId == w.book.lastId
                 + if op.Submit? && op.call.CallCreateStream? && Answer(w, op).Ok? then 1 else 0
  {
    hide Perform;
    if op.Submit? && Attempt(w, op).Ok? {
      PerformPersists(w, Principals(w, op.signers), op.call);
    }
  }

  lemma {:induction false} RunPersists(w: World, ops: seq<Op>)
    ensures Persists(w, Run(w, ops))
  {
    hide Step;
    if ops == [] {
    } else {
      RunPersists(w, ops[..|ops| - 1]);
      StepPersists(Run(w, ops[..|ops| - 1]), ops[|ops| - 1]);
    }
  }

  // ----- whole runs -----

  /** A deployment as scripts/deploy.sh leaves it, over any honest token balances. */
  ghost predicate Initial(w: World) {
    && w.book.admin.Some?
    && w.book.self != w.holdings.book.self
    && w.book.vault == Some(w.holdings.book.self)
    && w.holdings.book.streamContract == Some(w.book.self)
    && !w.book.paused
    && w.book.lastId == 0
    && w.book.streams == map[] && w.book.senderStreams == w.book.recipientStreams == map[] && w.book.log == []
    && w.holdings.book.balance == map[] && w.holdings.book.token == map[] && w.holdings.book.locked == map[]
    && w.holdings.book.log == []
    && Token.Honest(w.holdings.bank)
  }

  /** `Genesis` is what the deployment leaves, and is nothing else. */
  lemma InitialIsGenesis(w: World)
    ensures Initial(w) <==>
            && w.book.admin.Some?
            && w.book.self != w.holdings.book.self
            && Token.Honest(w.holdings.bank)
            && w == Genesis(w.now, w.book.admin.value, w.book.self, w.holdings.book.self, w.holdings.bank)
  {
  }

  lemma InitialInv(w: World)
    requires Initial(w)
    ensures Inv(w)
    ensures forall id: U64 :: Slack(w, id) == 0
  {
    GenesisInv(w.now, w.book.admin.value, w.book.self, w.holdings.book.self, w.holdings.bank);
  }

  lemma {:induction false} RunKeeps(w: World, ops: seq<Op>)
    requires Inv(w)
    ensures Inv(Run(w, ops))
    ensures forall id: U64 :: Slack(Run(w, ops), id) == Slack(w, id) + Donated(w, ops, id)
  {
    hide Inv, Step, Slack, Donation;
    if ops == [] {
    } else {
      RunKeeps(w, ops[..|ops| - 1]);
      StepKeeps(Run(w, ops[..|ops| - 1]), ops[|ops| - 1]);
    }
  }

  lemma {:induction false} DonatedNonNegative(w: World, ops: seq<Op>, id: U64)
    ensures Donated(w, ops, id) >= 0
  {
    if ops == [] {
    } else {
      DonatedNonNegative(w, ops[..|ops| - 1], id);
    }
  }

  /** BACKING. The vault and the stream contract never read each other's books,
      yet after any run each id's vault balance is what the stream contract owes
      on it plus what outsiders deposited on it, in the stream's own token. */
  lemma Backing(start: World, ops: seq<Op>, id: U64)
    requires Initial(start)
    ensures var w := Run(start, ops);
            if id in w.book.streams then
              && Scheduled(w.book.streams[id])
              && id in w.holdings.book.token
              && w.holdings.book.token[id] == w.book.streams[id].token
              && StreamBalance(w.holdings.book, id) == Owed(w.book.streams[id]) + Donated(start, ops, id)
              && 0 <= Owed(w.book.streams[id]) <= w.book.streams[id].totalAmount
              && 0 <= Donated(start, ops, id)
            else
              StreamBalance(w.holdings.book, id) == Donated(start, ops, id)
  {
    hide Solvent, Run;
    InitialInv(start);
    RunKeeps(start, ops);
    DonatedNonNegative(start, ops, id);
    var w := Run(start, ops);
    assert Backed(w, id);
    if id in w.book.streams {
      RecipientIsOwed(w, id);
    }
  }

  /** SOLVENCY. After any run and for every token, `total_locked` is exactly the
      sum of the balances of the ids funded in it, is not negative, and is really
      held by the vault; an id with no recorded token has nothing. */
  lemma Solvency(start: World, ops: seq<Op>, token: Address)
    requires Initial(start)
    ensures var h := Run(start, ops).holdings;
            && SolventIn(h, token)
            && (forall id: U64 :: id !in h.book.token ==> StreamBalance(h.book, id) == 0)
            && (forall id: U64 :: 0 <= StreamBalance(h.book, id))
            && (forall id: U64 :: id in h.book.token ==>
                  StreamBalance(h.book, id) <= TotalLocked(h.book, h.book.token[id]))
  {
    hide SolventIn, Run;
    InitialInv(start);
    RunKeeps(start, ops);
    var h := Run(start, ops).holdings;
    forall id: U64 | id in h.book.token ensures StreamBalance(h.book, id) <= TotalLocked(h.book, h.book.token[id]) {
      StreamBalanceBelowTotal(h, id);
    }
  }

  /** EVENT REPLAY. After any run both contracts' stored tables are exactly what
      an indexer rebuilds from their events. */
  lemma EventReplay(start: World, ops: seq<Op>)
    requires Initial(start)
    ensures var w := Run(start, ops);
            && Replay(w.book.log) == w.book.streams
            && ReplayVault(w.holdings.book.log)
               == Tally(w.holdings.book.balance, w.holdings.book.token, w.holdings.book.locked)
  {
    hide Run, Solvent, StreamsOk;
    InitialInv(start);
    RunKeeps(start, ops);
  }

  lemma {:induction false} IdsNamingExact(streams: map<U64, Stream>, n: U64, role: Role, party: Address)
    ensures var ids := IdsNaming(streams, n, role, party);
            && (forall i, j :: 0 <= i < j < |ids| ==> ids[i] < ids[j])
            && (forall id: U64 :: id in ids <==> 1 <= id <= n && id in streams && Party(streams[id], role) == party)
  {
    if n == 0 {
    } else {
      IdsNamingExact(streams, n - 1, role, party);
      var before := IdsNaming(streams, n - 1, role, party);
      forall i | 0 <= i < |before| ensures before[i] <= n - 1 {
        assert before[i] in before;
      }
    }
  }

  /** INDEX AGREEMENT. After any run each party's stored index is the ascending
      list of exactly the streams that name it. */
  lemma IndexAgreement(start: World, ops: seq<Op>, role: Role, party: Address)
    requires Initial(start)
    ensures var b := Run(start, ops).book;
            var index := IndexOf(b, role, party);
            && (forall id: U64 :: id in b.streams <==> 1 <= id <= b.lastId)
            && index == IdsNaming(b.streams, b.lastId, role, party)
            && (forall i, j :: 0 <= i < j < |index| ==> index[i] < index[j])
            && (forall id: U64 :: id in index <==> id in b.streams && Party(b.streams[id], role) == party)
  {
    hide Run, Solvent;
    InitialInv(start);
    RunKeeps(start, ops);
    var b := Run(start, ops).book;
    assert IndexOf(b, role, party) == IdsNaming(b.streams, b.lastId, role, party);
    IdsNamingExact(b.streams, b.lastId, role, party);
  }
}
