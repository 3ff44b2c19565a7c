/** When `create_stream` succeeds, and what can keep refusing it. */
module Creation {
  import opened Soroban
  import opened Accrual
  import opened Custody
  import opened Protocol
  import opened Invariants
  import opened Runs
  import Token

  /** The exact outcome of `create_stream` in a reachable state. Past its own
      checks only three things can refuse it: a counter or an index that is full,
      an id someone already funded in another token, or a sender short of funds. */
  lemma CreateExact(w: World, signers: set<Address>, terms: Terms)
    requires Inv(w) && Outside(w, signers)
    ensures var r, id := CreateStream(w, signers, terms), w.book.lastId + 1;
            if terms.sender !in signers then r == Err(AuthFailure)
            else if w.book.paused then r == Err(StreamErr(Paused))
            else if terms.totalAmount <= 0 then r == Err(StreamErr(StreamInvalidAmount))
            else if terms.endLedger <= terms.startLedger then r == Err(StreamErr(InvalidTimeRange))
            else if !(terms.startLedger <= terms.cliffLedger <= terms.endLedger) then r == Err(StreamErr(InvalidCliff))
            else if w.book.lastId == U64_MAX
                    || |IndexOf(w.book, Sender, terms.sender)| == U32_MAX
                    || |IndexOf(w.book, Recipient, terms.recipient)| == U32_MAX then r == Err(HostTrap)
            else if id in w.holdings.book.token && w.holdings.book.token[id] != terms.token then
              r == Err(VaultFailure(TokenMismatch))
            else if Token.BalanceOf(w.holdings.bank, terms.token, terms.sender) < terms.totalAmount then
              r == Err(TokenFailure)
            else
              && r.Ok?
              && r.value.reply == StreamId(id)
              && r.value.world.book.paused == w.book.paused
              && id in r.value.world.book.streams
              && var s := r.value.world.book.streams[id];
                 TermsOf(s) == terms && s.withdrawn == 0 && s.status == Pending && s.createdAt == w.now
  {
    hide Solvent, Indexed, Deposit, Token.Transfer, StreamOk;
    if w.book.lastId < U64_MAX {
      DepositExact(w.holdings, signers + {w.book.self}, terms.sender, terms.token, terms.totalAmount,
                   w.book.lastId + 1);
    }
  }

  // ----- an id that was funded before it exists -----

  /** The next id to be allocated already holds a deposit in `token`. */
  ghost predicate ReservedFor(w: World, token: Address) {
    && w.book.lastId < U64_MAX
    && w.book.lastId + 1 in w.holdings.book.token
    && w.holdings.book.token[w.book.lastId + 1] == token
  }

  predicate CreatesIn(op: Op, token: Address) {
    op.Submit? && op.call.CallCreateStream? && op.call.terms.token == token
  }

  lemma ReservedRefuses(w: World, signers: set<Address>, terms: Terms, token: Address)
    requires Inv(w) && ReservedFor(w, token)
    requires terms.token != token
    ensures Answer(w, Submit(signers, CallCreateStream(terms))).Err?
  {
    hide CreateStream, Inv;
    CreateExact(w, Principals(w, signers), terms);
  }

  /** Every creation in `token` submitted along the run was refused. */
  ghost predicate NoneCreatedIn(w: World, ops: seq<Op>, token: Address) {
    forall k :: 0 <= k < |ops| && CreatesIn(ops[k], token) ==> Answer(Run(w, ops[..k]), ops[k]).Err?
  }

  lemma StepKeepsReserved(w: World, op: Op, token: Address)
    requires Inv(w) && ReservedFor(w, token)
    ensures var created := CreatesIn(op, token) && Answer(w, op).Ok?;
            && Step(w, op).book.lastId == w.book.lastId + (if created then 1 else 0)
            && (!created ==> ReservedFor(Step(w, op), token))
  {
    hide Inv, Attempt;
    StepPersists(w, op);
    if op.Submit? && op.call.CallCreateStream? && op.call.terms.token != token {
      ReservedRefuses(w, op.signers, op.call.terms, token);
    }
  }

  lemma NoneCreatedSplit(w: World, ops: seq<Op>, token: Address)
    requires ops != []
    ensures var before, op := ops[..|ops| - 1], ops[|ops| - 1];
            NoneCreatedIn(w, ops, token) <==>
            NoneCreatedIn(w, before, token) && (CreatesIn(op, token) ==> Answer(Run(w, before), op).Err?)
  {
    hide Run, Answer;
    var before := ops[..|ops| - 1];
    assert forall k :: 0 <= k < |before| ==> ops[..k] == before[..k] && ops[k] == before[k];
  }

  lemma {:induction false} ReservedRun(w: World, ops: seq<Op>, token: Address)
    requires Inv(w) && ReservedFor(w, token)
    ensures var w2 := Run(w, ops);
            && Inv(w2)
            && (NoneCreatedIn(w, ops, token) ==> ReservedFor(w2, token) && w2.book.lastId == w.book.lastId)
            && (!NoneCreatedIn(w, ops, token) ==> w2.book.lastId > w.book.lastId)
  {
    hide Inv, Step, ReservedFor, Answer;
    RunKeeps(w, ops);
    if ops == [] {
    } else {
      var before, op := ops[..|ops| - 1], ops[|ops| - 1];
      ReservedRun(w, before, token);
      StepPersists(Run(w, before), op);
      assert NoneCreatedIn(w, ops, token)
        <==> NoneCreatedIn(w, before, token) && (CreatesIn(op, token) ==> Answer(Run(w, before), op).Err?) by {
        NoneCreatedSplit(w, ops, token);
      }
      if NoneCreatedIn(w, before, token) {
        StepKeepsReserved(Run(w, before), op, token);
      }
    }
  }

  /** RESERVED. Once the next id holds a deposit in some token, every creation in
      another token is refused and rolled back with its id. Along any run whatever
      no id is allocated and no stream is added exactly as long as no creation in
      that very token succeeds; the first one that does takes the id. */
  lemma ReservedUntilItsToken(w: World, ops: seq<Op>, token: Address)
    requires Inv(w) && ReservedFor(w, token)
    ensures var w2 := Run(w, ops);
            && (w2.book.lastId == w.book.lastId <==> NoneCreatedIn(w, ops, token))
            && (w2.book.streams.Keys == w.book.streams.Keys <==> NoneCreatedIn(w, ops, token))
            && (NoneCreatedIn(w, ops, token) ==>
                  && ReservedFor(w2, token)
                  && forall signers, terms: Terms ::
                       var answer := Answer(w2, Submit(signers, CallCreateStream(terms)));
                       if terms.token != token then answer.Err?
                       else answer.Ok? ==> answer.value.StreamId? && answer.value.id == w.book.lastId + 1)
  {
    hide Run, ReservedFor, NoneCreatedIn, CreateStream, Solvent, Indexed, StreamOk;
    ReservedRun(w, ops, token);
    var w2 := Run(w, ops);
    assert w2.book.lastId in w2.book.streams || w2.book.lastId == 0;
    if NoneCreatedIn(w, ops, token) {
      forall signers, terms: Terms
        ensures var answer := Answer(w2, Submit(signers, CallCreateStream(terms)));
                if terms.token != token then answer.Err?
                else answer.Ok? ==> answer.value.StreamId? && answer.value.id == w.book.lastId + 1
      {
        if terms.token != token {
          ReservedRefuses(w2, signers, terms, token);
        } else {
          CreateExact(w2, Principals(w2, signers), terms);
        }
      }
    }
  }

  /** One unit deposited on id 1 of a fresh deployment is enough. */
  lemma ReservationIsReachable(start: World, donor: Address, token: Address)
    requires Initial(start)
    requires Outside(start, {donor})
    requires Token.BalanceOf(start.holdings.bank, token, donor) >= 1
    ensures ReservedFor(Run(start, [Submit({donor}, CallDeposit(donor, token, 1, 1))]), token)
  {
    var op := Submit({donor}, CallDeposit(donor, token, 1, 1));
    InitialInv(start);
    assert Principals(start, {donor}) == {donor};
    DepositExact(start.holdings, {donor}, donor, token, 1, 1);
    hide Deposit, Token.BalanceOf;
    assert ReservedFor(Step(start, op), token);
    hide Step, ReservedFor;
    assert [op][..0] == [];
    assert Run(start, [op]) == Step(start, op);
  }
}
