/** What does not matter: the timing of withdrawals, and the pause flag. */
module Noninterference {
  import opened Soroban
  import opened Accrual
  import opened Custody
  import opened Protocol
  import opened Invariants
  import opened Runs
  import opened Evolution
  import Token

  // ----- the timing of withdrawals -----

  datatype Milestone = Born(ledger: U32, terms: Terms) | Frozen(ledger: U32)

  function MilestoneOf(e: Entry, id: U64): Option<Milestone> {
    match e.event
    case Created(i, terms) => if i == id then Some(Born(e.ledger, terms)) else None
    case Cancelled(i, _, _, _) => if i == id then Some(Frozen(e.ledger)) else None
    case _ => None
  }

  /** The log of one stream with its withdrawals left out. */
  function Milestones(log: seq<Entry>, id: U64): seq<Milestone> {
    if log == [] then []
    else
      var before, m := Milestones(log[..|log| - 1], id), MilestoneOf(log[|log| - 1], id);
      if m.Some? then before + [m.value] else before
  }

  function Unwithdrawn(s: Stream): Stream {
    s.(withdrawn := 0)
  }

  function Grow(skeleton: Option<Stream>, id: U64, m: Milestone): Option<Stream> {
    match m
    case Born(ledger, terms) => Some(NewStream(id, terms, ledger))
    case Frozen(ledger) =>
      if skeleton.None? then None
      else Some(skeleton.value.(status := Status.Cancelled, cancelledAt := ledger))
  }

  function Skeleton(id: U64, milestones: seq<Milestone>): Option<Stream> {
    if milestones == [] then None
    else Grow(Skeleton(id, milestones[..|milestones| - 1]), id, milestones[|milestones| - 1])
  }

  function Bare(streams: map<U64, Stream>, id: U64): Option<Stream> {
    if id in streams then Some(Unwithdrawn(streams[id])) else None
  }

  /** One event changes a stream, up to its withdrawals, by its milestone if it is one. */
  lemma ApplyEntryGrows(streams: map<U64, Stream>, e: Entry, id: U64)
    requires forall i :: i in streams ==> streams[i].id == i
    ensures Bare(ApplyEntry(streams, e), id) ==
            var m := MilestoneOf(e, id);
            if m.Some? then Grow(Bare(streams, id), id, m.value) else Bare(streams, id)
    ensures forall i :: i in ApplyEntry(streams, e) ==> ApplyEntry(streams, e)[i].id == i
  {
  }

  /** Everything about a stream but its withdrawals is in its milestones. */
  lemma {:induction false} SkeletonFromLog(log: seq<Entry>, id: U64)
    ensures Skeleton(id, Milestones(log, id)) == Bare(Replay(log), id)
    ensures forall i :: i in Replay(log) ==> Replay(log)[i].id == i
  {
    if log == [] {
    } else {
      var before, e := log[..|log| - 1], log[|log| - 1];
      SkeletonFromLog(before, id);
      ApplyEntryGrows(Replay(before), e, id);
      hide ApplyEntry, MilestoneOf, Grow, Bare;
      var ms, m := Milestones(before, id), MilestoneOf(e, id);
      if m.Some? {
        assert (ms + [m.value])[..|ms|] == ms;
      }
    }
  }

  lemma SameSkeletonSameEntitlement(s: Stream, s2: Stream, t: int)
    requires Scheduled(s) && Unwithdrawn(s) == Unwithdrawn(s2)
    ensures Scheduled(s2)
    ensures Entitlement(s2, t) == Entitlement(s, t)
    ensures Overflows(s2, t) == Overflows(s, t)
  {
    assert s2 == s.(withdrawn := s2.withdrawn);
  }

  lemma SameTimesAgree(s: Stream, s2: Stream, id: U64, now: U32, t: U32)
    requires StreamOk(s, id, now) && StreamOk(s2, id, now)
    requires Unwithdrawn(s) == Unwithdrawn(s2)
    requires now <= t
    ensures Entitlement(s2, t) == Entitlement(s, t)
    ensures var a, a2 := WithdrawableAmount(s, t), WithdrawableAmount(s2, t);
            && (a.Ok? <==> a2.Ok?)
            && (a.Ok? <==> StopLedger(s, t) < s.cliffLedger || !Overflows(s, t))
            && (a2.Ok? <==> StopLedger(s2, t) < s2.cliffLedger || !Overflows(s2, t))
            && (a.Ok? ==> s.withdrawn + a.value == s2.withdrawn + a2.value == Entitlement(s, t))
  {
    hide WithdrawableAmount;
    SameSkeletonSameEntitlement(s, s2, t);
    EntitlementGrows(s, now, t);
    EntitlementGrows(s2, now, t);
    WithdrawableIsExact(s, t);
    WithdrawableIsExact(s2, t);
  }

  /** SCHEDULE INDEPENDENCE. Two runs, however different, that created and (if
      at all) cancelled a stream on the same terms at the same ledgers agree at
      every later ledger on withdrawn + withdrawable, and the recipient's next
      `withdraw_max` leaves the same total paid in both. */
  lemma ScheduleIndependence(start: World, ops: seq<Op>, start2: World, ops2: seq<Op>, id: U64, t: U32)
    requires Initial(start) && Initial(start2)
    requires id in Run(start, ops).book.streams
    requires Milestones(Run(start, ops).book.log, id) == Milestones(Run(start2, ops2).book.log, id)
    requires Run(start, ops).now == Run(start2, ops2).now <= t
    ensures var w, w2 := Run(start, ops), Run(start2, ops2);
            && id in w2.book.streams
            && var s, s2 := w.book.streams[id], w2.book.streams[id];
               var a, a2 := WithdrawableAmount(s, t), WithdrawableAmount(s2, t);
               && Scheduled(s)
               && (a.Ok? <==> a2.Ok?)
               && (a.Ok? ==> s.withdrawn + a.value == s2.withdrawn + a2.value == Entitlement(s, t))
               && (WithdrawableAmount(s, w.now).Ok? && Outside(w, {s.recipient}) && Outside(w2, {s.recipient}) ==>
                     DrainsTo(w, id, Entitlement(s, w.now)) && DrainsTo(w2, id, Entitlement(s, w.now)))
  {
    hide Run, Solvent, Indexed, WithdrawableAmount, DrainsTo, Milestones, Skeleton, Overflows, Entitlement;
    InitialInv(start);
    InitialInv(start2);
    RunKeeps(start, ops);
    RunKeeps(start2, ops2);
    var w, w2 := Run(start, ops), Run(start2, ops2);
    SkeletonFromLog(w.book.log, id);
    SkeletonFromLog(w2.book.log, id);
    var s, s2 := w.book.streams[id], w2.book.streams[id];
    SameTimesAgree(s, s2, id, w.now, t);
    SameTimesAgree(s, s2, id, w.now, w.now);
    if WithdrawableAmount(s, w.now).Ok? && Outside(w, {s.recipient}) && Outside(w2, {s.recipient}) {
      WithdrawMaxDrains(w, id);
      WithdrawMaxDrains(w2, id);
    }
  }

  // ----- the pause flag -----

  function WithFlag(w: World, paused: bool): World {
    w.(book := w.book.(paused := paused))
  }

  /** The admin really signed a `pause` or an `unpause`: all others are refused. */
  ghost predicate AdminFlips(w: World, op: Op) {
    && op.Submit?
    && (op.call.CallPause? || op.call.CallUnpause?)
    && w.book.admin.Some?
    && w.book.admin.value in Principals(w, op.signers)
  }

  /** The admin really lifts the pause. */
  ghost predicate AdminUnpauses(w: World, op: Op) {
    AdminFlips(w, op) && op.call.CallUnpause?
  }

  lemma FlipsPersist(w: World, w2: World, op: Op)
    requires Persists(w, w2)
    ensures AdminFlips(w, op) == AdminFlips(w2, op)
    ensures AdminUnpauses(w, op) == AdminUnpauses(w2, op)
  {
  }

  /** Everything that a pause must not touch: all but creations and the admin's own switch. */
  ghost predicate Unpausable(w: World, op: Op) {
    !(op.Submit? && op.call.CallCreateStream?) && !AdminFlips(w, op)
  }

  function Reflagged(r: Outcome<Done>, paused: bool): Outcome<Done> {
    if r.Ok? then Ok(r.value.(world := WithFlag(r.value.world, paused))) else r
  }

  lemma WithdrawIgnoresPause(w: World, paused: bool, signers: set<Address>, recipient: Address, id: U64, amount: I128)
    ensures Withdraw(WithFlag(w, paused), signers, recipient, id, amount)
         == Reflagged(Withdraw(w, signers, recipient, id, amount), paused)
  {
    hide WithdrawableAmount, Pay;
  }

  lemma WithdrawMaxIgnoresPause(w: World, paused: bool, signers: set<Address>, recipient: Address, id: U64)
    ensures WithdrawMax(WithFlag(w, paused), signers, recipient, id)
         == Reflagged(WithdrawMax(w, signers, recipient, id), paused)
  {
    hide WithdrawableAmount, Withdraw;
    if id in w.book.streams && WithdrawableAmount(w.book.streams[id], w.now).Ok? {
      WithdrawIgnoresPause(w, paused, signers, recipient, id, WithdrawableAmount(w.book.streams[id], w.now).value);
    }
  }

  lemma CancelIgnoresPause(w: World, paused: bool, signers: set<Address>, sender: Address, id: U64)
    ensures CancelStream(WithFlag(w, paused), signers, sender, id)
         == Reflagged(CancelStream(w, signers, sender, id), paused)
  {
    hide StreamedAmount, Pay;
  }

  lemma StepIgnoresPause(w: World, paused: bool, op: Op)
    requires Unpausable(w, op)
    ensures Answer(WithFlag(w, paused), op) == Answer(w, op)
    ensures Step(WithFlag(w, paused), op) == WithFlag(Step(w, op), paused)
  {
    hide Withdraw, WithdrawMax, CancelStream, CreateStream, Deposit, Pay, Token.Transfer;
    if op.Submit? {
      var signers := Principals(w, op.signers);
      match op.call
      case CallWithdraw(recipient, id, amount) => WithdrawIgnoresPause(w, paused, signers, recipient, id, amount);
      case CallWithdrawMax(recipient, id) => WithdrawMaxIgnoresPause(w, paused, signers, recipient, id);
      case CallCancelStream(sender, id) => CancelIgnoresPause(w, paused, signers, sender, id);
      case _ =>
    }
  }

  /** PAUSE NON-INTERFERENCE. Two states that differ in the pause flag only give
      the same answers, call by call, and the same successor states up to that
      flag, for every sequence of withdrawals, cancels, deposits, transfers, ledger
      closes and anyone's vain attempts at the switch. */
  lemma {:induction false} PauseNonInterference(w: World, paused: bool, ops: seq<Op>, k: nat)
    requires forall op :: op in ops ==> Unpausable(w, op)
    ensures Run(WithFlag(w, paused), ops) == WithFlag(Run(w, ops), paused)
    ensures k < |ops| ==>
              Answer(Run(WithFlag(w, paused), ops[..k]), ops[k]) == Answer(Run(w, ops[..k]), ops[k])
  {
    hide Step, Answer, Persists, AdminFlips;
    if ops == [] {
    } else {
      var before, op := ops[..|ops| - 1], ops[|ops| - 1];
      PauseNonInterference(w, paused, before, k);
      RunPersists(w, before);
      FlipsPersist(w, Run(w, before), op);
      assert Unpausable(w, op);
      StepIgnoresPause(Run(w, before), paused, op);
      if k < |before| {
        assert ops[..k] == before[..k];
      }
    }
  }

  lemma WithdrawKeepsFlag(w: World, signers: set<Address>, recipient: Address, id: U64, amount: I128)
    requires Withdraw(w, signers, recipient, id, amount).Ok?
    ensures Withdraw(w, signers, recipient, id, amount).value.world.book.paused == w.book.paused
  {
    hide WithdrawableAmount, Pay;
  }

  lemma CancelKeepsFlag(w: World, signers: set<Address>, sender: Address, id: U64)
    requires CancelStream(w, signers, sender, id).Ok?
    ensures CancelStream(w, signers, sender, id).value.world.book.paused == w.book.paused
  {
    hide StreamedAmount, Pay;
  }

  lemma PausedRefusesCreate(w: World, signers: set<Address>, terms: Terms)
    requires w.book.paused
    ensures CreateStream(w, signers, terms).Err?
  {
  }

  /** THE SWITCH. In every state, reachable or not, the flag after a step is what
      the admin's own `pause` or `unpause` sets it to, and is otherwise untouched. */
  lemma FlagStep(w: World, op: Op)
    ensures Step(w, op).book.paused == if AdminFlips(w, op) then op.call.CallPause? else w.book.paused
  {
    hide Withdraw, WithdrawMax, CancelStream, CreateStream, Deposit, Pay, Token.Transfer;
    if op.Submit? && Attempt(w, op).Ok? {
      var signers := Principals(w, op.signers);
      match op.call
      case CallCreateStream(terms) => CreateShape(w, signers, terms);
      case CallWithdraw(recipient, id, amount) => WithdrawKeepsFlag(w, signers, recipient, id, amount);
      case CallWithdrawMax(recipient, id) =>
        WithdrawMaxCases(w, signers, recipient, id);
        var amount := WithdrawMax(w, signers, recipient, id).value.reply.amount;
        if amount != 0 {
          WithdrawKeepsFlag(w, signers, recipient, id, amount);
        }
      case CallCancelStream(sender, id) => CancelKeepsFlag(w, signers, sender, id);
      case _ =>
    }
  }

  /** The exact outcome of `pause` and `unpause` once an admin is configured: the
      admin is never refused, paused or not, and nobody else is let through. */
  lemma SwitchExact(w: World, signers: set<Address>, call: Call)
    requires w.book.admin.Some?
    requires call.CallPause? || call.CallUnpause?
    ensures var op := Submit(signers, call);
            if AdminFlips(w, op) then
              && Answer(w, op) == Ok(Nothing)
              && Step(w, op) == w.(book := w.book.(
                   paused := call.CallPause?,
                   log := w.book.log + [Entry(w.now, PauseSet(w.book.admin.value, call.CallPause?))]))
            else Answer(w, op) == Err(AuthFailure) && Step(w, op) == w
  {
  }

  /** A paused contract stays paused, step by step, unless the admin unpauses it,
      and as long as it does no id is allocated. */
  lemma PausedStep(w: World, op: Op)
    requires w.book.paused
    ensures var w2 := Step(w, op);
            && (w2.book.paused <==> !AdminUnpauses(w, op))
            && w2.book.lastId == w.book.lastId
  {
    hide CreateStream, Step, Persists;
    FlagStep(w, op);
    StepPersists(w, op);
    if op.Submit? && op.call.CallCreateStream? {
      PausedRefusesCreate(w, Principals(w, op.signers), op.call.terms);
    }
  }

  /** No stream is added in any stretch of a run before the admin really unpauses,
      whatever anyone else submits. */
  lemma {:induction false} PausedStretchAddsNothing(w: World, ops: seq<Op>)
    requires Inv(w)
    requires w.book.paused
    requires forall op :: op in ops ==> !AdminUnpauses(w, op)
    ensures var w2 := Run(w, ops);
            && Inv(w2)
            && w2.book.paused && w2.book.lastId == w.book.lastId && w2.book.streams.Keys == w.book.streams.Keys
            && w2.book.admin == w.book.admin
  {
    hide Step, Solvent, Indexed, StreamOk, AdminUnpauses;
    RunKeeps(w, ops);
    RunPersists(w, ops);
    if ops == [] {
    } else {
      var before, op := Run(w, ops[..|ops| - 1]), ops[|ops| - 1];
      PausedStretchAddsNothing(w, ops[..|ops| - 1]);
      RunPersists(w, ops[..|ops| - 1]);
      FlipsPersist(w, before, op);
      PausedStep(before, op);
    }
  }

  /** THE BRAKE. Only the admin can pause; from then until the admin itself signs
      an unpause, every `create_stream` is refused and no stream appears, whatever
      anyone else submits, vain unpauses included. */
  lemma PauseStopsCreation(w: World, signers: set<Address>, ops: seq<Op>, attempt: set<Address>, terms: Terms)
    requires Inv(w)
    requires Answer(w, Submit(signers, CallPause)).Ok?
    requires forall op :: op in ops ==> !AdminUnpauses(w, op)
    ensures w.book.admin.value in signers
    ensures var w2 := Run(Step(w, Submit(signers, CallPause)), ops);
            && w2.book.paused
            && w2.book.admin == w.book.admin
            && w2.book.streams.Keys == w.book.streams.Keys
            && Answer(w2, Submit(attempt, CallCreateStream(terms)))
               == if terms.sender in Principals(w2, attempt) then Err(StreamErr(Paused)) else Err(AuthFailure)
  {
    var pause := Submit(signers, CallPause);
    var paused := Step(w, pause);
    StepKeeps(w, pause);
    StepPersists(w, pause);
    hide Run, Inv, AdminUnpauses;
    forall op | op in ops ensures !AdminUnpauses(paused, op) {
      FlipsPersist(w, paused, op);
    }
    PausedStretchAddsNothing(paused, ops);
  }
}
