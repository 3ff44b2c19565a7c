/** The streaming arithmetic (contracts/stream/src/math.rs): checked, truncated
    and clamped as the contract computes it, against exact integer accrual. */
module Accrual {
  import opened Soroban
  import opened FloorDivision

  datatype Status = Pending | Active | Completed | Cancelled

  datatype Stream = Stream(
    id: U64,
    sender: Address,
    recipient: Address,
    token: Address,
    totalAmount: I128,
    withdrawn: I128,
    startLedger: U32,
    endLedger: U32,
    cliffLedger: U32,
    cancellable: bool,
    status: Status,
    createdAt: U32,
    cancelledAt: U32)

  // ----- the contract's functions -----

  const OVERFLOW := StreamFailure(StreamMathOverflow)
  const EMPTY_RANGE := StreamFailure(InvalidTimeRange)

  function StreamedAmount(s: Stream, now: U32): Outcome<I128> {
    var effectiveNow := if s.status == Cancelled then s.cancelledAt else now;
    if s.status == Cancelled && s.cancelledAt < s.cliffLedger then Ok(0)
    else if effectiveNow <= s.startLedger then Ok(0)
    else
      var clampedNow := Min(effectiveNow, s.endLedger);
      var elapsed := Max(clampedNow - s.startLedger, 0);
      :- Check(s.endLedger - s.startLedger >= 0, EMPTY_RANGE);
      var totalDuration := s.endLedger - s.startLedger;
      :- Check(totalDuration != 0, EMPTY_RANGE);
      var numerator :- Checked(s.totalAmount * elapsed, OVERFLOW);
      var streamed :- CheckedDiv(numerator, totalDuration, OVERFLOW);
      Ok(Min(streamed, s.totalAmount))
  }

  function WithdrawableAmount(s: Stream, now: U32): Outcome<I128> {
    if now < s.cliffLedger && s.status != Cancelled then Ok(0)
    else if s.status == Cancelled && s.cancelledAt < s.cliffLedger then Ok(0)
    else
      var streamed :- StreamedAmount(s, now);
      var withdrawable :- Checked(streamed - s.withdrawn, OVERFLOW);
      Ok(Max(withdrawable, 0))
  }

  function ComputeStatus(s: Stream, now: U32): Status {
    if s.status == Cancelled then Cancelled
    else if now < s.startLedger then Pending
    else if now >= s.endLedger then Completed
    else Active
  }

  // ----- exact accrual, the reference -----

  /** What `create_stream` has checked of a schedule. */
  predicate Scheduled(s: Stream) {
    && s.totalAmount > 0
    && s.startLedger < s.endLedger
    && s.startLedger <= s.cliffLedger <= s.endLedger
  }

  function Duration(s: Stream): int {
    s.endLedger - s.startLedger
  }

  function Elapsed(s: Stream, at: int): int {
    if at <= s.startLedger then 0 else Min(at, s.endLedger) - s.startLedger
  }

  /** The product the contract has to represent in an i128. */
  function Product(s: Stream, at: int): int {
    s.totalAmount * Elapsed(s, at)
  }

  /** floor(total · elapsed / duration) over unbounded integers. */
  function Accrued(s: Stream, at: int): int
    requires Scheduled(s)
  {
    Product(s, at) / Duration(s)
  }

  /** What each status says of a stream with these terms. */
  ghost predicate StatusSays(status: Status, startLedger: int, endLedger: int, cancelled: bool, now: int) {
    && (status == Cancelled <==> cancelled)
    && (status == Pending <==> !cancelled && now < startLedger)
    && (status == Active <==> !cancelled && startLedger <= now < endLedger)
    && (status == Completed <==> !cancelled && now >= endLedger)
  }

  /** The ledger at which accrual is read: frozen by a cancel. */
  function StopLedger(s: Stream, now: int): int {
    if s.status == Cancelled then s.cancelledAt else now
  }

  predicate VoidedByCliff(s: Stream) {
    s.status == Cancelled && s.cancelledAt < s.cliffLedger
  }

  function Streamed(s: Stream, now: int): int
    requires Scheduled(s)
  {
    if VoidedByCliff(s) then 0 else Accrued(s, StopLedger(s, now))
  }

  /** What the recipient has earned by `now`: nothing on the near side of the cliff. */
  function Entitlement(s: Stream, now: int): int
    requires Scheduled(s)
  {
    if StopLedger(s, now) < s.cliffLedger then 0 else Accrued(s, StopLedger(s, now))
  }

  /** What the vault must still hold for a stream. */
  function Owed(s: Stream): int
    requires Scheduled(s)
  {
    (if s.status == Cancelled then Streamed(s, 0) else s.totalAmount) - s.withdrawn
  }

  predicate Overflows(s: Stream, now: int) {
    !VoidedByCliff(s) && Product(s, StopLedger(s, now)) > I128_MAX
  }

  /** The creation-time guard the contract does not make. */
  predicate NeverOverflows(s: Stream) {
    s.totalAmount * Duration(s) <= I128_MAX
  }

  // ----- exact accrual is even -----

  lemma ElapsedBounds(s: Stream, at: int)
    requires Scheduled(s)
    ensures 0 <= Elapsed(s, at) <= Duration(s)
    ensures Elapsed(s, at) == Duration(s) <==> at >= s.endLedger
    ensures 0 <= Product(s, at) <= s.totalAmount * Duration(s)
  {
    ProductMonotone(s.totalAmount, 0, Elapsed(s, at));
    ProductMonotone(s.totalAmount, Elapsed(s, at), Duration(s));
  }

  /** Accrual stays within the deposit and equals it exactly from the end ledger on. */
  lemma AccruedBounds(s: Stream, at: int)
    requires Scheduled(s)
    ensures 0 <= Accrued(s, at) <= s.totalAmount
    ensures Accrued(s, at) == s.totalAmount <==> at >= s.endLedger
    ensures at <= s.startLedger ==> Accrued(s, at) == 0
  {
    ElapsedBounds(s, at);
    Share(s.totalAmount, Elapsed(s, at), Duration(s));
    FloorUnique(0, Duration(s), 0);
  }

  lemma ProductGrows(s: Stream, a: int, b: int)
    requires Scheduled(s)
    requires a <= b
    ensures Product(s, a) <= Product(s, b)
  {
    ProductMonotone(s.totalAmount, Elapsed(s, a), Elapsed(s, b));
  }

  lemma AccruedMonotone(s: Stream, a: int, b: int)
    requires Scheduled(s)
    requires a <= b
    ensures Accrued(s, a) <= Accrued(s, b)
  {
    ProductGrows(s, a, b);
    FloorMonotone(Product(s, a), Product(s, b), Duration(s));
  }

  /** Any window of k ledgers accrues floor(total·k/d) or ceil(total·k/d):
      rounding never drifts over the life of a stream. */
  lemma EvenAccrual(s: Stream, at: int, k: int)
    requires Scheduled(s)
    requires k >= 0 && s.startLedger <= at && at + k <= s.endLedger
    ensures s.totalAmount * k / Duration(s)
         <= Accrued(s, at + k) - Accrued(s, at)
         <= (s.totalAmount * k + Duration(s) - 1) / Duration(s)
  {
    var e := Elapsed(s, at);
    assert Elapsed(s, at + k) == e + k;
    assert s.totalAmount * (e + k) == s.totalAmount * e + s.totalAmount * k;
    FloorOfSum(s.totalAmount * e, s.totalAmount * k, Duration(s));
  }

  /** Multiplying first never pays less than the rate-per-ledger form. */
  lemma MultiplyFirstIsTighter(s: Stream, at: int)
    requires Scheduled(s)
    ensures (s.totalAmount / Duration(s)) * Elapsed(s, at) <= Accrued(s, at)
  {
    ElapsedBounds(s, at);
    DivideFirstIsLower(s.totalAmount, Elapsed(s, at), Duration(s));
  }

  // ----- the contract's functions compute exact accrual, or overflow -----

  /** On every schedule `create_stream` accepts, `streamed_amount` is exact
      accrual, and fails precisely where total · elapsed leaves i128; in
      particular the final clamp to `total_amount` never changes a value. */
  lemma StreamedIsExact(s: Stream, now: U32)
    requires Scheduled(s)
    ensures StreamedAmount(s, now) ==
            if Overflows(s, now) then Err(OVERFLOW) else Ok(Streamed(s, now))
  {
    var at := StopLedger(s, now);
    AccruedBounds(s, at);
    ElapsedBounds(s, at);
  }

  /** `withdrawable_amount` is the entitlement less what was taken, for any
      stream whose recipient was never overpaid: the clamp at zero is idle. */
  lemma WithdrawableIsExact(s: Stream, now: U32)
    requires Scheduled(s)
    requires 0 <= s.withdrawn <= Entitlement(s, now)
    ensures WithdrawableAmount(s, now) ==
            if StopLedger(s, now) >= s.cliffLedger && Overflows(s, now) then Err(OVERFLOW)
            else Ok(Entitlement(s, now) - s.withdrawn)
  {
    StreamedIsExact(s, now);
    AccruedBounds(s, StopLedger(s, now));
  }

  /** On every schedule `create_stream` accepts, the derived status is the one
      of the four whose condition holds. */
  lemma StatusIsExact(s: Stream, now: U32)
    requires Scheduled(s)
    ensures StatusSays(ComputeStatus(s, now), s.startLedger, s.endLedger, s.status == Cancelled, now)
  {
  }

  lemma EntitlementBounds(s: Stream, now: int)
    requires Scheduled(s)
    ensures 0 <= Entitlement(s, now) <= Streamed(s, now) <= s.totalAmount
    ensures s.status == Cancelled ==> Entitlement(s, now) == Streamed(s, now)
  {
    AccruedBounds(s, StopLedger(s, now));
  }

  lemma EntitlementGrows(s: Stream, a: int, b: int)
    requires Scheduled(s)
    requires a <= b
    ensures Entitlement(s, a) <= Entitlement(s, b)
  {
    AccruedMonotone(s, StopLedger(s, a), StopLedger(s, b));
    EntitlementBounds(s, b);
  }

  /** Once the accrual of a live stream overflows it overflows at every later ledger. */
  lemma OverflowPersists(s: Stream, a: int, b: int)
    requires Scheduled(s)
    requires a <= b
    requires Overflows(s, a)
    ensures Overflows(s, b)
  {
    ProductGrows(s, StopLedger(s, a), StopLedger(s, b));
  }

  lemma GuardedNeverOverflows(s: Stream, now: int)
    requires Scheduled(s)
    requires NeverOverflows(s)
    ensures !Overflows(s, now)
  {
    ElapsedBounds(s, StopLedger(s, now));
  }

  /** A live stream accrues without error at every ledger exactly when
      total · duration fits in an i128, which a sender can check up front. */
  lemma AlwaysAccruesIffGuarded(s: Stream)
    requires Scheduled(s)
    requires s.status != Cancelled
    ensures (forall now: U32 :: StreamedAmount(s, now).Ok?) <==> NeverOverflows(s)
  {
    if NeverOverflows(s) {
      forall now: U32 ensures StreamedAmount(s, now).Ok? {
        GuardedNeverOverflows(s, now);
        StreamedIsExact(s, now);
      }
    } else {
      StreamedIsExact(s, s.endLedger);
      assert Elapsed(s, s.endLedger) == Duration(s);
      assert Overflows(s, s.endLedger);
      assert StreamedAmount(s, s.endLedger).Err?;
    }
  }

  /** Without that guard a stream the contract accepts can run to its end with
      nothing computable. */
  lemma UnguardedStreamFails(party: Address, token: Address)
    ensures var s := Stream(1, party, party, token, I128_MAX, 0, 0, 7, 0, true, Pending, 0, 0);
            Scheduled(s) && StreamedAmount(s, 3) == Err(OVERFLOW)
  {
    var s := Stream(1, party, party, token, I128_MAX, 0, 0, 7, 0, true, Pending, 0, 0);
    StreamedIsExact(s, 3);
    assert Elapsed(s, 3) == 3;
  }

  /** The worked payroll example of docs/stream.md pays exactly half at the midpoint. */
  lemma WorkedExample(s: Stream)
    requires s.status == Pending && s.totalAmount == 90_000
    requires s.startLedger == 1_000 && s.endLedger == 519_000
    requires s.startLedger <= s.cliffLedger <= s.endLedger
    ensures StreamedAmount(s, 260_000) == Ok(45_000)
  {
    StreamedIsExact(s, 260_000);
    assert Product(s, 260_000) == 90_000 * 259_000;
    FloorUnique(90_000 * 259_000, 518_000, 45_000);
  }
}
