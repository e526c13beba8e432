/** The timer state machine as values: the strategies, the error codes, a
    timer's fields, and what `th_timer_begin` and `th_timer_end` do to them. */
module Timing {
  import opened Words
  import opened Clock

  /** `th_status_t`: how the library takes its readings. */
  datatype Status =
    | NotUse            // no usable clock
    | UseRdtscp         // TSC, ended by RDTSCP, rate from CPUID
    | UseRdtscpMeas     // TSC, ended by RDTSCP, rate measured
    | UseRdtsc          // TSC, ended by a CR0 round trip and RDTSC, rate from CPUID
    | UseRdtscMeas      // TSC, ended by a CR0 round trip and RDTSC, rate measured
    | UseClockGettime   // CLOCK_MONOTONIC
  {
    /** The enumerator's value, as `th_status()` hands it to callers, who test
        it for zero to learn whether the library can be used at all. */
    function Code(): (c: nat)
      ensures c <= 5
      ensures c == 0 <==> NotUse?
    {
      match this
      case NotUse => 0
      case UseRdtscp => 1
      case UseRdtscpMeas => 2
      case UseRdtsc => 3
      case UseRdtscMeas => 4
      case UseClockGettime => 5
    }

    predicate InUse() { !NotUse? }

    /** One of the four strategies that read the time stamp counter. */
    predicate Tsc() { UseRdtscp? || UseRdtscpMeas? || UseRdtsc? || UseRdtscMeas? }

    /** A TSC strategy that ends a measurement with RDTSCP. */
    predicate Serialized() { UseRdtscp? || UseRdtscpMeas? }

    /** A TSC strategy whose rate was measured rather than read from CPUID. */
    predicate Measured() { UseRdtscpMeas? || UseRdtscMeas? }
  }

  /** `th_error_t` */
  datatype TimerError = NoError | NotUseError | NoBeginError | OverflowError
  {
    /** The enumerator's value; callers treat any non-zero code as failure. */
    function Code(): (c: nat)
      ensures c <= 3
      ensures c == 0 <==> NoError?
    {
      match this
      case NoError => 0
      case NotUseError => 1
      case NoBeginError => 2
      case OverflowError => 3
    }
  }

  /** What the clocks say at the instant a timer call reads them: the time
      stamp counter, and CLOCK_MONOTONIC. A call uses the one its strategy
      selects. */
  datatype Reading = Reading(tsc: u64, clock: TimeSpec)

  /** The fields of a `th_timer`. */
  datatype TimerState = TimerState(begin: u64, end: u64, clockBegin: TimeSpec, clockEnd: TimeSpec)

  /** A zero-initialised `th_timer`. */
  const ZERO_TIMER := TimerState(0, 0, TimeSpec(0, 0), TimeSpec(0, 0))

  /** `th_timer_begin`: the TSC strategies store the counter in `begin`, the
      clock strategy stores the clock in `__clock_begin`; without a strategy
      nothing is stored and the call fails. */
  function BeginStep(s: Status, t: TimerState, r: Reading): (res: (TimerError, TimerState))
    ensures res.0 == NoError <==> s.InUse()
    ensures res.0 != NoError ==> res.0 == NotUseError && res.1 == t
    ensures res.1.end == t.end && res.1.clockEnd == t.clockEnd
    ensures s.Tsc() ==> res.1.begin == r.tsc && res.1.clockBegin == t.clockBegin
    ensures s == UseClockGettime ==> res.1.clockBegin == r.clock && res.1.begin == t.begin
  {
    match s
    case NotUse => (NotUseError, t)
    case UseClockGettime => (NoError, t.(clockBegin := r.clock))
    case _ => (NoError, t.(begin := r.tsc))
  }

  /** The verdict `th_timer_end` gives a timer once its readings are in. */
  function Classify(begin: u64, end: u64, overhead: u64): (e: TimerError)
    ensures e != NotUseError
    ensures e == NoBeginError <==> begin == 0
    ensures e == NoError <==> begin != 0 && begin < Sub64(end, overhead)
  {
    if begin == 0 then NoBeginError
    else if Sub64(end, overhead) > begin then NoError
    else OverflowError
  }

  /** `th_timer_end`: the TSC strategies store the counter in `end`; the clock
      strategy stores the clock in `__clock_end` and then overwrites `begin`
      and `end` with both clocks in nanoseconds; the verdict follows. */
  function EndStep(s: Status, overhead: u64, t: TimerState, r: Reading): (res: (TimerError, TimerState))
    ensures !s.InUse() ==> res == (NotUseError, t)
    ensures s.InUse() ==> res.0 == Classify(res.1.begin, res.1.end, overhead)
    ensures s.Tsc() ==> res.1 == t.(end := r.tsc)
    ensures s == UseClockGettime ==>
              res.1 == t.(clockEnd := r.clock, begin := Nanos(t.clockBegin), end := Nanos(r.clock))
  {
    match s
    case NotUse => (NotUseError, t)
    case UseClockGettime =>
      var t' := t.(clockEnd := r.clock, begin := Nanos(t.clockBegin), end := Nanos(r.clock));
      (Classify(t'.begin, t'.end, overhead), t')
    case _ =>
      var t' := t.(end := r.tsc);
      (Classify(t'.begin, t'.end, overhead), t')
  }

  /** `timer->end - __th_overhead - timer->begin` in `uint64_t`. After a
      successful end it is positive, and it is the true difference whenever
      the overhead does not exceed the end reading. */
  function Elapsed(t: TimerState, overhead: u64): (d: u64)
    ensures Classify(t.begin, t.end, overhead) == NoError ==> 0 < d
    ensures Classify(t.begin, t.end, overhead) == NoError && overhead <= t.end ==>
              d == t.end - overhead - t.begin
  {
    Sub64(Sub64(t.end, overhead), t.begin)
  }

  /** The scaling in `th_timer_end_to_time`: TSC ticks become nanoseconds as
      `diff * __NSEC_PER_SEC / __th_cpu_hz`, the product taken modulo 2^64;
      clock readings are nanoseconds already. */
  function ToNanos(s: Status, hz: u64, diff: u64): (ns: u64)
    requires s != UseClockGettime ==> 0 < hz
    ensures s == UseClockGettime ==> ns == diff
    ensures s != UseClockGettime ==> ns * hz <= Wrap64(diff * NSEC_PER_SEC) < (ns + 1) * hz
    ensures s != UseClockGettime && diff * NSEC_PER_SEC < TWO64 ==>
              ns * hz <= diff * NSEC_PER_SEC < (ns + 1) * hz
  {
    if s == UseClockGettime then diff
    else
      var scaled := Mul64(diff, NSEC_PER_SEC);
      DivBounds(scaled, hz);
      scaled / hz
  }

  /** The same scaling with the product `diff * __NSEC_PER_SEC` kept whole:
      the floor of ticks times 1e9 over the rate, for every difference. */
  function ToNanosCorrected(s: Status, hz: u64, diff: u64): (ns: nat)
    requires s != UseClockGettime ==> 0 < hz
    ensures s == UseClockGettime ==> ns == diff
    ensures s != UseClockGettime ==> ns * hz <= diff * NSEC_PER_SEC < (ns + 1) * hz
  {
    if s == UseClockGettime then diff
    else
      DivBounds(diff * NSEC_PER_SEC, hz);
      diff * NSEC_PER_SEC / hz
  }

  /** The largest TSC difference whose product with 1e9 still fits 64 bits. */
  const MAX_UNWRAPPED_TICKS: u64 := 18_446_744_073

  /** Up to 18446744073 ticks the source's scaling is exact, and one tick
      more makes the product wrap. */
  lemma ToNanosAgreesWithoutWrap(s: Status, hz: u64, diff: u64)
    requires s != UseClockGettime ==> 0 < hz
    requires diff <= MAX_UNWRAPPED_TICKS
    ensures ToNanos(s, hz, diff) == ToNanosCorrected(s, hz, diff)
    ensures (MAX_UNWRAPPED_TICKS + 1) * NSEC_PER_SEC >= TWO64
  {
    MulMonotone(diff, MAX_UNWRAPPED_TICKS, NSEC_PER_SEC);
    assert diff * NSEC_PER_SEC < TWO64;
  }

  /** Ten seconds of a 3 GHz TSC: the product 3e19 wraps past 2^64, and the
      source reports 3851085308 ns instead of 10000000000 ns. */
  lemma ScalingWrapsAfterSixSeconds()
    ensures ToNanos(UseRdtsc, 3_000_000_000, 30_000_000_000) == 3_851_085_308
    ensures ToNanosCorrected(UseRdtsc, 3_000_000_000, 30_000_000_000) == 10_000_000_000
  {
  }

  /** One measurement from scratch, as a reference for the state machine: the
      two readings the strategy selects, their verdict, and the elapsed count
      `th_timer_end_to_nsec` reports (0 on any error). */
  function Interval(s: Status, overhead: u64, b: Reading, e: Reading): (res: (TimerError, u64))
    ensures res.0 != NoError ==> res.1 == 0
    ensures res.0 == NoError ==> 0 < res.1
  {
    if !s.InUse() then (NotUseError, 0)
    else
      var first := if s.Tsc() then b.tsc else Nanos(b.clock);
      var last := if s.Tsc() then e.tsc else Nanos(e.clock);
      var err := Classify(first, last, overhead);
      (err, if err == NoError then Sub64(Sub64(last, overhead), first) else 0)
  }

  /** A begin and an end on any timer, whatever its fields held before, give
      the verdict and elapsed count of `Interval`: the state machine only
      ever looks at the readings of its own begin/end pair. */
  lemma {:induction false} BeginEndIsInterval(s: Status, overhead: u64, t: TimerState, b: Reading, e: Reading)
    requires s.InUse()
    ensures var t1 := BeginStep(s, t, b).1;
            var (err, t2) := EndStep(s, overhead, t1, e);
            (err, if err == NoError then Elapsed(t2, overhead) else 0) == Interval(s, overhead, b, e)
  {
    var t1 := BeginStep(s, t, b).1;
    var (err, t2) := EndStep(s, overhead, t1, e);
    if s.Tsc() {
      assert t2.begin == b.tsc && t2.end == e.tsc;
    } else {
      assert t2.begin == Nanos(b.clock) && t2.end == Nanos(e.clock);
    }
  }

  /** `end` on a zeroed timer always reports that no begin happened. */
  lemma FreshTimerHasNoBegin(s: Status, overhead: u64, r: Reading)
    requires s.InUse()
    ensures EndStep(s, overhead, ZERO_TIMER, r).0 == NoBeginError
  {
  }

  /** When the overhead does not exceed the end reading, a begun timer
      succeeds exactly when `end - overhead` lies strictly after `begin`, and
      overflows exactly when it does not. */
  lemma ClassifyAsInterval(begin: u64, end: u64, overhead: u64)
    requires begin != 0 && overhead <= end
    ensures Classify(begin, end, overhead) == NoError <==> begin + overhead < end
    ensures Classify(begin, end, overhead) == OverflowError <==> end <= begin + overhead
  {
  }

  /** The guard subtracts modulo 2^64: with an end reading below the overhead
      it wraps and accepts the measurement, reporting 2^64 - 90. */
  lemma WrappedGuardAccepts()
    ensures Classify(50, 60, 100) == NoError
    ensures Elapsed(TimerState(50, 60, TimeSpec(0, 0), TimeSpec(0, 0)), 100) == TWO64 - 90
  {
  }

  /** With the clock strategy, readings of (10 s, 500000000 ns) and
      (11 s, 500000000 ns) measure 1000000000 ns before any overhead. */
  lemma ClockOneSecond(tsc1: u64, tsc2: u64)
    ensures Interval(UseClockGettime, 0,
                     Reading(tsc1, TimeSpec(10, 500_000_000)),
                     Reading(tsc2, TimeSpec(11, 500_000_000))) == (NoError, 1_000_000_000)
  {
  }
}
