/** The library's process-wide state and its operations: strategy selection,
    the begin/end timer calls with their conversions, and calibration. */
module Tomahawk {
  import opened Words
  import opened Cpuid
  import opened Frequency
  import opened Clock
  import opened Timing
  import opened Calibration

  /** TSC readings taken around the one-second sleep (`begin1`, `end1`) and
      the two-second sleep (`begin2`, `end2`) of the measured-rate path. */
  datatype SleepReadings = SleepReadings(begin1: u64, end1: u64, begin2: u64, end2: u64)

  /** A begin reading and an end reading. */
  type ReadingPair = (Reading, Reading)

  /** The choice `__th_set_status` makes once it knows the rate CPUID gives:
      the clock without an invariant TSC; otherwise RDTSCP if the processor
      has it and RDTSC if not, in the measured-rate variant when that rate
      is zero. */
  function ChooseStatus(cpu: Cpu, cpuidHz: u64): Status
  {
    if !InvariantTsc(cpu) then UseClockGettime
    else if HasRdtscp(cpu) then (if cpuidHz != 0 then UseRdtscp else UseRdtscpMeas)
    else if cpuidHz != 0 then UseRdtsc else UseRdtscMeas
  }

  /** The strategy `__th_set_status` settles on, testing the rate
      `__th_get_cpu_hz_cpuid` returns with its 32-bit products. */
  function SelectStatus(cpu: Cpu): (s: Status)
    ensures s.InUse()
    ensures s == UseClockGettime <==> !InvariantTsc(cpu)
    ensures s.Serialized() <==> InvariantTsc(cpu) && HasRdtscp(cpu)
    ensures s.Measured() <==> InvariantTsc(cpu) && TscHzAsWritten(cpu) == 0
  {
    ChooseStatus(cpu, TscHzAsWritten(cpu))
  }

  /** The same choice made on the nominal rate, with its products in 64 bits. */
  function SelectStatusCorrected(cpu: Cpu): (s: Status)
    ensures s.InUse()
    ensures s == UseClockGettime <==> !InvariantTsc(cpu)
    ensures s.Serialized() <==> InvariantTsc(cpu) && HasRdtscp(cpu)
    ensures s.Measured() <==> InvariantTsc(cpu) && TscHz(cpu) == 0
  {
    ChooseStatus(cpu, TscHz(cpu))
  }

  /** The strategies that take their rate from CPUID are chosen exactly when
      there is an invariant TSC and CPUID gives a non-zero rate. */
  lemma CpuidStrategyHasRate(cpu: Cpu)
    ensures (SelectStatus(cpu) == UseRdtscp || SelectStatus(cpu) == UseRdtsc) <==>
              InvariantTsc(cpu) && TscHzAsWritten(cpu) != 0
    ensures (SelectStatusCorrected(cpu) == UseRdtscp || SelectStatusCorrected(cpu) == UseRdtsc) <==>
              InvariantTsc(cpu) && TscHz(cpu) != 0
  {
  }

  /** Where no 32-bit product wraps, the source picks the intended strategy. */
  lemma SelectionAgreesWithoutWrap(cpu: Cpu)
    requires CrystalHz(cpu) * Numerator(cpu) < TWO32
    requires BaseMhz(cpu) * HZ_PER_MHZ < TWO32
    ensures SelectStatus(cpu) == SelectStatusCorrected(cpu)
  {
    AsWrittenIsNominalWithoutWrap(cpu);
  }

  /** An invariant TSC, no RDTSCP, and leaf 15H = (1, 0x10000, 0x10000): a
      4294967296 Hz TSC whose 32-bit product wraps to exactly zero. */
  const FLIP_CPU: Cpu := map[
    0 := Regs(0x16, 0, 0, 0),
    LEAF_TSC := Regs(1, 0x1_0000, 0x1_0000, 0),
    EXTENDED := Regs(LEAF_POWER, 0, 0, 0),
    LEAF_POWER := Regs(0, 0, 0, 0x100)]

  /** The wrapped rate reads as "no rate", so the source falls back to
      measuring a TSC whose rate CPUID does give. */
  lemma StrategyFlips()
    ensures SelectStatus(FLIP_CPU) == UseRdtscMeas
    ensures SelectStatusCorrected(FLIP_CPU) == UseRdtsc
    ensures TscHz(FLIP_CPU) == 0x1_0000_0000
  {
    assert GetCpuid(FLIP_CPU, LEAF_POWER) == Some(Regs(0, 0, 0, 0x100));
    assert GetCpuid(FLIP_CPU, LEAF_EXT_FEATURES) == Some(Regs(0, 0, 0, 0));
    assert GetCpuid(FLIP_CPU, LEAF_TSC) == Some(Regs(1, 0x1_0000, 0x1_0000, 0));
  }

  /** The elapsed counts a calibration collects: sample `i` is what a
      begin/end pair on the readings `samples[i]` reports. */
  function CalibrationSamples(s: Status, overhead: u64, samples: seq<ReadingPair>): seq<u64>
  {
    seq(|samples|, i requires 0 <= i < |samples| => Interval(s, overhead, samples[i].0, samples[i].1).1)
  }

  /** `th_timer`: a caller-owned timer, updated in place by begin and end. */
  class Timer {
    var begin: u64
    var end: u64
    var clockBegin: TimeSpec
    var clockEnd: TimeSpec

    /** A zero-initialised timer. */
    constructor ()
      ensures State() == ZERO_TIMER
    {
      begin, end := 0, 0;
      clockBegin, clockEnd := TimeSpec(0, 0), TimeSpec(0, 0);
    }

    function State(): TimerState
      reads this
    {
      TimerState(begin, end, clockBegin, clockEnd)
    }
  }

  /** The statics `__th_status`, `__th_cpu_hz` and `__th_overhead`. */
  class Runtime {
    var status: Status
    var cpuHz: u64
    var overhead: u64

    /** The statics as the program starts, before the startup hook runs. */
    constructor ()
      ensures status == NotUse && cpuHz == 0 && overhead == 0
    {
      status, cpuHz, overhead := NotUse, 0, 0;
    }

    /** `th_status` */
    function CurrentStatus(): (s: Status)
      reads this
      ensures s == status
    {
      status
    }

    /** `th_overhead` */
    function Overhead(): (o: u64)
      reads this
      ensures o == overhead
    {
      overhead
    }

    /** `__th_set_status`: probe the processor, choose the strategy, and
        resolve the TSC rate, from CPUID or, failing that, by measurement.
        Without an invariant TSC the rate is left as it was. */
    method SetStatus(cpu: Cpu, sleep: SleepReadings)
      modifies this
      ensures status == SelectStatus(cpu)
      ensures !InvariantTsc(cpu) ==> cpuHz == old(cpuHz)
      ensures status.Tsc() && !status.Measured() ==> cpuHz == TscHzAsWritten(cpu) && cpuHz != 0
      ensures status.Measured() ==> cpuHz == MeasuredHz(sleep.begin1, sleep.end1, sleep.begin2, sleep.end2)
      ensures overhead == old(overhead)
    {
      var power := GetCpuid(cpu, LEAF_POWER);
      if power.None? || !BitSet(power.value.edx, INVARIANT_TSC_BIT) {
        status := UseClockGettime;
        return;
      }
      var features := GetCpuid(cpu, LEAF_EXT_FEATURES);
      if features.None? || !BitSet(features.value.edx, RDTSCP_BIT) {
        status := UseRdtsc;
      } else {
        status := UseRdtscp;
      }
      cpuHz := TscHzAsWritten(cpu);
      if cpuHz == 0 {
        status := if status == UseRdtscp then UseRdtscpMeas else UseRdtscMeas;
        cpuHz := MeasuredHz(sleep.begin1, sleep.end1, sleep.begin2, sleep.end2);
      }
    }

    /** `th_timer_begin` */
    method Begin(t: Timer, r: Reading) returns (err: TimerError)
      modifies t
      ensures (err, t.State()) == BeginStep(status, old(t.State()), r)
    {
      match status {
        case NotUse =>
          return NotUseError;
        case UseClockGettime =>
          t.clockBegin := r.clock;
        case _ =>
          t.begin := r.tsc;
      }
      return NoError;
    }

    /** `th_timer_end` */
    method End(t: Timer, r: Reading) returns (err: TimerError)
      modifies t
      ensures (err, t.State()) == EndStep(status, overhead, old(t.State()), r)
    {
      match status {
        case NotUse =>
          return NotUseError;
        case UseClockGettime =>
          t.clockEnd := r.clock;
          t.begin := Nanos(t.clockBegin);
          t.end := Nanos(t.clockEnd);
        case _ =>
          t.end := r.tsc;
      }
      if t.begin == 0 {
        return NoBeginError;
      }
      return if Sub64(t.end, overhead) > t.begin then NoError else OverflowError;
    }

    /** `th_timer_end_to_time`: end the timer; on success split the elapsed
        count, scaled to nanoseconds for a TSC strategy, into `tp`; on an
        error return it and leave `tp` as it was. */
    method EndToTime(t: Timer, r: Reading, tp: TimeSpec) returns (err: TimerError, tp': TimeSpec)
      requires status.Tsc() ==> 0 < cpuHz
      modifies t
      ensures (err, t.State()) == EndStep(status, overhead, old(t.State()), r)
      ensures err != NoError ==> tp' == tp
      ensures err == NoError ==> tp' == Split(ToNanos(status, cpuHz, Elapsed(t.State(), overhead)))
      ensures err == NoError ==> Normalized(tp')
    {
      err := End(t, r);
      if err != NoError {
        return err, tp;
      }
      var diff := Sub64(Sub64(t.end, overhead), t.begin);
      if status != UseClockGettime {
        diff := ToNanos(status, cpuHz, diff);
      }
      tp' := Split(diff);
    }

    /** `th_timer_end_to_nsec`: end the timer and return the elapsed count,
        or 0 on any error. */
    method EndToNsec(t: Timer, r: Reading) returns (ns: u64)
      modifies t
      ensures var (err, t') := EndStep(status, overhead, old(t.State()), r);
              t.State() == t' && ns == (if err == NoError then Elapsed(t', overhead) else 0)
    {
      var err := End(t, r);
      if err != NoError {
        return 0;
      }
      ns := Sub64(Sub64(t.end, overhead), t.begin);
    }

    /** `__th_timer_calibrate` with the relative error left at its integer
        input: a sanity begin/end pair, two warm-up pairs, then one pair per
        sample. A failing sanity pair disables the library and keeps the
        overhead; otherwise the overhead becomes the truncated mean of the
        samples, and the sum of their squared deviations from it is returned. */
    method Calibrate(sanity: ReadingPair, warmup: seq<ReadingPair>, samples: seq<ReadingPair>)
      returns (deviations: Option<u64>)
      requires |warmup| == 2 && |samples| == TIMES
      modifies this
      ensures cpuHz == old(cpuHz)
      ensures Interval(old(status), old(overhead), sanity.0, sanity.1).0 != NoError ==>
                status == NotUse && overhead == old(overhead) && deviations == None
      ensures Interval(old(status), old(overhead), sanity.0, sanity.1).0 == NoError ==>
                var xs := CalibrationSamples(old(status), old(overhead), samples);
                status == old(status) && overhead == Mean(xs) &&
                deviations == Some(Wrap64(SquaredDeviations(xs, overhead)))
    {
      var timer := new Timer();
      var err := Begin(timer, sanity.0);
      if err == NoError {
        BeginEndIsInterval(status, overhead, ZERO_TIMER, sanity.0, sanity.1);
        err := End(timer, sanity.1);
      }
      if err != NoError {
        status := NotUse;
        return None;
      }
      err := Begin(timer, warmup[0].0);
      err := End(timer, warmup[0].1);
      err := Begin(timer, warmup[1].0);
      err := End(timer, warmup[1].1);

      var results, total := TakeSamples(timer, samples);
      DivAtMost(total, TIMES);
      overhead := total / TIMES;
      total := SumSquaredDeviations(results, overhead);
      return Some(total);
    }

    /** The first calibration loop: one begin/end pair per sample, the
        elapsed counts stored in `results` and added up in `uint64_t`. */
    method TakeSamples(timer: Timer, samples: seq<ReadingPair>) returns (results: array<u64>, total: u64)
      requires status.InUse() && |samples| == TIMES
      modifies timer
      ensures fresh(results)
      ensures results[..] == CalibrationSamples(status, overhead, samples)
      ensures total == Wrap64(Sum(results[..]))
    {
      ghost var xs := CalibrationSamples(status, overhead, samples);
      results := new u64[TIMES];
      total := 0;
      for i := 0 to TIMES
        invariant results[..i] == xs[..i]
        invariant total == Wrap64(Sum(results[..i]))
      {
        ghost var before := results[..i];
        var ns := Measure(timer, samples[i]);
        assert ns == xs[i];
        results[i] := ns;
        assert results[..i + 1] == before + [ns];
        SumAppend(before, ns);
        Wrap64Add(Sum(before), ns);
        total := Wrap64(total + ns);
      }
      assert results[..] == results[..TIMES];
    }

    /** The body of the first calibration loop: `th_timer_begin` followed by
        `th_timer_end_to_nsec`, which yields what `Interval` says of the pair
        whatever the timer held before. */
    method Measure(timer: Timer, pair: ReadingPair) returns (ns: u64)
      requires status.InUse()
      modifies timer
      ensures ns == Interval(status, overhead, pair.0, pair.1).1
    {
      BeginEndIsInterval(status, overhead, timer.State(), pair.0, pair.1);
      ghost var begun := BeginStep(status, timer.State(), pair.0).1;
      var _ := Begin(timer, pair.0);
      assert timer.State() == begun;
      ns := EndToNsec(timer, pair.1);
    }

    /** The second calibration loop: the squares of the distances between
        each sample and the overhead, added up in `uint64_t`. */
    static method SumSquaredDeviations(results: array<u64>, mean: u64) returns (total: u64)
      ensures total == Wrap64(SquaredDeviations(results[..], mean))
    {
      total := 0;
      for i := 0 to results.Length
        invariant total == Wrap64(SquaredDeviations(results[..i], mean))
      {
        var diff := if results[i] > mean then results[i] - mean else mean - results[i];
        assert results[..i + 1] == results[..i] + [results[i]];
        SquaredDeviationsAppend(results[..i], results[i], mean);
        Wrap64Add(SquaredDeviations(results[..i], mean), Mul64(diff, diff));
        total := Wrap64(total + Mul64(diff, diff));
      }
      assert results[..] == results[..results.Length];
    }

    /** The startup hook: select the strategy, then calibrate. */
    method Init(cpu: Cpu, sleep: SleepReadings, sanity: ReadingPair, warmup: seq<ReadingPair>, samples: seq<ReadingPair>)
      returns (deviations: Option<u64>)
      requires |warmup| == 2 && |samples| == TIMES
      modifies this
      ensures status == NotUse || status == SelectStatus(cpu)
      ensures status == NotUse <==> Interval(SelectStatus(cpu), old(overhead), sanity.0, sanity.1).0 != NoError
      ensures !InvariantTsc(cpu) ==> cpuHz == old(cpuHz)
      ensures SelectStatus(cpu).Tsc() && !SelectStatus(cpu).Measured() ==> cpuHz == TscHzAsWritten(cpu) && cpuHz != 0
      ensures SelectStatus(cpu).Measured() ==> cpuHz == MeasuredHz(sleep.begin1, sleep.end1, sleep.begin2, sleep.end2)
      ensures Interval(SelectStatus(cpu), old(overhead), sanity.0, sanity.1).0 != NoError ==>
                overhead == old(overhead) && deviations == None
      ensures Interval(SelectStatus(cpu), old(overhead), sanity.0, sanity.1).0 == NoError ==>
                var xs := CalibrationSamples(SelectStatus(cpu), old(overhead), samples);
                overhead == Mean(xs) && deviations == Some(Wrap64(SquaredDeviations(xs, overhead)))
    {
      SetStatus(cpu, sleep);
      deviations := Calibrate(sanity, warmup, samples);
    }
  }
}
