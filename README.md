# Tomahawk timer core in Dafny

This is a model of the decision and arithmetic core of `tomahawk.h`, a single-header
x86 timing library. The library picks a timing strategy from CPUID feature bits: the
time stamp counter (TSC), ended with RDTSCP or with RDTSC, and with its rate read from
CPUID or measured; or `clock_gettime(CLOCK_MONOTONIC)`. It resolves the TSC rate and
runs a begin/end timer state machine that reports errors for "not in use", "no begin"
and "overflow". It converts elapsed counts to nanoseconds and to a `timespec`. It
calibrates the fixed overhead of a begin/end pair from one million samples.

Hardware and OS reads are parameters:
- CPUID is a map from leaf to the four registers. A leaf not in the map answers zeros.
- Each begin or end call gets a `Reading`: the TSC value and the CLOCK_MONOTONIC value at
  that moment. The call uses whichever one its strategy selects.
- The measured-rate path gets the four TSC readings around its two sleeps.

All C integer widths are explicit. `unsigned int` is `u32`, `uint64_t` is `u64`, and every
subtraction, product and truncating assignment of the modelled operations wraps the way the C
code does. The corrected rate and strategy selection of "## Findings" are separate functions
beside the as-written ones, and the runtime uses the as-written ones.

Modules:
- `Words`: the fixed-width types and their wrap-around arithmetic.
- `Cpuid`: registers, the `__get_cpuid` fallback, and the invariant-TSC and RDTSCP feature bits.
- `Frequency`: the leaf 15H/16H rate (as written and corrected) and the measured rate.
- `Clock`: `timespec` to nanoseconds and back.
- `Timing`: statuses, error codes, timer fields, and the begin/end step functions.
- `Calibration`: the truncated mean and the squared-deviation sum.
- `Tomahawk`: the `Timer` class and the `Runtime` class, which holds the globals
  `__th_status`, `__th_cpu_hz` and `__th_overhead`, with methods for set-status,
  begin, end, the two conversions, calibration and the startup hook.

## Model

| member | source | states |
|---|---|---|
| `Words.Wrap32` | tomahawk.h:213-216 | converting to `unsigned int` keeps the value modulo 2^32 and leaves values below 2^32 as they are |
| `Words.Wrap64` | tomahawk.h:306-307 | converting to `uint64_t` keeps the value modulo 2^64 and leaves values below 2^64 as they are |
| `Words.Sub32` | tomahawk.h:228 | 32-bit unsigned subtraction is the difference, plus 2^32 when it would be negative |
| `Words.Sub64` | tomahawk.h:315 | 64-bit unsigned subtraction is the difference, plus 2^64 when it would be negative |
| `Words.Mul32` | tomahawk.h:203 | a 32-bit unsigned product agrees with the true product modulo 2^32, and is the true product whenever that fits 32 bits |
| `Words.Mul64` | tomahawk.h:328 | a 64-bit unsigned product agrees with the true product modulo 2^64, and is the true product whenever that fits 64 bits |
| `Words.BitSet` | tomahawk.h:252 | `x & (1U << k)` is non-zero exactly when bit k of x is one, for the two bits the library tests (8 and 27) |
| `Cpuid.RangeBase` | tomahawk.h:36 | `leaf & 0x80000000` is 0 for a basic leaf and 0x80000000 for an extended one |
| `Cpuid.GetCpuid` | tomahawk.h:31-44 | a basic leaf is supported iff leaf 0 reports a non-zero maximum of at least that leaf; an extended leaf is supported iff leaf 0x80000000 reports a maximum of at least that leaf; a supported leaf yields that leaf's registers |
| `Cpuid.SupportedBelow` | tomahawk.h:39 | a supported leaf makes every leaf of its range below it supported |
| `Cpuid.InvariantTsc` | tomahawk.h:252 | the invariant TSC is present exactly when the extended range reaches leaf 0x80000007 and bit 8 of its EDX is one |
| `Cpuid.HasRdtscp` | tomahawk.h:257 | RDTSCP is present exactly when the extended range reaches leaf 0x80000001 and bit 27 of its EDX is one |
| `Frequency.TscHzAsWritten` | tomahawk.h:180-208 | the source's rate is below 2^32; it is 0 when leaf 15H is unsupported or its numerator or denominator is 0, and when the crystal is 0 and leaf 16H is unsupported |
| `Frequency.AsWrittenCrystalless` | tomahawk.h:198-204 | with no crystal value, the source returns base MHz times 1000000 modulo 2^32 |
| `Frequency.AsWrittenRatio` | tomahawk.h:206-207 | with a crystal value, the source returns (crystal times numerator modulo 2^32) divided by the denominator, truncated |
| `Frequency.TscHz` | tomahawk.h:180-208 | the corrected rate is non-zero only when leaf 15H reports a ratio; with a crystal it is the floor of crystal times numerator over denominator; without one it is the base frequency in Hz, or 0 when leaf 16H is unsupported |
| `Frequency.AsWrittenIsNominalWithoutWrap` | tomahawk.h:203-207 | whenever neither 32-bit product wraps, the source's rate equals the corrected rate |
| `Frequency.CrystalProductWraps` | tomahawk.h:207 | a 24 MHz crystal at ratio 216/2 gives 444516352 Hz as written and 2592000000 Hz corrected |
| `Frequency.BaseProductWraps` | tomahawk.h:203 | a 5000 MHz base frequency gives 705032704 Hz as written and 5000000000 Hz corrected |
| `Frequency.MeasuredHz` | tomahawk.h:210-244 | the measured rate is formed in `unsigned int` from the low 32 bits of the four readings, so it is below 2^32 |
| `Frequency.MeasuredHzCancels` | tomahawk.h:228-243 | the measured rate is the two-second delta minus the one-second delta, modulo 2^32, and exactly that difference when it lies in [0, 2^32) |
| `Clock.Nanos` | tomahawk.h:306-307 | a `timespec` becomes `sec * 1e9 + nsec` modulo 2^64 |
| `Clock.Split` | tomahawk.h:330-331 | the split has nanoseconds in [0, 1e9) and seconds times 1e9 plus nanoseconds equal to the input |
| `Clock.NanosOfSplit` | tomahawk.h:330-331 | converting a split back to nanoseconds gives the original count |
| `Clock.SplitOfNanos` | tomahawk.h:306-307 | a normalized reading whose count fits 64 bits splits back into itself |
| `Clock.OneSecondApart` | tomahawk.h:306-307 | readings (10, 500000000) and (11, 500000000) are exactly 1000000000 ns apart |
| `Timing.Status.Code` | tomahawk.h:47-55 | the enumerator values run from 0 to 5, and the value is 0 exactly for NOT_USE |
| `Timing.TimerError.Code` | tomahawk.h:57-63 | the enumerator values run from 0 to 3, and the value is 0 exactly for NO_ERROR, so a non-zero test means failure |
| `Timing.BeginStep` | tomahawk.h:270-289 | begin succeeds exactly when a strategy is in use; otherwise it returns NOT_USE_ERROR and leaves the timer unchanged; TSC strategies set only `begin`, the clock strategy sets only `__clock_begin` |
| `Timing.Classify` | tomahawk.h:313-315 | NO_BEGIN exactly when `begin == 0`; NO_ERROR exactly when `begin != 0` and `(end - overhead) mod 2^64 > begin`; OVERFLOW otherwise; never NOT_USE |
| `Timing.EndStep` | tomahawk.h:291-316 | without a strategy, end returns NOT_USE_ERROR and leaves the timer unchanged; TSC strategies set `end`; the clock strategy sets `__clock_end` and overwrites `begin` and `end` with both clocks in nanoseconds; the verdict is `Classify` of the new fields |
| `Timing.Elapsed` | tomahawk.h:325 | after a successful end, `end - overhead - begin` is positive, and it is the true difference when the overhead does not exceed `end` |
| `Timing.ToNanos` | tomahawk.h:326-329 | the clock strategy keeps the count; a TSC strategy's result is the floor of (ticks times 1e9 modulo 2^64) over the rate, which is the floor of ticks times 1e9 over the rate whenever that product fits 64 bits |
| `Timing.ToNanosCorrected` | tomahawk.h:326-329 | the intended scaling: the floor of ticks times 1e9 over the rate for every difference, with the product kept whole |
| `Timing.ToNanosAgreesWithoutWrap` | tomahawk.h:328 | up to 18446744073 ticks the source's scaling equals the intended one, and 18446744074 ticks make the product reach 2^64 |
| `Timing.ScalingWrapsAfterSixSeconds` | tomahawk.h:328 | ten seconds at 3 GHz (30000000000 ticks) scale to 3851085308 ns as written and 10000000000 ns as intended |
| `Timing.Interval` | tomahawk.h:335-341 | a begin/end pair from scratch reports 0 on any error and a positive count on success |
| `Timing.BeginEndIsInterval` | tomahawk.h:270-316 | begin then end on a timer in any prior state gives the verdict and elapsed count of `Interval`, which depend only on the pair's readings |
| `Timing.FreshTimerHasNoBegin` | tomahawk.h:313-314 | end on a zeroed timer reports NO_BEGIN under every strategy in use |
| `Timing.ClassifyAsInterval` | tomahawk.h:315 | when overhead <= end, a begun timer succeeds iff `begin + overhead < end`, and overflows iff `end <= begin + overhead` |
| `Timing.WrappedGuardAccepts` | tomahawk.h:315 | the guard is modular: begin 50, end 60, overhead 100 passes and reports 2^64 - 90 |
| `Timing.ClockOneSecond` | tomahawk.h:304-307 | under the clock strategy, readings (10, 500000000) and (11, 500000000) measure 1000000000 ns with no overhead |
| `Calibration.Mean` | tomahawk.h:363 | the overhead is the floor of the 64-bit wrapped total over the count; when the total fits, it is the mean rounded down |
| `Calibration.Deviation` | tomahawk.h:367-368 | the deviation is the distance between sample and mean, and 0 exactly when they are equal |
| `Calibration.Sum` | tomahawk.h:361 | the exact sum of the samples, which no single sample exceeds |
| `Calibration.SumZero` | tomahawk.h:361 | the sum is zero exactly when every sample is zero |
| `Calibration.SquaredDeviations` | tomahawk.h:365-370 | the sum of the squared deviations, each square wrapped to 64 bits; no single wrapped square exceeds it |
| `Calibration.SumBounds` | tomahawk.h:357-362 | samples in [lo, hi] sum to between count times lo and count times hi |
| `Calibration.TotalFits` | tomahawk.h:361 | a million samples each below 2^64 / 1000000 never wrap the running total |
| `Calibration.MeanWithinSamples` | tomahawk.h:363 | when the total does not wrap, the overhead lies within any bounds on the samples |
| `Calibration.SquaredDeviationsZero` | tomahawk.h:365-370 | equal samples give a zero deviation sum; a zero sum means all samples equal the overhead, unless some deviation reaches 2^32 |
| `Tomahawk.SelectStatus` | tomahawk.h:246-268 | the selected status is never NOT_USE; it is CLOCK_GETTIME iff there is no invariant TSC, an RDTSCP variant iff there is an invariant TSC and RDTSCP, and a `_MEAS` variant iff there is an invariant TSC and the rate `__th_get_cpu_hz_cpuid` returns, with its 32-bit products, is 0 |
| `Tomahawk.SelectStatusCorrected` | tomahawk.h:246-268 | the same choice made on the corrected 64-bit rate: `_MEAS` iff there is an invariant TSC and the nominal rate is 0 |
| `Tomahawk.CpuidStrategyHasRate` | tomahawk.h:257-265 | RDTSCP or RDTSC without `_MEAS` is chosen exactly when there is an invariant TSC and the as-written CPUID rate is non-zero, and likewise for the corrected selection and rate |
| `Tomahawk.SelectionAgreesWithoutWrap` | tomahawk.h:261-265 | whenever neither 32-bit product of the rate wraps, the source's selection equals the corrected one |
| `Tomahawk.StrategyFlips` | tomahawk.h:261-265 | leaf 15H = (1, 0x10000, 0x10000) with an invariant TSC and no RDTSCP makes the source choose RDTSC_MEAS, while the corrected selection chooses RDTSC at 4294967296 Hz |
| `Tomahawk.Timer.constructor` | tomahawk.h:65-71 | a new timer has all fields zero |
| `Tomahawk.Runtime.constructor` | tomahawk.h:73-82 | the globals start as NOT_USE, 0 Hz and 0 overhead |
| `Tomahawk.Runtime.CurrentStatus` | tomahawk.h:382-386 | `th_status` returns the current status and changes nothing |
| `Tomahawk.Runtime.Overhead` | tomahawk.h:388-392 | `th_overhead` returns the calibrated overhead and changes nothing |
| `Tomahawk.Runtime.SetStatus` | tomahawk.h:246-268 | the status becomes `SelectStatus`; without an invariant TSC the rate is untouched; a CPUID strategy stores the non-zero rate `__th_get_cpu_hz_cpuid` returns as written; a `_MEAS` strategy stores the measured rate; the overhead is unchanged |
| `Tomahawk.Runtime.Begin` | tomahawk.h:270-289 | updates the timer and returns the error as `BeginStep` says |
| `Tomahawk.Runtime.End` | tomahawk.h:291-316 | updates the timer and returns the error as `EndStep` says |
| `Tomahawk.Runtime.EndToTime` | tomahawk.h:318-333 | returns the error from end and leaves `tp` unchanged on failure; on success `tp` is the normalized split of the scaled elapsed count |
| `Tomahawk.Runtime.EndToNsec` | tomahawk.h:335-341 | returns 0 on any error from end, and the unscaled `end - overhead - begin` otherwise |
| `Tomahawk.Runtime.Calibrate` | tomahawk.h:343-372 | a failed sanity pair sets NOT_USE and keeps the overhead; otherwise the status is kept, the overhead becomes the truncated mean of the samples, and the squared-deviation sum is returned; the rate is never touched |
| `Tomahawk.Runtime.TakeSamples` | tomahawk.h:357-362 | fills a new array with each pair's count and returns their wrapped 64-bit total |
| `Tomahawk.Runtime.Measure` | tomahawk.h:359-360 | begin then end-to-nsec yields the pair's `Interval` count, whatever the timer held before |
| `Tomahawk.Runtime.SumSquaredDeviations` | tomahawk.h:365-370 | returns the 64-bit wrapped sum of each sample's squared deviation, each square also wrapped |
| `Tomahawk.Runtime.Init` | tomahawk.h:375-380 | after the startup hook the status is the selected one, or NOT_USE exactly when the sanity pair fails under it; the rate is what set-status stores; on a failed sanity pair the overhead is kept and no deviations are returned, otherwise the overhead is the truncated mean of the samples and their squared-deviation sum is returned |

## Findings

| source | as written | input that shows it | evidently intended | confidence | as-written member | corrected member |
|---|---|---|---|---|---|---|
| tomahawk.h:207 | `ecx_crystal_hz * ebx_numerator` is computed in 32-bit `unsigned int`, so it wraps before the division | leaf 15H = (EAX 2, EBX 216, ECX 24000000): returns 444516352 Hz instead of 2592000000 Hz | the formula in the comment at line 206, formed in 64 bits, since the function returns `uint64_t` | not executed | `Frequency.CrystalProductWraps` | `Frequency.TscHz` |
| tomahawk.h:203 | `eax_base_mhz * 1000000` is computed in 32-bit `unsigned int` and wraps above 4294 MHz | leaf 15H = (2, 216, 0), leaf 16H EAX = 5000: returns 705032704 Hz instead of 5000000000 Hz | the base frequency in Hz, formed in 64 bits | not executed | `Frequency.BaseProductWraps` | `Frequency.TscHz` |
| tomahawk.h:261-262 | the zero test that selects the measured-rate strategy sees the wrapped 32-bit rate | invariant TSC, no RDTSCP, leaf 15H = (1, 0x10000, 0x10000): selects RDTSC_MEAS and measures, although CPUID gives 4294967296 Hz | RDTSC with the CPUID rate | not executed | `Tomahawk.StrategyFlips` | `Tomahawk.SelectStatusCorrected` |
| tomahawk.h:328 | `diff * __NSEC_PER_SEC` is a `uint64_t` product and wraps for differences of 18446744074 ticks or more (about 6.1 s at 3 GHz) | rate 3000000000 Hz, difference 30000000000 ticks (10 s): `tp` becomes 3 s 851085308 ns | 10 s, the product formed without wrapping | not executed | `Timing.ScalingWrapsAfterSixSeconds` | `Timing.ToNanosCorrected` |

`Runtime.SetStatus` and `Runtime.Init` follow the source as written: they test and store the
32-bit rate. The corrected rate is `Frequency.TscHz` and the corrected selection is
`Tomahawk.SelectStatusCorrected`. Wherever no product wraps, the as-written and corrected
versions agree (`Frequency.AsWrittenIsNominalWithoutWrap`, `Tomahawk.SelectionAgreesWithoutWrap`).
Likewise `Runtime.EndToTime` scales with the as-written `Timing.ToNanos`. The intended scaling is
`Timing.ToNanosCorrected`, and the two agree up to 18446744073 ticks (`Timing.ToNanosAgreesWithoutWrap`).

## Left out

- The inline assembly in `__TH_RDTSC_BEGIN`, `__TH_RDTSCP_END` and `__TH_RDTSC_END`, and what serializing means for the hardware. Each is modelled as a reading supplied by the caller.
- `nanosleep` and its retry loops in `__th_get_cpu_hz_meas`, and `clock_gettime`. They are OS calls. Only the delta arithmetic on the readings is kept.
- `sqrt` and the `double` relative error `__th_relative_error`, and its getter `th_relative_error`. They are floating point. `Runtime.Calibrate` returns the integer sum of squared deviations that feeds them.
- The widths are those of x86-64 (`long` and `time_t` are 64 bits). The `__i386` build of the header, whose `timespec` fields are 32 bits, is not modelled.
- The `__attribute__((constructor))` hook is not automatic here. It is the explicit method `Runtime.Init`.
- The `default:` labels of the two switches are not modelled. The status variable only ever holds one of the six enumerators, so they act only for NOT_USE.
- `Runtime.EndToTime`: requires a non-zero rate under a TSC strategy. The source divides by `__th_cpu_hz` there, and a zero rate (possible when the measured deltas cancel) is undefined behaviour in C.
- Thread safety and TSC synchronisation across cores.
- `tomahawk_test.c` is a printing demo. It calls `th_timer_end_to_us`, which `tomahawk.h` does not define.
- The calibration timer is a stack variable that is never initialised in the source. The model allocates it zeroed. This makes no difference, because every field a pair reads is written by that pair's begin and end (`Timing.BeginEndIsInterval`).
