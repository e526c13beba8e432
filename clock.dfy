/** CLOCK_MONOTONIC readings and their conversion to and from nanoseconds. */
module Clock {
  import opened Words

  const NSEC_PER_SEC: u64 := 1_000_000_000

  /** `struct timespec`: seconds and nanoseconds, both 64-bit signed. */
  datatype TimeSpec = TimeSpec(sec: i64, nsec: i64)

  /** A reading the monotonic clock can give: no negative seconds, and
      nanoseconds below one second. */
  predicate Normalized(ts: TimeSpec)
  {
    0 <= ts.sec && 0 <= ts.nsec < NSEC_PER_SEC
  }

  /** `tv_sec * __NSEC_PER_SEC + tv_nsec`: both fields convert to `uint64_t`,
      so the product and the sum are taken modulo 2^64. */
  function Nanos(ts: TimeSpec): (ns: u64)
    ensures ns == (ts.sec * NSEC_PER_SEC + ts.nsec) % TWO64
  {
    var s, n := Wrap64(ts.sec), Wrap64(ts.nsec);
    var ks, kn := ts.sec / TWO64, ts.nsec / TWO64;
    var p := Mul64(s, NSEC_PER_SEC);
    var kp := (s * NSEC_PER_SEC) / TWO64;
    var r := Wrap64(p + n);
    var kr := (p + n) / TWO64;
    assert ts.sec == ks * TWO64 + s && ts.nsec == kn * TWO64 + n;
    assert s * NSEC_PER_SEC == kp * TWO64 + p;
    assert p + n == kr * TWO64 + r;
    assert ts.sec * NSEC_PER_SEC == ks * NSEC_PER_SEC * TWO64 + s * NSEC_PER_SEC;
    ModUnique(ts.sec * NSEC_PER_SEC + ts.nsec, ks * NSEC_PER_SEC + kn + kp + kr, r, TWO64);
    r
  }

  /** `tp->tv_sec = diff / __NSEC_PER_SEC` and `tp->tv_nsec = diff - tp->tv_sec
      * __NSEC_PER_SEC`: whole seconds and the nanoseconds left over. */
  function Split(diff: u64): (ts: TimeSpec)
    ensures Normalized(ts)
    ensures ts.sec * NSEC_PER_SEC + ts.nsec == diff
  {
    DivBounds(diff, NSEC_PER_SEC);
    var sec := diff / NSEC_PER_SEC;
    TimeSpec(sec, diff - sec * NSEC_PER_SEC)
  }

  /** Splitting loses nothing: the nanosecond count of the split is the count. */
  lemma NanosOfSplit(diff: u64)
    ensures Nanos(Split(diff)) == diff
  {
  }

  /** A normalized reading whose count fits 64 bits splits back into itself. */
  lemma {:induction false} SplitOfNanos(ts: TimeSpec)
    requires Normalized(ts)
    requires ts.sec * NSEC_PER_SEC + ts.nsec < TWO64
    ensures Split(Nanos(ts)) == ts
  {
    var ns := ts.sec * NSEC_PER_SEC + ts.nsec;
    assert Nanos(ts) == ns;
    var q := ns / NSEC_PER_SEC;
    assert ns == q * NSEC_PER_SEC + ns % NSEC_PER_SEC;
    ModUnique(ns, ts.sec, ts.nsec, NSEC_PER_SEC);
    assert (ts.sec - q) * NSEC_PER_SEC == 0;
  }

  /** Readings of (10 s, 500000000 ns) and (11 s, 500000000 ns) are exactly one
      second of nanoseconds apart. */
  lemma OneSecondApart()
    ensures Nanos(TimeSpec(11, 500_000_000)) - Nanos(TimeSpec(10, 500_000_000)) == 1_000_000_000
  {
  }
}
