/** The TSC frequency: read from CPUID leaves 15H and 16H (Intel 64 and IA-32
    Architectures Software Developer's Manual, Volume 3B, the section on
    determining the TSC frequency), or measured across two sleeps. */
module Frequency {
  import opened Words
  import opened Cpuid

  const HZ_PER_MHZ: u32 := 1_000_000

  /** Leaf 15H EAX: denominator of the TSC/crystal ratio. */
  function Denominator(cpu: Cpu): u32 { Raw(cpu, LEAF_TSC).eax }
  /** Leaf 15H EBX: numerator of the TSC/crystal ratio. */
  function Numerator(cpu: Cpu): u32 { Raw(cpu, LEAF_TSC).ebx }
  /** Leaf 15H ECX: nominal crystal clock in Hz, or 0 when not reported. */
  function CrystalHz(cpu: Cpu): u32 { Raw(cpu, LEAF_TSC).ecx }
  /** Leaf 16H EAX: processor base frequency in MHz. */
  function BaseMhz(cpu: Cpu): u32 { Raw(cpu, LEAF_FREQ).eax }

  /** Leaf 15H is supported and reports a ratio with neither term zero. */
  predicate RatioReported(cpu: Cpu)
  {
    Supported(cpu, LEAF_TSC) && Denominator(cpu) != 0 && Numerator(cpu) != 0
  }

  /** `__th_get_cpu_hz_cpuid` as the source has it: both products are formed
      in 32-bit `unsigned int` and wrap before the result is widened. */
  function TscHzAsWritten(cpu: Cpu): (hz: u64)
    ensures hz < TWO32
    ensures !RatioReported(cpu) ==> hz == 0
    ensures CrystalHz(cpu) == 0 && !Supported(cpu, LEAF_FREQ) ==> hz == 0
  {
    if !Supported(cpu, LEAF_TSC) then 0
    else
      var den, num, crystal := Denominator(cpu), Numerator(cpu), CrystalHz(cpu);
      if den == 0 || num == 0 then 0
      else if crystal == 0 then
        if !Supported(cpu, LEAF_FREQ) then 0 else Mul32(BaseMhz(cpu), HZ_PER_MHZ)
      else
        var product := Mul32(crystal, num);
        DivAtMost(product, den);
        product / den
  }

  /** Without a crystal value the source returns the base frequency in Hz,
      reduced modulo 2^32. */
  lemma AsWrittenCrystalless(cpu: Cpu)
    requires RatioReported(cpu) && CrystalHz(cpu) == 0 && Supported(cpu, LEAF_FREQ)
    ensures TscHzAsWritten(cpu) == (BaseMhz(cpu) * HZ_PER_MHZ) % TWO32
  {
  }

  /** With a crystal value the source returns crystal times numerator,
      reduced modulo 2^32, divided by the denominator and truncated. */
  lemma AsWrittenRatio(cpu: Cpu)
    requires RatioReported(cpu) && CrystalHz(cpu) != 0
    ensures TscHzAsWritten(cpu) == ((CrystalHz(cpu) * Numerator(cpu)) % TWO32) / Denominator(cpu)
  {
  }

  /** Two 32-bit factors never overflow 64 bits. */
  lemma ProductFits64(a: u32, b: u32)
    ensures a * b < TWO64
  {
    MulMonotone(a, TWO32 - 1, b);
    MulMonotone(b, TWO32 - 1, TWO32 - 1);
    assert a * b <= (TWO32 - 1) * b == b * (TWO32 - 1) <= (TWO32 - 1) * (TWO32 - 1);
  }

  /** The nominal TSC frequency of leaves 15H and 16H, with the products
      formed in 64 bits: crystal times numerator over denominator, truncated,
      or the base frequency in Hz for a processor that reports no crystal. */
  function TscHz(cpu: Cpu): (hz: u64)
    ensures hz != 0 ==> RatioReported(cpu)
    ensures RatioReported(cpu) && CrystalHz(cpu) != 0 ==>
              hz * Denominator(cpu) <= CrystalHz(cpu) * Numerator(cpu) < (hz + 1) * Denominator(cpu)
    ensures RatioReported(cpu) && CrystalHz(cpu) == 0 ==>
              hz == (if Supported(cpu, LEAF_FREQ) then BaseMhz(cpu) * HZ_PER_MHZ else 0)
  {
    if !Supported(cpu, LEAF_TSC) then 0
    else
      var den, num, crystal := Denominator(cpu), Numerator(cpu), CrystalHz(cpu);
      if den == 0 || num == 0 then 0
      else if crystal == 0 then
        if !Supported(cpu, LEAF_FREQ) then 0
        else
          ProductFits64(BaseMhz(cpu), HZ_PER_MHZ);
          Mul64(BaseMhz(cpu), HZ_PER_MHZ)
      else
        ProductFits64(crystal, num);
        var product := Mul64(crystal, num);
        DivBounds(product, den);
        product / den
  }

  /** Wherever no 32-bit product wraps, the source computes the nominal
      frequency exactly. */
  lemma AsWrittenIsNominalWithoutWrap(cpu: Cpu)
    requires CrystalHz(cpu) * Numerator(cpu) < TWO32
    requires BaseMhz(cpu) * HZ_PER_MHZ < TWO32
    ensures TscHzAsWritten(cpu) == TscHz(cpu)
  {
    ProductFits64(CrystalHz(cpu), Numerator(cpu));
    ProductFits64(BaseMhz(cpu), HZ_PER_MHZ);
  }

  /** A 24 MHz crystal at ratio 216/2, a 2.592 GHz TSC. */
  const CRYSTAL_CPU: Cpu := map[0 := Regs(0x16, 0, 0, 0), LEAF_TSC := Regs(2, 216, 24_000_000, 0)]

  /** 24000000 * 216 exceeds 2^32: the source reports 444516352 Hz. */
  lemma CrystalProductWraps()
    ensures TscHzAsWritten(CRYSTAL_CPU) == 444_516_352
    ensures TscHz(CRYSTAL_CPU) == 2_592_000_000
  {
    assert Raw(CRYSTAL_CPU, 0).eax == 0x16;
    assert GetCpuid(CRYSTAL_CPU, LEAF_TSC) == Some(Regs(2, 216, 24_000_000, 0));
  }

  /** No crystal value and a 5000 MHz base frequency. */
  const BASE_CPU: Cpu := map[0 := Regs(0x16, 0, 0, 0), LEAF_TSC := Regs(2, 216, 0, 0), LEAF_FREQ := Regs(5000, 0, 0, 0)]

  /** 5000 * 1000000 exceeds 2^32: the source reports 705032704 Hz. */
  lemma BaseProductWraps()
    ensures TscHzAsWritten(BASE_CPU) == 705_032_704
    ensures TscHz(BASE_CPU) == 5_000_000_000
  {
    assert Raw(BASE_CPU, 0).eax == 0x16;
    assert GetCpuid(BASE_CPU, LEAF_TSC) == Some(Regs(2, 216, 0, 0));
    assert GetCpuid(BASE_CPU, LEAF_FREQ) == Some(Regs(5000, 0, 0, 0));
  }

  /** `__th_get_cpu_hz_meas` once its sleeps are over: `b1, e1` are the TSC
      readings around the one-second sleep, `b2, e2` those around the
      two-second sleep. They land in `unsigned int` locals, so only their low
      32 bits take part, and both subtractions are 32-bit. */
  function MeasuredHz(b1: u64, e1: u64, b2: u64, e2: u64): (hz: u64)
    ensures hz < TWO32
  {
    var first := Sub32(Wrap32(e1), Wrap32(b1));
    Sub32(Sub32(Wrap32(e2), Wrap32(b2)), first)
  }

  /** The truncations cancel: the measured rate is the two-second delta less
      the one-second delta, modulo 2^32, and exactly that difference when it
      is below 2^32. */
  lemma {:induction false} MeasuredHzCancels(b1: u64, e1: u64, b2: u64, e2: u64)
    ensures MeasuredHz(b1, e1, b2, e2) == ((e2 - b2) - (e1 - b1)) % TWO32
    ensures 0 <= (e2 - b2) - (e1 - b1) < TWO32 ==> MeasuredHz(b1, e1, b2, e2) == (e2 - b2) - (e1 - b1)
  {
    var x := (e2 - b2) - (e1 - b1);
    var kb1, ke1, kb2, ke2 := b1 / TWO32, e1 / TWO32, b2 / TWO32, e2 / TWO32;
    assert b1 == kb1 * TWO32 + Wrap32(b1);
    assert e1 == ke1 * TWO32 + Wrap32(e1);
    assert b2 == kb2 * TWO32 + Wrap32(b2);
    assert e2 == ke2 * TWO32 + Wrap32(e2);
    var first := Sub32(Wrap32(e1), Wrap32(b1));
    var k1 := if Wrap32(b1) <= Wrap32(e1) then 0 else 1;
    assert first == Wrap32(e1) - Wrap32(b1) + k1 * TWO32;
    var second := Sub32(Wrap32(e2), Wrap32(b2));
    var k2 := if Wrap32(b2) <= Wrap32(e2) then 0 else 1;
    assert second == Wrap32(e2) - Wrap32(b2) + k2 * TWO32;
    var hz := Sub32(second, first);
    var k3 := if first <= second then 0 else 1;
    assert hz == second - first + k3 * TWO32;
    var k := (ke2 - kb2) - (ke1 - kb1) - k2 + k1 - k3;
    assert x == k * TWO32 + hz;
    ModUnique(x, k, hz, TWO32);
  }
}
