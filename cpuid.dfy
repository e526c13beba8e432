/** The CPU identification instruction as the timer library queries it.
    The processor is a parameter: the register values it answers per leaf. */
module Cpuid {
  import opened Words

  /** EAX, EBX, ECX and EDX as one CPUID query leaves them. */
  datatype Regs = Regs(eax: u32, ebx: u32, ecx: u32, edx: u32)

  /** What the processor answers, by leaf; a leaf it does not list answers zeros. */
  type Cpu = map<u32, Regs>

  /** First leaf of the extended range. */
  const EXTENDED: u32 := 0x8000_0000
  /** Extended processor signature and feature bits; EDX bit 27 is RDTSCP. */
  const LEAF_EXT_FEATURES: u32 := 0x8000_0001
  /** Advanced power management; EDX bit 8 is the invariant TSC. */
  const LEAF_POWER: u32 := 0x8000_0007
  /** Time stamp counter and nominal core crystal clock. */
  const LEAF_TSC: u32 := 0x15
  /** Processor frequency information; EAX is the base frequency in MHz. */
  const LEAF_FREQ: u32 := 0x16

  const RDTSCP_BIT: nat := 27
  const INVARIANT_TSC_BIT: nat := 8

  /** The CPUID instruction itself. */
  function Raw(cpu: Cpu, leaf: u32): Regs
  {
    if leaf in cpu then cpu[leaf] else Regs(0, 0, 0, 0)
  }

  /** `leaf & 0x80000000`, the first leaf of the range `leaf` lies in: for a
      32-bit value, keeping bit 31 alone is dropping the 31 bits below it. */
  function RangeBase(leaf: u32): (base: u32)
    ensures base == (if leaf < EXTENDED then 0 else EXTENDED)
  {
    leaf / 0x8000_0000 * 0x8000_0000
  }

  /** The `__get_cpuid` fallback: ask the range's first leaf for the highest
      leaf of the range, and query `leaf` only if it lies at or below it. */
  function GetCpuid(cpu: Cpu, leaf: u32): (r: Option<Regs>)
    ensures r.Some? ==> r.value == Raw(cpu, leaf)
    ensures leaf < EXTENDED ==> (r.Some? <==> 0 < Raw(cpu, 0).eax && leaf <= Raw(cpu, 0).eax)
    ensures EXTENDED <= leaf ==> (r.Some? <==> leaf <= Raw(cpu, EXTENDED).eax)
  {
    var max := Raw(cpu, RangeBase(leaf)).eax;
    if max == 0 || max < leaf then None else Some(Raw(cpu, leaf))
  }

  predicate Supported(cpu: Cpu, leaf: u32)
  {
    GetCpuid(cpu, leaf).Some?
  }

  /** A supported leaf makes every leaf between its range's first leaf and
      itself supported. */
  lemma SupportedBelow(cpu: Cpu, leaf: u32, lower: u32)
    requires Supported(cpu, leaf)
    requires RangeBase(leaf) <= lower <= leaf
    ensures Supported(cpu, lower)
  {
  }

  /** The processor has a TSC that ticks at a constant rate. */
  function InvariantTsc(cpu: Cpu): (b: bool)
    ensures b <==> LEAF_POWER <= Raw(cpu, EXTENDED).eax && (Raw(cpu, LEAF_POWER).edx / 0x100) % 2 == 1
  {
    var r := GetCpuid(cpu, LEAF_POWER);
    r.Some? && BitSet(r.value.edx, INVARIANT_TSC_BIT)
  }

  /** The processor has the RDTSCP instruction. */
  function HasRdtscp(cpu: Cpu): (b: bool)
    ensures b <==> LEAF_EXT_FEATURES <= Raw(cpu, EXTENDED).eax && (Raw(cpu, LEAF_EXT_FEATURES).edx / 0x800_0000) % 2 == 1
  {
    var r := GetCpuid(cpu, LEAF_EXT_FEATURES);
    r.Some? && BitSet(r.value.edx, RDTSCP_BIT)
  }
}
