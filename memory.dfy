/** The memory limit and usage resolvers: a fixed chain of four files, tried
    in the order v2 node, v2 root, v1 node, v1 root, where the first file that
    yields an accepted value wins. */
module CgroupMemory {
  import opened Base
  import opened Text
  import opened Numeric
  import opened Fs

  const RootMemoryMax: string := "/sys/fs/cgroup/memory.max"
  const RootMemoryCurrent: string := "/sys/fs/cgroup/memory.current"
  const RootLimitInBytes: string := "/sys/fs/cgroup/memory/memory.limit_in_bytes"
  const RootUsageInBytes: string := "/sys/fs/cgroup/memory/memory.usage_in_bytes"

  /** The v1 "no limit" value, `9223372036854771712` (2^63 - 4096): a v1 limit
      counts only below it. */
  const V1Unlimited: nat := 9223372036854771712

  /** The file layout a tier belongs to: v2 (`Unified`) or v1 (`Legacy`). */
  datatype Schema = Unified | Legacy

  /** The unlimited sentinels: v2 writes the word `max`, which fails to parse,
      and a parsed `u64::MAX` is refused too; v1 refuses from `V1Unlimited` up. */
  predicate IsUnlimited(schema: Schema, v: nat) {
    match schema
    case Unified => v >= U64Max
    case Legacy => v >= V1Unlimited
  }

  /** One step of a fallback chain: a file and the layout it belongs to. */
  datatype Tier = Tier(schema: Schema, path: string)

  /** The files `get_cgroup_memory_limit_for_path` consults, in order. */
  function LimitTiers(cgroupPath: string): seq<Tier> {
    [ Tier(Unified, UnifiedFile(cgroupPath, "memory.max")),
      Tier(Unified, RootMemoryMax),
      Tier(Legacy, ControllerFile("memory", cgroupPath, "memory.limit_in_bytes")),
      Tier(Legacy, RootLimitInBytes) ]
  }

  /** The files `get_cgroup_memory_usage_for_path` consults, in order. */
  function UsageTiers(cgroupPath: string): seq<Tier> {
    [ Tier(Unified, UnifiedFile(cgroupPath, "memory.current")),
      Tier(Unified, RootMemoryCurrent),
      Tier(Legacy, ControllerFile("memory", cgroupPath, "memory.usage_in_bytes")),
      Tier(Legacy, RootUsageInBytes) ]
  }

  /** What a tier yields: the parsed value, dropped when it is that layout's
      unlimited sentinel and `filtered` is set. */
  function TierValue(fs: FileSystem, tier: Tier, filtered: bool): Option<nat> {
    match ReadU64(fs, tier.path)
    case None => None
    case Some(v) => if filtered && IsUnlimited(tier.schema, v) then None else Some(v)
  }

  function TierValues(fs: FileSystem, tiers: seq<Tier>, filtered: bool): (vs: seq<Option<nat>>)
    ensures |vs| == |tiers|
    ensures forall i :: 0 <= i < |tiers| ==> vs[i] == TierValue(fs, tiers[i], filtered)
  {
    if tiers == [] then [] else [TierValue(fs, tiers[0], filtered)] + TierValues(fs, tiers[1..], filtered)
  }

  /** `xs[i]` is the first present value of `xs`. */
  predicate FirstPresentAt(xs: seq<Option<nat>>, i: int) {
    0 <= i < |xs| && xs[i].Some? && forall j :: 0 <= j < i ==> xs[j].None?
  }

  /** The reference resolver: the first present value of a list of tier
      results, or nothing when every tier rejects. */
  function FirstPresent(xs: seq<Option<nat>>): (r: Option<nat>)
    ensures r.None? <==> forall i :: 0 <= i < |xs| ==> xs[i].None?
    ensures r.Some? ==> exists i :: FirstPresentAt(xs, i) && xs[i] == r
  {
    if xs == [] then None
    else if xs[0].Some? then
      assert FirstPresentAt(xs, 0);
      xs[0]
    else
      FirstPresentAfterAbsent(xs);
      FirstPresent(xs[1..])
  }

  lemma FirstPresentAfterAbsent(xs: seq<Option<nat>>)
    requires xs != [] && xs[0].None?
    ensures forall i :: FirstPresentAt(xs[1..], i) ==> FirstPresentAt(xs, i + 1) && xs[i + 1] == xs[1..][i]
  {
  }

  // ------------------------------------------------------------ the chains as written

  /** `get_cgroup_memory_limit_for_path`. */
  function MemoryLimitForPath(fs: FileSystem, cgroupPath: string): (r: Option<nat>)
    ensures r.Some? ==> r.value < U64Max
  {
    var v2Node := ReadU64(fs, UnifiedFile(cgroupPath, "memory.max"));
    if v2Node.Some? && v2Node.value < U64Max then v2Node
    else
      var v2Root := ReadU64(fs, RootMemoryMax);
      if v2Root.Some? && v2Root.value < U64Max then v2Root
      else
        var v1Node := ReadU64(fs, ControllerFile("memory", cgroupPath, "memory.limit_in_bytes"));
        if v1Node.Some? && v1Node.value < V1Unlimited then v1Node
        else
          var v1Root := ReadU64(fs, RootLimitInBytes);
          if v1Root.Some? && v1Root.value < V1Unlimited then v1Root
          else None
  }

  /** `get_cgroup_memory_usage_for_path`: no sentinel is filtered. */
  function MemoryUsageForPath(fs: FileSystem, cgroupPath: string): (r: Option<nat>)
    ensures r.Some? ==> IsU64(r.value)
  {
    var v2Node := ReadU64(fs, UnifiedFile(cgroupPath, "memory.current"));
    if v2Node.Some? then v2Node
    else
      var v2Root := ReadU64(fs, RootMemoryCurrent);
      if v2Root.Some? then v2Root
      else
        var v1Node := ReadU64(fs, ControllerFile("memory", cgroupPath, "memory.usage_in_bytes"));
        if v1Node.Some? then v1Node
        else ReadU64(fs, RootUsageInBytes)
  }

  // ------------------------------------------------------------ the chains follow the tier lists

  /** The limit is the first tier's value that is not its layout's sentinel,
      in the order of `LimitTiers`. */
  lemma MemoryLimitIsFirstAcceptedTier(fs: FileSystem, cgroupPath: string)
    ensures MemoryLimitForPath(fs, cgroupPath) == FirstPresent(TierValues(fs, LimitTiers(cgroupPath), true))
  {
    var ts := LimitTiers(cgroupPath);
    var vs := TierValues(fs, ts, true);
    assert vs == [TierValue(fs, ts[0], true), TierValue(fs, ts[1], true),
                  TierValue(fs, ts[2], true), TierValue(fs, ts[3], true)];
  }

  /** The usage is the first tier's parsed value, in the order of `UsageTiers`. */
  lemma MemoryUsageIsFirstParsedTier(fs: FileSystem, cgroupPath: string)
    ensures MemoryUsageForPath(fs, cgroupPath) == FirstPresent(TierValues(fs, UsageTiers(cgroupPath), false))
  {
    var ts := UsageTiers(cgroupPath);
    var vs := TierValues(fs, ts, false);
    assert vs == [TierValue(fs, ts[0], false), TierValue(fs, ts[1], false),
                  TierValue(fs, ts[2], false), TierValue(fs, ts[3], false)];
  }

  /** The limit is absent exactly when all four tiers reject, and when present
      it comes from a tier whose predecessors all rejected. */
  lemma MemoryLimitTiers(fs: FileSystem, cgroupPath: string)
    ensures var vs := TierValues(fs, LimitTiers(cgroupPath), true);
            && (MemoryLimitForPath(fs, cgroupPath).None? <==> forall i :: 0 <= i < 4 ==> vs[i].None?)
            && (MemoryLimitForPath(fs, cgroupPath).Some? ==>
                  exists i :: FirstPresentAt(vs, i) && vs[i] == MemoryLimitForPath(fs, cgroupPath))
  {
    MemoryLimitIsFirstAcceptedTier(fs, cgroupPath);
  }

  /** An accepted v2 node limit is never replaced by a root or v1 value. */
  lemma NodeLimitWins(fs: FileSystem, cgroupPath: string, v: nat)
    requires ReadU64(fs, UnifiedFile(cgroupPath, "memory.max")) == Some(v) && v < U64Max
    ensures MemoryLimitForPath(fs, cgroupPath) == Some(v)
  {
  }

  /** A present limit is below the sentinel of the tier it came from, so never
      the unlimited value of either layout's root or node file. */
  lemma LimitIsNeverASentinel(fs: FileSystem, cgroupPath: string)
    requires MemoryLimitForPath(fs, cgroupPath).Some?
    ensures exists i :: 0 <= i < 4 && !IsUnlimited(LimitTiers(cgroupPath)[i].schema, MemoryLimitForPath(fs, cgroupPath).value)
                        && ReadU64(fs, LimitTiers(cgroupPath)[i].path) == MemoryLimitForPath(fs, cgroupPath)
  {
    MemoryLimitIsFirstAcceptedTier(fs, cgroupPath);
    var vs := TierValues(fs, LimitTiers(cgroupPath), true);
    var i :| FirstPresentAt(vs, i) && vs[i] == MemoryLimitForPath(fs, cgroupPath);
    assert vs[i] == TierValue(fs, LimitTiers(cgroupPath)[i], true);
  }

  // ------------------------------------------------------------ sentinels and kernel values

  /** A limit file holding the word `max` is rejected in that tier. */
  lemma MaxFileRejected(fs: FileSystem, path: string)
    requires ReadToString(fs, path) == Some("max\n")
    ensures ReadU64(fs, path) == None
  {
    TrimFramed([], "max", "\n");
    assert [] + "max" + "\n" == "max\n";
    MaxIsNotANumber();
  }

  lemma KernelValueReads(fs: FileSystem, path: string, v: nat)
    requires IsU64(v) && ReadToString(fs, path) == Some(Decimal(v) + "\n")
    ensures ReadU64(fs, path) == Some(v)
  {
    IntTextIsWord(v);
    assert IntText(v) == Decimal(v);
    TrimFramed([], Decimal(v), "\n");
    assert [] + Decimal(v) + "\n" == Decimal(v) + "\n";
    ParseU64OfDecimal(v);
  }

  /** `max` at the v2 node and at the v2 root means the v1 files decide. */
  lemma UnlimitedV2DefersToV1(fs: FileSystem, cgroupPath: string)
    requires ReadToString(fs, UnifiedFile(cgroupPath, "memory.max")) == Some("max\n")
    requires ReadToString(fs, RootMemoryMax) == Some("max\n")
    ensures MemoryLimitForPath(fs, cgroupPath) == FirstPresent(TierValues(fs, LimitTiers(cgroupPath)[2..], true))
  {
    MaxFileRejected(fs, UnifiedFile(cgroupPath, "memory.max"));
    MaxFileRejected(fs, RootMemoryMax);
    var ts := LimitTiers(cgroupPath)[2..];
    var vs := TierValues(fs, ts, true);
    assert vs == [TierValue(fs, ts[0], true), TierValue(fs, ts[1], true)];
  }

  /** The v1 unlimited value written by the kernel is rejected at the v1 tiers,
      so with nothing else present there is no limit. */
  lemma V1SentinelMeansNoLimit(fs: FileSystem, cgroupPath: string)
    requires UnifiedFile(cgroupPath, "memory.max") !in fs.files && RootMemoryMax !in fs.files
    requires ReadToString(fs, ControllerFile("memory", cgroupPath, "memory.limit_in_bytes")) == Some(Decimal(V1Unlimited) + "\n")
    requires ReadToString(fs, RootLimitInBytes) == Some(Decimal(V1Unlimited) + "\n")
    ensures MemoryLimitForPath(fs, cgroupPath) == None
  {
    KernelValueReads(fs, ControllerFile("memory", cgroupPath, "memory.limit_in_bytes"), V1Unlimited);
    KernelValueReads(fs, RootLimitInBytes, V1Unlimited);
  }

  /** A usage of `u64::MAX` is reported as it is: usage applies no sentinel,
      while the same text as the node's `memory.max` is refused as a limit. */
  lemma UsageKeepsMaxValue(fs: FileSystem, cgroupPath: string)
    requires ReadToString(fs, UnifiedFile(cgroupPath, "memory.current")) == Some(Decimal(U64Max) + "\n")
    ensures MemoryUsageForPath(fs, cgroupPath) == Some(U64Max)
    ensures ReadToString(fs, UnifiedFile(cgroupPath, "memory.max")) == Some(Decimal(U64Max) + "\n")
            ==> TierValue(fs, LimitTiers(cgroupPath)[0], true).None?
  {
    KernelValueReads(fs, UnifiedFile(cgroupPath, "memory.current"), U64Max);
    if ReadToString(fs, UnifiedFile(cgroupPath, "memory.max")) == Some(Decimal(U64Max) + "\n") {
      MaxValueRefusedAsNodeLimit(fs, cgroupPath);
    }
  }

  lemma MaxValueRefusedAsNodeLimit(fs: FileSystem, cgroupPath: string)
    requires ReadToString(fs, UnifiedFile(cgroupPath, "memory.max")) == Some(Decimal(U64Max) + "\n")
    ensures TierValue(fs, LimitTiers(cgroupPath)[0], true).None?
  {
    var tier := LimitTiers(cgroupPath)[0];
    assert tier == Tier(Unified, UnifiedFile(cgroupPath, "memory.max"));
    KernelValueReads(fs, tier.path, U64Max);
  }
}
