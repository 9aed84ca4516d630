/** What `main` derives from the readers: the used-memory figure, the two
    "constrained" flags, the cgroup version, the explicit-limits heuristic
    and the one-line cgroup note of the plain summary. */
module Report {
  import opened Base
  import opened Text
  import opened Numeric
  import opened Fs
  import opened CgroupLocator
  import opened CpuQuota
  import opened CgroupMemory
  import opened ProcInfo

  // ------------------------------------------------------------ derived figures

  /** `u64::saturating_sub`: the difference, or 0 when it would go below 0. */
  function SaturatingSub(a: nat, b: nat): (r: nat)
    ensures r <= a
    ensures b <= a ==> r + b == a
    ensures a <= b ==> r == 0
  {
    if a <= b then 0 else a - b
  }

  /** `system_total.saturating_sub(system_available)`: never above the total,
      and 0 when the kernel reports more available than total. */
  function SystemUsed(m: MemoryTotals): (used: nat)
    ensures used <= m.totalBytes
    ensures m.availableBytes <= m.totalBytes ==> used + m.availableBytes == m.totalBytes
    ensures m.totalBytes <= m.availableBytes ==> used == 0
  {
    SaturatingSub(m.totalBytes, m.availableBytes)
  }

  /** `cgroup_memory_limit.map(|lim| lim < system_total).unwrap_or(false)`. */
  predicate ConstrainedMemory(limit: Option<nat>, systemTotal: nat) {
    match limit
    case None => false
    case Some(l) => l < systemTotal
  }

  /** Memory is reported constrained exactly when there is a limit strictly
      below the system total; no limit, or a limit at or above the total,
      is unconstrained. */
  lemma ConstrainedMemoryMeaning(limit: Option<nat>, systemTotal: nat)
    ensures ConstrainedMemory(limit, systemTotal) <==> limit.Some? && limit.value < systemTotal
    ensures ConstrainedMemory(Some(systemTotal), systemTotal) == false
    ensures ConstrainedMemory(None, systemTotal) == false
  {
  }

  /** `available_cpus < system_logical_cpus`. */
  predicate ConstrainedCpu(availableCpus: nat, logicalCpus: nat) {
    availableCpus < logicalCpus
  }

  // ------------------------------------------------------------ cgroup version

  const ControllersFile: string := "/sys/fs/cgroup/cgroup.controllers"
  const V1CpuMount: string := "/sys/fs/cgroup/cpu"
  const V1MemoryMount: string := "/sys/fs/cgroup/memory"

  datatype CgroupVersion = V1 | V2

  /** `cgroup_version` in `main`: v2 when the unified controllers file
      exists, whatever else exists; else v1 when a v1 cpu or memory mount
      exists; else unknown. */
  function DetectVersion(fs: FileSystem): (r: Option<CgroupVersion>)
    ensures r == Some(V2) <==> PathExists(fs, ControllersFile)
    ensures r == Some(V1) <==>
              !PathExists(fs, ControllersFile) && (PathExists(fs, V1CpuMount) || PathExists(fs, V1MemoryMount))
    ensures r.None? <==>
              !PathExists(fs, ControllersFile) && !PathExists(fs, V1CpuMount) && !PathExists(fs, V1MemoryMount)
  {
    if PathExists(fs, ControllersFile) then Some(V2)
    else if PathExists(fs, V1CpuMount) || PathExists(fs, V1MemoryMount) then Some(V1)
    else None
  }

  // ------------------------------------------------------------ user slices

  /** `is_default_user_slice_path`: a systemd user session scope such as
      `/user.slice/user-1000.slice/session-4.scope`. */
  predicate IsDefaultUserSlicePath(cgroupPath: string)
    ensures IsDefaultUserSlicePath(cgroupPath) <==>
              StartsWith(cgroupPath, "/user.slice/user-") && exists i :: OccursAt(cgroupPath, "/session-", i)
  {
    ContainsAt(cgroupPath, "/session-");
    StartsWith(cgroupPath, "/user.slice/user-") && Contains(cgroupPath, "/session-")
  }

  /** Every session scope under a user slice is recognised, whatever the
      user id and the scope name. */
  lemma SessionScopeIsDefaultUserSlice(uid: string, scope: string)
    ensures IsDefaultUserSlicePath("/user.slice/user-" + uid + ".slice/session-" + scope)
  {
    var prefix := "/user.slice/user-";
    var s := prefix + uid + ".slice/session-" + scope;
    var k := |prefix| + |uid| + 6;
    assert s[..|prefix|] == prefix;
    assert s == (prefix + uid + ".slice") + "/session-" + scope;
    assert s[k..k + 9] == "/session-";
    assert OccursAt(s, "/session-", k);
  }

  /** Nothing under the system slice is a user slice. */
  lemma ServiceIsNotDefaultUserSlice(rest: string)
    ensures !IsDefaultUserSlicePath("/system.slice/" + rest)
  {
    assert ("/system.slice/" + rest)[1] != "/user.slice/user-"[1];
  }

  /** A default user slice is never the root path. */
  lemma DefaultUserSliceIsNotRoot(cgroupPath: string)
    requires IsDefaultUserSlicePath(cgroupPath)
    ensures cgroupPath != "" && cgroupPath != "/"
  {
    assert |cgroupPath| >= |"/user.slice/user-"|;
  }

  // ------------------------------------------------------------ explicit limits

  /** Both cpuset lists were read, neither is empty, and they differ. */
  predicate CpusetNarrowed(node: Option<string>, root: Option<string>) {
    node.Some? && root.Some? && node.value != [] && root.value != [] && node.value != root.value
  }

  /** The v2 tests at the node: a two-field, non-`max` `cpu.max`; a
      `memory.max` whose trimmed text is not `max`; an effective cpuset that
      differs from the root's. */
  predicate V2ExplicitAt(fs: FileSystem, cgroupPath: string) {
    (match ReadToString(fs, UnifiedFile(cgroupPath, "cpu.max"))
     case Some(c) => ReadCpuMax(c).Limited?
     case None => false)
    || (match ReadTrimmed(fs, UnifiedFile(cgroupPath, "memory.max"))
        case Some(v) => v != "max"
        case None => false)
    || CpusetNarrowed(ReadTrimmed(fs, UnifiedFile(cgroupPath, "cpuset.cpus.effective")),
                      ReadTrimmed(fs, UnifiedFile("", "cpuset.cpus.effective")))
  }

  /** The v1 tests at the node: a positive quota and period; a memory limit
      below the v1 sentinel; a cpuset that differs from the root's. */
  predicate V1ExplicitAt(fs: FileSystem, cgroupPath: string) {
    V1NodeCpuQuota(fs, cgroupPath).Some?
    || TierValue(fs, LimitTiers(cgroupPath)[2], true).Some?
    || CpusetNarrowed(ReadTrimmed(fs, ControllerFile("cpuset", cgroupPath, "cpuset.cpus")),
                      ReadTrimmed(fs, ControllerFile("cpuset", "", "cpuset.cpus")))
  }

  /** `has_explicit_limits_at_path`: on a v2 host only the v2 tests are
      made, elsewhere only the v1 tests. */
  predicate HasExplicitLimitsAtPath(fs: FileSystem, cgroupPath: string)
    ensures PathExists(fs, ControllersFile) && UnifiedFile(cgroupPath, "cpu.max") in fs.files
            && ReadCpuMax(fs.files[UnifiedFile(cgroupPath, "cpu.max")]).Limited?
            ==> HasExplicitLimitsAtPath(fs, cgroupPath)
    ensures PathExists(fs, ControllersFile) && ReadTrimmed(fs, UnifiedFile(cgroupPath, "memory.max")).Some?
            && ReadTrimmed(fs, UnifiedFile(cgroupPath, "memory.max")).value != "max"
            ==> HasExplicitLimitsAtPath(fs, cgroupPath)
    ensures PathExists(fs, ControllersFile) && ReadU64(fs, UnifiedFile(cgroupPath, "memory.max")).Some?
            ==> HasExplicitLimitsAtPath(fs, cgroupPath)
    ensures PathExists(fs, ControllersFile) && V2CpuQuotaForPath(fs, cgroupPath) != V2RootCpuQuota(fs)
            ==> HasExplicitLimitsAtPath(fs, cgroupPath)
    ensures PathExists(fs, ControllersFile)
            && CpusetNarrowed(ReadTrimmed(fs, UnifiedFile(cgroupPath, "cpuset.cpus.effective")),
                              ReadTrimmed(fs, UnifiedFile("", "cpuset.cpus.effective")))
            ==> HasExplicitLimitsAtPath(fs, cgroupPath)
    ensures !PathExists(fs, ControllersFile) && V1CpuQuotaForPath(fs, cgroupPath) != V1RootCpuQuota(fs)
            ==> HasExplicitLimitsAtPath(fs, cgroupPath)
    ensures !PathExists(fs, ControllersFile) && V1NodeCpuQuota(fs, cgroupPath).Some?
            ==> HasExplicitLimitsAtPath(fs, cgroupPath)
    ensures !PathExists(fs, ControllersFile) && TierValue(fs, LimitTiers(cgroupPath)[2], true).Some?
            ==> HasExplicitLimitsAtPath(fs, cgroupPath)
    ensures !PathExists(fs, ControllersFile)
            && CpusetNarrowed(ReadTrimmed(fs, ControllerFile("cpuset", cgroupPath, "cpuset.cpus")),
                              ReadTrimmed(fs, ControllerFile("cpuset", "", "cpuset.cpus")))
            ==> HasExplicitLimitsAtPath(fs, cgroupPath)
  {
    MaxIsNotANumber();
    if PathExists(fs, ControllersFile) then V2ExplicitAt(fs, cgroupPath)
    else V1ExplicitAt(fs, cgroupPath)
  }

  /** On a v2 host a node without explicit limits inherits: its quota is the
      root's, and its memory limit comes from the tiers after the node's. */
  lemma V2NoExplicitLimitsInherits(fs: FileSystem, cgroupPath: string)
    requires PathExists(fs, ControllersFile) && !HasExplicitLimitsAtPath(fs, cgroupPath)
    ensures V2CpuQuotaForPath(fs, cgroupPath) == V2RootCpuQuota(fs)
    ensures TierValue(fs, LimitTiers(cgroupPath)[0], true).None?
    ensures MemoryLimitForPath(fs, cgroupPath)
            == FirstPresent(TierValues(fs, LimitTiers(cgroupPath)[1..], true))
  {
    var node := UnifiedFile(cgroupPath, "memory.max");
    if ReadTrimmed(fs, node).Some? {
      assert ReadTrimmed(fs, node).value == "max";
      MaxIsNotANumber();
    }
    MemoryLimitIsFirstAcceptedTier(fs, cgroupPath);
    var vs := TierValues(fs, LimitTiers(cgroupPath), true);
    assert TierValues(fs, LimitTiers(cgroupPath)[1..], true) == vs[1..];
    FirstPresentSkipsAbsent(vs);
  }

  lemma FirstPresentSkipsAbsent(xs: seq<Option<nat>>)
    requires xs != [] && xs[0].None?
    ensures FirstPresent(xs) == FirstPresent(xs[1..])
  {
    FirstPresentAfterAbsent(xs);
    if FirstPresent(xs[1..]).Some? {
      var i :| FirstPresentAt(xs[1..], i) && xs[1..][i] == FirstPresent(xs[1..]);
      FirstPresentUnique(xs, i + 1);
    } else {
      assert forall i :: 0 <= i < |xs| ==> xs[i].None? by {
        forall i | 0 < i < |xs| ensures xs[i].None? {
          assert xs[i] == xs[1..][i - 1];
        }
      }
    }
  }

  /** `FirstPresent` is the value at the first present index. */
  lemma FirstPresentUnique(xs: seq<Option<nat>>, i: int)
    requires FirstPresentAt(xs, i)
    ensures FirstPresent(xs) == xs[i]
  {
    var r := FirstPresent(xs);
    assert r.Some?;
    var j :| FirstPresentAt(xs, j) && xs[j] == r;
    assert !(j < i) && !(i < j);
  }

  /** On a v2 host the three tests are all there is: a node whose `cpu.max`
      is missing or not a limited record, whose `memory.max` is missing or
      `max`, and whose effective cpuset is not narrowed has no explicit
      limits. */
  lemma V2NoTestFiresMeansNoLimits(fs: FileSystem, cgroupPath: string)
    requires PathExists(fs, ControllersFile)
    requires UnifiedFile(cgroupPath, "cpu.max") !in fs.files
             || ReadCpuMax(fs.files[UnifiedFile(cgroupPath, "cpu.max")]).NotLimited?
    requires ReadTrimmed(fs, UnifiedFile(cgroupPath, "memory.max")).None?
             || ReadTrimmed(fs, UnifiedFile(cgroupPath, "memory.max")) == Some("max")
    requires !CpusetNarrowed(ReadTrimmed(fs, UnifiedFile(cgroupPath, "cpuset.cpus.effective")),
                             ReadTrimmed(fs, UnifiedFile("", "cpuset.cpus.effective")))
    ensures !HasExplicitLimitsAtPath(fs, cgroupPath)
  {
  }

  /** Off v2 the three v1 tests are all there is: no positive node quota,
      no node memory limit below the v1 sentinel and no narrowed cpuset
      means no explicit limits. */
  lemma V1NoTestFiresMeansNoLimits(fs: FileSystem, cgroupPath: string)
    requires !PathExists(fs, ControllersFile)
    requires V1NodeCpuQuota(fs, cgroupPath).None?
    requires TierValue(fs, LimitTiers(cgroupPath)[2], true).None?
    requires !CpusetNarrowed(ReadTrimmed(fs, ControllerFile("cpuset", cgroupPath, "cpuset.cpus")),
                             ReadTrimmed(fs, ControllerFile("cpuset", "", "cpuset.cpus")))
    ensures !HasExplicitLimitsAtPath(fs, cgroupPath)
  {
  }

  /** Off v2, a node without explicit limits inherits: its quota is the v1
      root's, and the node tier of the memory limit yields nothing. */
  lemma V1NoExplicitLimitsInherits(fs: FileSystem, cgroupPath: string)
    requires !PathExists(fs, ControllersFile) && !HasExplicitLimitsAtPath(fs, cgroupPath)
    ensures V1CpuQuotaForPath(fs, cgroupPath) == V1RootCpuQuota(fs)
    ensures TierValue(fs, LimitTiers(cgroupPath)[2], true).None?
  {
  }

  // ------------------------------------------------------------ the cgroup note

  /** The cgroup line of the plain summary. */
  datatype CgroupNote =
    | DefaultUserSlice              // "default user slice (no explicit limits)"
    | LimitsPresent(path: string)   // "limits present at <path>"
    | NoExplicitLimits(path: string) // "<path> (no explicit limits)"
    | NoNote

  /** The note `main` prints, given the heuristic's answer. */
  function NoteFor(cgroupPath: string, explicitLimits: bool): (n: CgroupNote)
    ensures n == DefaultUserSlice <==> IsDefaultUserSlicePath(cgroupPath) && !explicitLimits
    ensures n.LimitsPresent? <==> explicitLimits && cgroupPath != "" && cgroupPath != "/"
    ensures n.NoExplicitLimits? ==> !explicitLimits && !IsDefaultUserSlicePath(cgroupPath)
    ensures (n.LimitsPresent? || n.NoExplicitLimits?) ==> n.path == cgroupPath
  {
    if IsDefaultUserSlicePath(cgroupPath) && !explicitLimits then DefaultUserSlice
    else if cgroupPath != "" && cgroupPath != "/" then
      (if explicitLimits then LimitsPresent(cgroupPath) else NoExplicitLimits(cgroupPath))
    else NoNote
  }

  /** The summary says nothing about the cgroup exactly when the process is
      at the root, whatever the limits. */
  lemma NoNoteExactlyAtRoot(cgroupPath: string, explicitLimits: bool)
    ensures NoteFor(cgroupPath, explicitLimits) == NoNote <==> cgroupPath == "" || cgroupPath == "/"
  {
    if IsDefaultUserSlicePath(cgroupPath) {
      DefaultUserSliceIsNotRoot(cgroupPath);
    }
  }

  function CgroupNoteOf(fs: FileSystem, cgroupPath: string): CgroupNote {
    NoteFor(cgroupPath, HasExplicitLimitsAtPath(fs, cgroupPath))
  }

  // ------------------------------------------------------------ main's gathering

  /** Everything `main` gathers once, before choosing an output format. */
  datatype ResourceView = ResourceView(
    systemLogicalCpus: nat,
    systemPhysicalCpus: nat,
    availableCpus: nat,
    cgroupPath: string,
    cgroupCpuQuota: Option<Quota>,
    systemTotal: nat,
    systemAvailable: nat,
    systemUsed: nat,
    cgroupMemoryLimit: Option<nat>,
    cgroupMemoryUsage: Option<nat>,
    cgroupVersion: Option<CgroupVersion>)

  /** The data-gathering block of `main`, calling the readers once each. */
  method Gather(fs: FileSystem, platform: Platform) returns (view: ResourceView)
    ensures view.systemLogicalCpus == SystemCpuCount(fs, platform)
    ensures view.systemPhysicalCpus == SystemPhysicalCpuCount(fs, platform)
    ensures view.availableCpus == platform.availableCpus
    ensures view.cgroupPath == CurrentCgroupPath(fs)
    ensures view.cgroupCpuQuota == CpuQuotaForPath(fs, view.cgroupPath)
    ensures MemoryTotals(view.systemTotal, view.systemAvailable) == SystemMemory(fs)
    ensures view.systemUsed <= view.systemTotal
    ensures view.systemUsed == SystemUsed(SystemMemory(fs))
    ensures view.cgroupMemoryLimit == MemoryLimitForPath(fs, view.cgroupPath)
    ensures view.cgroupMemoryUsage == MemoryUsageForPath(fs, view.cgroupPath)
    ensures view.cgroupVersion == DetectVersion(fs)
  {
    var logical := SystemCpuCount(fs, platform);
    var physical := GetSystemPhysicalCpuCount(fs, platform);
    var path := GetCurrentCgroupPath(fs);
    var total, available := GetSystemMemoryFromProc(fs);
    view := ResourceView(
      logical, physical, platform.availableCpus, path, CpuQuotaForPath(fs, path),
      total, available, SystemUsed(MemoryTotals(total, available)),
      MemoryLimitForPath(fs, path), MemoryUsageForPath(fs, path), DetectVersion(fs));
  }

  /** The constrained flags of the plain summary and its JSON form. */
  datatype Constraints = Constraints(cpu: bool, memory: bool)

  function ConstraintsOf(view: ResourceView): (c: Constraints)
    ensures c.cpu <==> view.availableCpus < view.systemLogicalCpus
    ensures c.memory <==> view.cgroupMemoryLimit.Some? && view.cgroupMemoryLimit.value < view.systemTotal
  {
    Constraints(ConstrainedCpu(view.availableCpus, view.systemLogicalCpus),
                ConstrainedMemory(view.cgroupMemoryLimit, view.systemTotal))
  }
}
