/** The CPU quota resolver: how many CPUs' worth of time the cgroup may use,
    from `cpu.max` (v2, `"<quota> <period>"` or `"max <period>"`) or from the
    v1 pair `cpu.cfs_quota_us` / `cpu.cfs_period_us`, at the node and then at
    the root. The quota is kept as the integer pair the ratio is made of. */
module CpuQuota {
  import opened Base
  import opened Text
  import opened Numeric
  import opened Fs

  /** `quota` microseconds of CPU time in every `period` microseconds. */
  datatype Quota = Quota(quota: int, period: int)

  /** `quota as f64 / period as f64`, computed exactly. */
  function Cpus(q: Quota): real
    requires q.period != 0
  {
    q.quota as real / q.period as real
  }

  /** Why the v2 reader gave up (the messages of the boxed Rust errors). */
  datatype QuotaError =
    | Malformed(path: string)   // a field of a two-field record is not an i64
    | Unreadable(path: string)  // the root `cpu.max` cannot be read
    | NoQuotaSet                // the root record is `max ...` or not two fields

  // ------------------------------------------------------------ cgroup v2

  const RootCpuMax: string := "/sys/fs/cgroup/cpu.max"

  /** The shape test on a `cpu.max` record: two fields, the first not `max`. */
  datatype CpuMaxRecord = Limited(quotaField: string, periodField: string) | NotLimited

  /** `cpu_max.trim().split_whitespace()` and the shape test. The `trim` makes
      no difference: the record is judged on the fields of the raw text. */
  function ReadCpuMax(content: string): (r: CpuMaxRecord)
    ensures r.Limited? <==> |SplitWhitespace(content)| == 2 && SplitWhitespace(content)[0] != "max"
    ensures r.Limited? ==> SplitWhitespace(content) == [r.quotaField, r.periodField]
  {
    SplitWhitespaceOfTrim(content);
    var parts := SplitWhitespace(Trim(content));
    if |parts| == 2 && parts[0] != "max" then Limited(parts[0], parts[1]) else NotLimited
  }

  /** `let quota: i64 = parts[0].parse()?; let period: i64 = parts[1].parse()?;` */
  function ParseRecord(path: string, quotaField: string, periodField: string): (r: Result<Quota, QuotaError>)
    ensures r.Ok? <==> ParseI64(quotaField).Some? && ParseI64(periodField).Some?
    ensures r.Ok? ==> r.value == Quota(ParseI64(quotaField).value, ParseI64(periodField).value)
    ensures r.Err? ==> r.error == Malformed(path)
  {
    match (ParseI64(quotaField), ParseI64(periodField))
    case (Some(q), Some(p)) => Ok(Quota(q, p))
    case _ => Err(Malformed(path))
  }

  /** The `cpu.max` at `path` is a two-field, non-`max` record whose fields
      parse to `q`. */
  predicate RecordReads(fs: FileSystem, path: string, q: Quota) {
    && path in fs.files
    && ReadCpuMax(fs.files[path]).Limited?
    && ParseI64(ReadCpuMax(fs.files[path]).quotaField) == Some(q.quota)
    && ParseI64(ReadCpuMax(fs.files[path]).periodField) == Some(q.period)
  }

  /** The root attempt of the v2 reader: every way of not finding a quota
      there is an error. */
  function V2RootCpuQuota(fs: FileSystem): (r: Result<Quota, QuotaError>)
    ensures RootCpuMax !in fs.files ==> r == Err(Unreadable(RootCpuMax))
    ensures RootCpuMax in fs.files && ReadCpuMax(fs.files[RootCpuMax]).NotLimited? ==> r == Err(NoQuotaSet)
    ensures r.Ok? ==> RecordReads(fs, RootCpuMax, r.value)
    ensures forall q :: RecordReads(fs, RootCpuMax, q) ==> r == Ok(q)
    ensures r.Err? && r.error.Malformed? ==> r.error.path == RootCpuMax
  {
    match ReadToString(fs, RootCpuMax)
    case None => Err(Unreadable(RootCpuMax))
    case Some(c) =>
      match ReadCpuMax(c)
      case Limited(q, p) => ParseRecord(RootCpuMax, q, p)
      case NotLimited => Err(NoQuotaSet)
  }

  /** `read_cgroup_v2_cpu_quota_for_path`: a two-field, non-`max` record at
      the node decides (its parse error included); anything else at the node
      (unreadable, `max`, wrong field count) hands over to the root. */
  function V2CpuQuotaForPath(fs: FileSystem, cgroupPath: string): (r: Result<Quota, QuotaError>)
    ensures r.Ok? ==> RecordReads(fs, UnifiedFile(cgroupPath, "cpu.max"), r.value) || RecordReads(fs, RootCpuMax, r.value)
    ensures r.Err? ==> r.error in {Malformed(UnifiedFile(cgroupPath, "cpu.max")), Malformed(RootCpuMax),
                                   Unreadable(RootCpuMax), NoQuotaSet}
  {
    var nodePath := UnifiedFile(cgroupPath, "cpu.max");
    match ReadToString(fs, nodePath)
    case Some(c) =>
      (match ReadCpuMax(c)
       case Limited(q, p) => ParseRecord(nodePath, q, p)
       case NotLimited => V2RootCpuQuota(fs))
    case None => V2RootCpuQuota(fs)
  }

  /** A two-field, non-`max` record at the node decides the result, whatever
      the root holds: its values when both parse, an error when either does
      not (the `?` returns before the root is read). */
  lemma V2NodeRecordDecides(fs: FileSystem, cgroupPath: string)
    requires UnifiedFile(cgroupPath, "cpu.max") in fs.files
    requires ReadCpuMax(fs.files[UnifiedFile(cgroupPath, "cpu.max")]).Limited?
    ensures var rec := ReadCpuMax(fs.files[UnifiedFile(cgroupPath, "cpu.max")]);
            var r := V2CpuQuotaForPath(fs, cgroupPath);
            && (r.Ok? <==> ParseI64(rec.quotaField).Some? && ParseI64(rec.periodField).Some?)
            && (r.Ok? ==> r.value == Quota(ParseI64(rec.quotaField).value, ParseI64(rec.periodField).value))
            && (r.Err? ==> r.error == Malformed(UnifiedFile(cgroupPath, "cpu.max")))
  {
  }

  /** Anything else at the node means the root decides. */
  lemma V2FallsBackToRoot(fs: FileSystem, cgroupPath: string)
    requires UnifiedFile(cgroupPath, "cpu.max") !in fs.files
          || ReadCpuMax(fs.files[UnifiedFile(cgroupPath, "cpu.max")]).NotLimited?
    ensures V2CpuQuotaForPath(fs, cgroupPath) == V2RootCpuQuota(fs)
  {
  }

  /** The kernel's rendering of a quota, `"<quota> <period>\n"`, is read back
      exactly, with no check that either number is positive. */
  lemma V2ReadsKernelRecord(fs: FileSystem, cgroupPath: string, quota: int, period: int)
    requires I64Min <= quota <= I64Max && I64Min <= period <= I64Max
    requires ReadToString(fs, UnifiedFile(cgroupPath, "cpu.max")) == Some(IntText(quota) + " " + IntText(period) + "\n")
    ensures V2CpuQuotaForPath(fs, cgroupPath) == Ok(Quota(quota, period))
  {
    IntTextIsWord(quota);
    IntTextIsWord(period);
    SplitWhitespaceTwoWords(IntText(quota), " ", IntText(period), "\n");
    ParseI64OfDecimal(quota);
    ParseI64OfDecimal(period);
  }

  /** The same rendering at the root is what the root attempt returns. */
  lemma V2RootReadsKernelRecord(fs: FileSystem, quota: int, period: int)
    requires I64Min <= quota <= I64Max && I64Min <= period <= I64Max
    requires ReadToString(fs, RootCpuMax) == Some(IntText(quota) + " " + IntText(period) + "\n")
    ensures V2RootCpuQuota(fs) == Ok(Quota(quota, period))
  {
    IntTextIsWord(quota);
    IntTextIsWord(period);
    SplitWhitespaceTwoWords(IntText(quota), " ", IntText(period), "\n");
    ParseI64OfDecimal(quota);
    ParseI64OfDecimal(period);
  }

  /** `"max <period>\n"` at the node means the root decides. */
  lemma V2MaxDefersToRoot(fs: FileSystem, cgroupPath: string, period: nat)
    requires ReadToString(fs, UnifiedFile(cgroupPath, "cpu.max")) == Some("max " + Decimal(period) + "\n")
    ensures V2CpuQuotaForPath(fs, cgroupPath) == V2RootCpuQuota(fs)
  {
    MaxRecordIsNotLimited(Decimal(period));
  }

  lemma MaxRecordIsNotLimited(d: string)
    requires d != [] && NoSpace(d)
    ensures ReadCpuMax("max " + d + "\n") == NotLimited
  {
    var s := "max " + d + "\n";
    assert s == "max" + " " + d + "\n";
    SplitWhitespaceTwoWords("max", " ", d, "\n");
  }

  // ------------------------------------------------------------ cgroup v1

  const RootQuotaFile: string := "/sys/fs/cgroup/cpu/cpu.cfs_quota_us"
  const RootPeriodFile: string := "/sys/fs/cgroup/cpu/cpu.cfs_period_us"

  /** The v1 test on one quota/period file pair: both read, both parse as
      `i64` after trimming, and both are strictly positive. */
  function V1QuotaFromFiles(fs: FileSystem, quotaPath: string, periodPath: string): (r: Option<Quota>)
    ensures r.Some? <==> ReadI64(fs, quotaPath).Some? && ReadI64(fs, periodPath).Some?
                         && ReadI64(fs, quotaPath).value > 0 && ReadI64(fs, periodPath).value > 0
    ensures r.Some? ==> r.value == Quota(ReadI64(fs, quotaPath).value, ReadI64(fs, periodPath).value)
    ensures r.Some? ==> r.value.quota > 0 && r.value.period > 0
  {
    match (ReadToString(fs, quotaPath), ReadToString(fs, periodPath))
    case (Some(qs), Some(ps)) =>
      (match (ParseI64(Trim(qs)), ParseI64(Trim(ps)))
       case (Some(q), Some(p)) => if q > 0 && p > 0 then Some(Quota(q, p)) else None
       case _ => None)
    case _ => None
  }

  /** `read_cgroup_v1_cpu_quota`: the root CPU controller's pair. */
  function V1RootCpuQuota(fs: FileSystem): (r: Option<Quota>)
    ensures r.Some? ==> r.value.quota > 0 && r.value.period > 0
  {
    V1QuotaFromFiles(fs, RootQuotaFile, RootPeriodFile)
  }

  /** The node's pair under the v1 CPU controller. */
  function V1NodeCpuQuota(fs: FileSystem, cgroupPath: string): (r: Option<Quota>)
    ensures r.Some? ==> r.value.quota > 0 && r.value.period > 0
  {
    V1QuotaFromFiles(fs, ControllerFile("cpu", cgroupPath, "cpu.cfs_quota_us"),
                         ControllerFile("cpu", cgroupPath, "cpu.cfs_period_us"))
  }

  /** `read_cgroup_v1_cpu_quota_for_path`: the node's pair, else the root's. */
  function V1CpuQuotaForPath(fs: FileSystem, cgroupPath: string): (r: Option<Quota>)
    ensures r.Some? ==> r.value.quota > 0 && r.value.period > 0
    ensures V1NodeCpuQuota(fs, cgroupPath).Some? ==> r == V1NodeCpuQuota(fs, cgroupPath)
    ensures V1NodeCpuQuota(fs, cgroupPath).None? ==> r == V1RootCpuQuota(fs)
  {
    match V1NodeCpuQuota(fs, cgroupPath)
    case Some(q) => Some(q)
    case None => V1RootCpuQuota(fs)
  }

  /** The root strings of `read_cgroup_v1_cpu_quota` are the node paths for
      the empty cgroup path, so with `""` both tiers read the same pair. */
  lemma V1RootIsEmptyPathNode(fs: FileSystem)
    ensures V1RootCpuQuota(fs) == V1NodeCpuQuota(fs, "")
  {
    V1RootFiles();
  }

  lemma V1RootFiles()
    ensures ControllerFile("cpu", "", "cpu.cfs_quota_us") == RootQuotaFile
    ensures ControllerFile("cpu", "", "cpu.cfs_period_us") == RootPeriodFile
  {
    V1RootFile("cpu.cfs_quota_us");
    V1RootFile("cpu.cfs_period_us");
  }

  /** A file of the v1 CPU controller at the empty path lies directly in
      `/sys/fs/cgroup/cpu/`. */
  lemma V1RootFile(file: string)
    ensures ControllerFile("cpu", "", file) == "/sys/fs/cgroup/cpu/" + file
  {
    V1RootDirectory();
  }

  lemma V1RootDirectory()
    ensures CgroupMount + "/" + "cpu" + "" + "/" == "/sys/fs/cgroup/cpu/"
  {
    assert CgroupMount + "/" == "/sys/fs/cgroup/";
    assert "/sys/fs/cgroup/" + "cpu" == "/sys/fs/cgroup/cpu";
    assert "/sys/fs/cgroup/cpu" + "" == "/sys/fs/cgroup/cpu";
  }

  /** The kernel writes each value as a decimal and a newline; positive values
      at the node are read back exactly. */
  lemma V1ReadsKernelFiles(fs: FileSystem, cgroupPath: string, quota: nat, period: nat)
    requires 0 < quota <= I64Max && 0 < period <= I64Max
    requires ReadToString(fs, ControllerFile("cpu", cgroupPath, "cpu.cfs_quota_us")) == Some(Decimal(quota) + "\n")
    requires ReadToString(fs, ControllerFile("cpu", cgroupPath, "cpu.cfs_period_us")) == Some(Decimal(period) + "\n")
    ensures V1CpuQuotaForPath(fs, cgroupPath) == Some(Quota(quota, period))
  {
    KernelValueTrims(quota);
    KernelValueTrims(period);
    ParseI64OfDecimal(quota);
    ParseI64OfDecimal(period);
  }

  /** `-1` (no quota) in the node's quota file hands over to the root. */
  lemma V1UnlimitedDefersToRoot(fs: FileSystem, cgroupPath: string)
    requires ReadToString(fs, ControllerFile("cpu", cgroupPath, "cpu.cfs_quota_us")) == Some("-1\n")
    ensures V1CpuQuotaForPath(fs, cgroupPath) == V1RootCpuQuota(fs)
  {
    TrimFramed([], "-1", "\n");
    assert [] + "-1" + "\n" == "-1\n";
    assert ParseI64("-1") == Some(-1) by {
      assert DecimalValue("1") == 1;
    }
  }

  lemma KernelValueTrims(n: int)
    ensures Trim(IntText(n) + "\n") == IntText(n)
  {
    IntTextIsWord(n);
    TrimFramed([], IntText(n), "\n");
    assert [] + IntText(n) + "\n" == IntText(n) + "\n";
  }

  // ------------------------------------------------------------ both versions

  /** `get_cgroup_cpu_quota_for_path`: the v2 result when it is `Ok`, else the
      v1 result. */
  function CpuQuotaForPath(fs: FileSystem, cgroupPath: string): (r: Option<Quota>)
    ensures V2CpuQuotaForPath(fs, cgroupPath).Ok? ==> r == Some(V2CpuQuotaForPath(fs, cgroupPath).value)
    ensures V2CpuQuotaForPath(fs, cgroupPath).Err? ==> r == V1CpuQuotaForPath(fs, cgroupPath)
  {
    match V2CpuQuotaForPath(fs, cgroupPath)
    case Ok(q) => Some(q)
    case Err(_) => V1CpuQuotaForPath(fs, cgroupPath)
  }

  /** A quota that is not positive in both parts can only come from v2, which
      checks neither part. */
  lemma NonPositiveQuotaComesFromV2(fs: FileSystem, cgroupPath: string)
    requires CpuQuotaForPath(fs, cgroupPath).Some?
    requires CpuQuotaForPath(fs, cgroupPath).value.quota <= 0
          || CpuQuotaForPath(fs, cgroupPath).value.period <= 0
    ensures V2CpuQuotaForPath(fs, cgroupPath).Ok?
  {
  }

  /** A v2 node record without a number (`"abc 100000"`) is an error even
      when v1 files exist, so the v1 pair decides then. */
  lemma MalformedV2NodeUsesV1(fs: FileSystem, cgroupPath: string)
    requires UnifiedFile(cgroupPath, "cpu.max") in fs.files
    requires ReadCpuMax(fs.files[UnifiedFile(cgroupPath, "cpu.max")]).Limited?
    requires ParseI64(ReadCpuMax(fs.files[UnifiedFile(cgroupPath, "cpu.max")]).quotaField).None?
    ensures CpuQuotaForPath(fs, cgroupPath) == V1CpuQuotaForPath(fs, cgroupPath)
  {
  }

  // ------------------------------------------------------------ scenarios

  lemma QuotaRatios()
    ensures Cpus(Quota(100000, 100000)) == 1.0
    ensures Cpus(Quota(150000, 100000)) == 1.5
  {
  }

  /** v2 node `cpu.max` of `"100000 100000"`: one CPU. */
  lemma ScenarioOneCpu(fs: FileSystem, cgroupPath: string)
    requires ReadToString(fs, UnifiedFile(cgroupPath, "cpu.max")) == Some("100000 100000\n")
    ensures CpuQuotaForPath(fs, cgroupPath) == Some(Quota(100000, 100000))
    ensures Cpus(CpuQuotaForPath(fs, cgroupPath).value) == 1.0
  {
    QuotaRatios();
    DecimalLiterals();
    assert IntText(100000) + " " + IntText(100000) + "\n" == "100000 100000\n";
    V2ReadsKernelRecord(fs, cgroupPath, 100000, 100000);
  }

  /** v1 files of 150000 and 100000, and no v2 file anywhere: one and a half CPUs. */
  lemma ScenarioOneAndAHalfCpus(fs: FileSystem, cgroupPath: string)
    requires UnifiedFile(cgroupPath, "cpu.max") !in fs.files && RootCpuMax !in fs.files
    requires ReadToString(fs, ControllerFile("cpu", cgroupPath, "cpu.cfs_quota_us")) == Some("150000\n")
    requires ReadToString(fs, ControllerFile("cpu", cgroupPath, "cpu.cfs_period_us")) == Some("100000\n")
    ensures CpuQuotaForPath(fs, cgroupPath) == Some(Quota(150000, 100000))
    ensures Cpus(CpuQuotaForPath(fs, cgroupPath).value) == 1.5
  {
    QuotaRatios();
    DecimalLiterals();
    assert Decimal(150000) + "\n" == "150000\n";
    assert Decimal(100000) + "\n" == "100000\n";
    V1ReadsKernelFiles(fs, cgroupPath, 150000, 100000);
  }

  /** The renderings the scenarios use, one digit at a time. */
  lemma DecimalLiterals()
    ensures Decimal(100000) == "100000" && Decimal(150000) == "150000"
  {
    assert Decimal(1) == "1";
    assert Decimal(10) == "10";
    assert Decimal(100) == "100";
    assert Decimal(1000) == "1000";
    assert Decimal(10000) == "10000";
    assert Decimal(15) == "15";
    assert Decimal(150) == "150";
    assert Decimal(1500) == "1500";
    assert Decimal(15000) == "15000";
  }
}
