/** The topology and memory readers: ground truth from `/proc/meminfo` and
    `/proc/cpuinfo`, independent of any cgroup. Values the runtime supplies
    (`sysconf`, the `num_cpus` crate) are parameters. */
module ProcInfo {
  import opened Base
  import opened Text
  import opened Numeric
  import opened Fs

  const ProcMeminfo: string := "/proc/meminfo"
  const ProcCpuinfo: string := "/proc/cpuinfo"

  /** What the runtime reports when `/proc/cpuinfo` is not enough:
      `num_cpus::get()` (affinity- and cgroup-aware), the `c_long` that
      `sysconf(_SC_NPROCESSORS_ONLN)` returns (`-1` on failure), and
      `num_cpus::get_physical()`. */
  datatype Platform = Platform(availableCpus: nat, onlineProcessors: int, physicalCores: nat)

  /** Number of lines that satisfy `p`: `filter(p).count()`. */
  function CountWhere(lines: seq<string>, p: string -> bool): (n: nat)
    ensures n <= |lines|
    ensures n == 0 <==> forall i :: 0 <= i < |lines| ==> !p(lines[i])
  {
    if lines == [] then 0 else (if p(lines[0]) then 1 else 0) + CountWhere(lines[1..], p)
  }

  // ------------------------------------------------------------ /proc/meminfo

  /** `parse_meminfo_line`: the second whitespace field as a `u64`. */
  function ParseMeminfoLine(line: string): (r: Option<nat>)
    ensures |SplitWhitespace(line)| < 2 ==> r.None?
    ensures r.Some? ==> IsU64(r.value)
  {
    var parts := SplitWhitespace(line);
    if |parts| >= 2 then ParseU64(parts[1]) else None
  }

  /** The kernel's line `"<Label>:<padding><value> kB"` gives back the value. */
  lemma ParseMeminfoKernelLine(name: string, pad: string, v: nat)
    requires name != [] && NoSpace(name) && pad != [] && AllSpace(pad) && IsU64(v)
    ensures ParseMeminfoLine(name + pad + Decimal(v) + " kB") == Some(v)
  {
    var d := Decimal(v);
    IntTextIsWord(v);
    var tail := d + " kB";
    var rest := pad + tail;
    assert name + pad + d + " kB" == name + rest;
    SplitWhitespaceWord(name, rest);
    SplitWhitespaceSkipsLeading(pad, tail);
    SplitWhitespaceWord(d, " kB");
    var parts := SplitWhitespace(name + rest);
    assert parts == [name] + ([d] + SplitWhitespace(" kB"));
    assert parts[1] == d;
    ParseU64OfDecimal(v);
  }

  /** A field of `/proc/meminfo`, by its label. */
  datatype MeminfoField = MemTotal | MemAvailable

  function Label(f: MeminfoField): string {
    match f
    case MemTotal => "MemTotal:"
    case MemAvailable => "MemAvailable:"
  }

  /** The two running values of the reading loop, in kB. */
  datatype MeminfoKb = MeminfoKb(totalKb: nat, availableKb: nat)

  function Get(m: MeminfoKb, f: MeminfoField): nat {
    match f
    case MemTotal => m.totalKb
    case MemAvailable => m.availableKb
  }

  /** What the reading loop takes from a line: a parseable `MemTotal:` line
      sets the total, else a parseable `MemAvailable:` line sets the
      available value; any other line is ignored. */
  datatype MeminfoLine = Setting(field: MeminfoField, kb: nat) | Ignored

  function ClassifyMeminfo(line: string): MeminfoLine {
    if StartsWith(line, "MemTotal:") then
      (match ParseMeminfoLine(line) case Some(v) => Setting(MemTotal, v) case None => Ignored)
    else if StartsWith(line, "MemAvailable:") then
      (match ParseMeminfoLine(line) case Some(v) => Setting(MemAvailable, v) case None => Ignored)
    else Ignored
  }

  function ClassifyMeminfoAll(lines: seq<string>): (ls: seq<MeminfoLine>)
    ensures |ls| == |lines|
    ensures forall i :: 0 <= i < |lines| ==> ls[i] == ClassifyMeminfo(lines[i])
  {
    seq(|lines|, i requires 0 <= i < |lines| => ClassifyMeminfo(lines[i]))
  }

  function MeminfoStep(m: MeminfoKb, l: MeminfoLine): MeminfoKb {
    match l
    case Setting(MemTotal, v) => m.(totalKb := v)
    case Setting(MemAvailable, v) => m.(availableKb := v)
    case Ignored => m
  }

  /** The loop's state after the given lines, starting from zero. */
  function ScanMeminfo(ls: seq<MeminfoLine>): MeminfoKb {
    if ls == [] then MeminfoKb(0, 0)
    else MeminfoStep(ScanMeminfo(ls[..|ls| - 1]), ls[|ls| - 1])
  }

  /** `line` sets field `f` in the loop: it starts with the field's label and
      its value parses. */
  predicate Sets(line: string, f: MeminfoField) {
    StartsWith(line, Label(f)) && ParseMeminfoLine(line).Some?
  }

  /** A line sets exactly the field whose label it starts with, to its value;
      no line starts with both labels. */
  lemma ClassifyMeminfoSets(line: string, f: MeminfoField)
    ensures Sets(line, f) <==> ClassifyMeminfo(line).Setting? && ClassifyMeminfo(line).field == f
    ensures Sets(line, f) ==> ClassifyMeminfo(line).kb == ParseMeminfoLine(line).value
  {
    if StartsWith(line, "MemAvailable:") {
      assert line[3] == 'A';
    }
  }

  predicate SetsField(l: MeminfoLine, f: MeminfoField) {
    l.Setting? && l.field == f
  }

  lemma {:induction false} ScanLastSettingWins(ls: seq<MeminfoLine>, f: MeminfoField, j: nat)
    requires j < |ls| && SetsField(ls[j], f)
    requires forall k :: j < k < |ls| ==> !SetsField(ls[k], f)
    ensures Get(ScanMeminfo(ls), f) == ls[j].kb
    decreases |ls|
  {
    var n := |ls| - 1;
    if j < n {
      ScanLastSettingWins(ls[..n], f, j);
    }
  }

  lemma {:induction false} ScanUnsetIsZero(ls: seq<MeminfoLine>, f: MeminfoField)
    requires forall k :: 0 <= k < |ls| ==> !SetsField(ls[k], f)
    ensures Get(ScanMeminfo(ls), f) == 0
    decreases |ls|
  {
    if ls != [] {
      ScanUnsetIsZero(ls[..|ls| - 1], f);
    }
  }

  /** Each field is the value of the LAST line that sets it. */
  lemma MeminfoLastLineWins(lines: seq<string>, f: MeminfoField, j: nat)
    requires j < |lines| && Sets(lines[j], f)
    requires forall k :: j < k < |lines| ==> !Sets(lines[k], f)
    ensures Get(ScanMeminfo(ClassifyMeminfoAll(lines)), f) == ParseMeminfoLine(lines[j]).value
  {
    var ls := ClassifyMeminfoAll(lines);
    forall k | 0 <= k < |lines|
      ensures SetsField(ls[k], f) <==> Sets(lines[k], f)
    {
      ClassifyMeminfoSets(lines[k], f);
    }
    ClassifyMeminfoSets(lines[j], f);
    ScanLastSettingWins(ls, f, j);
  }

  /** A field no line sets stays 0. */
  lemma MeminfoMissingIsZero(lines: seq<string>, f: MeminfoField)
    requires forall k :: 0 <= k < |lines| ==> !Sets(lines[k], f)
    ensures Get(ScanMeminfo(ClassifyMeminfoAll(lines)), f) == 0
  {
    var ls := ClassifyMeminfoAll(lines);
    forall k | 0 <= k < |lines|
      ensures !SetsField(ls[k], f)
    {
      ClassifyMeminfoSets(lines[k], f);
    }
    ScanUnsetIsZero(ls, f);
  }

  /** `total_kb * 1024` in `u64` arithmetic: release builds wrap modulo 2^64. */
  function KbToBytes(kb: nat): (bytes: nat)
    ensures IsU64(bytes)
    ensures kb < 0x40_0000_0000_0000 ==> bytes == kb * 1024
  {
    (kb * 1024) % 0x1_0000_0000_0000_0000
  }

  /** `(total, available)` in bytes, as `get_system_memory_from_proc` returns. */
  datatype MemoryTotals = MemoryTotals(totalBytes: nat, availableBytes: nat)

  /** `get_system_memory_from_proc` as a function of the filesystem. */
  function SystemMemory(fs: FileSystem): (m: MemoryTotals)
    ensures ProcMeminfo !in fs.files ==> m == MemoryTotals(0, 0)
    ensures IsU64(m.totalBytes) && IsU64(m.availableBytes)
    ensures ProcMeminfo in fs.files ==>
              var kb := ScanMeminfo(ClassifyMeminfoAll(Lines(fs.files[ProcMeminfo])));
              && (kb.totalKb < 0x40_0000_0000_0000 ==> m.totalBytes == kb.totalKb * 1024)
              && (kb.availableKb < 0x40_0000_0000_0000 ==> m.availableBytes == kb.availableKb * 1024)
  {
    var kb := match ReadToString(fs, ProcMeminfo)
              case None => MeminfoKb(0, 0)
              case Some(c) => ScanMeminfo(ClassifyMeminfoAll(Lines(c)));
    MemoryTotals(KbToBytes(kb.totalKb), KbToBytes(kb.availableKb))
  }

  /** `get_system_memory_from_proc`: one pass over the lines updating the two
      running values, then the conversion to bytes. */
  method GetSystemMemoryFromProc(fs: FileSystem) returns (totalBytes: nat, availableBytes: nat)
    ensures MemoryTotals(totalBytes, availableBytes) == SystemMemory(fs)
  {
    var totalKb, availableKb := 0, 0;
    var contents := ReadToString(fs, ProcMeminfo);
    if contents.Some? {
      var lines := Lines(contents.value);
      ghost var ls := ClassifyMeminfoAll(lines);
      for i := 0 to |lines|
        invariant MeminfoKb(totalKb, availableKb) == ScanMeminfo(ls[..i])
      {
        assert ls[..i + 1][..i] == ls[..i];
        assert ls[i] == ClassifyMeminfo(lines[i]);
        var line := lines[i];
        if StartsWith(line, "MemTotal:") {
          var value := ParseMeminfoLine(line);
          if value.Some? {
            totalKb := value.value;
          }
        } else if StartsWith(line, "MemAvailable:") {
          var value := ParseMeminfoLine(line);
          if value.Some? {
            availableKb := value.value;
          }
        }
      }
      assert ls[..|lines|] == ls;
    }
    totalBytes := KbToBytes(totalKb);
    availableBytes := KbToBytes(availableKb);
  }

  // ------------------------------------------------------------ logical CPUs

  predicate IsProcessorLine(line: string) {
    StartsWith(line, "processor")
  }

  /** `get_system_cpu_count`: the number of `processor` lines when there is
      at least one; else the `sysconf` count when positive; else the
      runtime's count. */
  function SystemCpuCount(fs: FileSystem, platform: Platform): (n: nat)
    ensures ProcCpuinfo in fs.files && (exists i :: 0 <= i < |Lines(fs.files[ProcCpuinfo])|
                                               && IsProcessorLine(Lines(fs.files[ProcCpuinfo])[i]))
            ==> n == CountWhere(Lines(fs.files[ProcCpuinfo]), IsProcessorLine) && n > 0
    ensures (ProcCpuinfo !in fs.files || CountWhere(Lines(fs.files[ProcCpuinfo]), IsProcessorLine) == 0)
            ==> n == (if platform.onlineProcessors > 0 then platform.onlineProcessors else platform.availableCpus)
    ensures n == 0 ==> platform.onlineProcessors <= 0 && platform.availableCpus == 0
  {
    var fromCpuinfo := match ReadToString(fs, ProcCpuinfo)
                       case None => 0
                       case Some(c) => CountWhere(Lines(c), IsProcessorLine);
    if fromCpuinfo > 0 then fromCpuinfo
    else if platform.onlineProcessors > 0 then platform.onlineProcessors
    else platform.availableCpus
  }

  /** The indices of the lines that satisfy `p`. */
  function IndicesWhere(lines: seq<string>, p: string -> bool): set<nat> {
    set i: nat | i < |lines| && p(lines[i])
  }

  /** `filter(p).count()` is the number of lines that satisfy `p`, each
      counted once. */
  lemma {:induction false} CountWhereCardinality(lines: seq<string>, p: string -> bool)
    ensures CountWhere(lines, p) == |IndicesWhere(lines, p)|
    decreases |lines|
  {
    if lines != [] {
      var n := |lines| - 1;
      var prefix := lines[..n];
      CountWhereCardinality(prefix, p);
      CountWhereSnoc(prefix, lines[n], p);
      assert prefix + [lines[n]] == lines;
      if p(lines[n]) {
        assert IndicesWhere(lines, p) == IndicesWhere(prefix, p) + {n};
      } else {
        assert IndicesWhere(lines, p) == IndicesWhere(prefix, p);
      }
    }
  }

  lemma {:induction false} CountWhereSnoc(lines: seq<string>, x: string, p: string -> bool)
    ensures CountWhere(lines + [x], p) == CountWhere(lines, p) + (if p(x) then 1 else 0)
    decreases |lines|
  {
    if lines == [] {
      assert lines + [x] == [x];
    } else {
      assert (lines + [x])[1..] == lines[1..] + [x];
      CountWhereSnoc(lines[1..], x, p);
    }
  }

  // ------------------------------------------------------------ physical cores

  /** `line.split(':').nth(1)` trimmed and parsed as `usize`, which on a
      64-bit target is the `u64` parse. */
  function ValueAfterColon(line: string): (r: Option<nat>)
    ensures ':' !in line ==> r.None?
    ensures r.Some? ==> IsU64(r.value)
  {
    SplitOfSeparatorFree(line, ':');
    var parts := Split(line, ':');
    if |parts| >= 2 then ParseU64(Trim(parts[1])) else None
  }

  /** The kernel's `"<name>\t: <value>"` line gives back the value. */
  lemma ValueAfterColonReadsKernelLine(name: string, v: nat)
    requires ':' !in name && IsU64(v)
    ensures ValueAfterColon(name + ": " + Decimal(v)) == Some(v)
  {
    var d := Decimal(v);
    var field := " " + d;
    assert ':' !in field by {
      assert forall i :: 0 <= i < |d| ==> IsDigit(d[i]);
    }
    assert name + ": " + d == name + [':'] + field;
    SplitAtFirst(name, ':', field);
    SplitOfSeparatorFree(field, ':');
    IntTextIsWord(v);
    assert IntText(v) == d;
    TrimFramed(" ", d, "");
    assert " " + d + "" == field;
    ParseU64OfDecimal(v);
  }


  /** What the core-counting loop sees in a line of `/proc/cpuinfo`, tested
      in the loop's order: a `physical id` line, else a `core id` line, each
      with its parsed value, else anything else. */
  datatype CpuinfoLine = PhysicalId(id: Option<nat>) | CoreId(id: Option<nat>) | OtherLine

  function Classify(line: string): (l: CpuinfoLine)
    ensures l.PhysicalId? <==> StartsWith(line, "physical id")
    ensures l.CoreId? <==> !StartsWith(line, "physical id") && StartsWith(line, "core id")
    ensures !l.OtherLine? ==> l.id == ValueAfterColon(line)
  {
    if StartsWith(line, "physical id") then PhysicalId(ValueAfterColon(line))
    else if StartsWith(line, "core id") then CoreId(ValueAfterColon(line))
    else OtherLine
  }

  function ClassifyAll(lines: seq<string>): (ls: seq<CpuinfoLine>)
    ensures |ls| == |lines|
    ensures forall i :: 0 <= i < |lines| ==> ls[i] == Classify(lines[i])
  {
    seq(|lines|, i requires 0 <= i < |lines| => Classify(lines[i]))
  }

  /** The state of the core-counting loop: the set `core_ids` and
      `current_physical_id`. */
  datatype CoreScan = CoreScan(pairs: set<(nat, nat)>, currentPhysicalId: Option<nat>)

  function CoreStep(st: CoreScan, l: CpuinfoLine): CoreScan {
    match l
    case PhysicalId(p) => st.(currentPhysicalId := p)
    case CoreId(c) =>
      (match (st.currentPhysicalId, c)
       case (Some(p), Some(c)) => st.(pairs := st.pairs + {(p, c)})
       case _ => st)
    case OtherLine => st
  }

  /** The loop's state after the given lines. */
  function ScanCores(ls: seq<CpuinfoLine>): CoreScan {
    if ls == [] then CoreScan({}, None)
    else CoreStep(ScanCores(ls[..|ls| - 1]), ls[|ls| - 1])
  }

  /** `get_system_physical_cpu_count` as a function of the filesystem. */
  function SystemPhysicalCpuCount(fs: FileSystem, platform: Platform): (n: nat)
    ensures ProcCpuinfo !in fs.files ==> n == platform.physicalCores
    ensures n == platform.physicalCores
            || (ProcCpuinfo in fs.files && 0 < n <= |Lines(fs.files[ProcCpuinfo])|)
  {
    match ReadToString(fs, ProcCpuinfo)
    case None => platform.physicalCores
    case Some(c) =>
      CorePairsAtMostLines(ClassifyAll(Lines(c)));
      var pairs := ScanCores(ClassifyAll(Lines(c))).pairs;
      if pairs != {} then |pairs| else platform.physicalCores
  }

  /** `get_system_physical_cpu_count`: a pass over the lines that tracks the
      current physical id and collects `(physical id, core id)` pairs. */
  method GetSystemPhysicalCpuCount(fs: FileSystem, platform: Platform) returns (count: nat)
    ensures count == SystemPhysicalCpuCount(fs, platform)
  {
    var contents := ReadToString(fs, ProcCpuinfo);
    if contents.Some? {
      var lines := Lines(contents.value);
      ghost var ls := ClassifyAll(lines);
      var coreIds: set<(nat, nat)> := {};
      var currentPhysicalId: Option<nat> := None;
      for i := 0 to |lines|
        invariant CoreScan(coreIds, currentPhysicalId) == ScanCores(ls[..i])
      {
        assert ls[..i + 1][..i] == ls[..i];
        assert ls[i] == Classify(lines[i]);
        var line := lines[i];
        if StartsWith(line, "physical id") {
          currentPhysicalId := ValueAfterColon(line);
        } else if StartsWith(line, "core id") {
          if currentPhysicalId.Some? {
            var coreId := ValueAfterColon(line);
            if coreId.Some? {
              coreIds := coreIds + {(currentPhysicalId.value, coreId.value)};
            }
          }
        }
      }
      assert ls[..|lines|] == ls;
      if coreIds != {} {
        return |coreIds|;
      }
    }
    return platform.physicalCores;
  }

  /** The physical id in force after the given lines: the value of the last
      `physical id` line, which is nothing when that line does not parse. */
  function LastPhysicalId(ls: seq<CpuinfoLine>): Option<nat> {
    if ls == [] then None
    else if ls[|ls| - 1].PhysicalId? then ls[|ls| - 1].id
    else LastPhysicalId(ls[..|ls| - 1])
  }

  /** Line `j` is a `core id` line that records `(p, c)`. */
  predicate RecordsPair(ls: seq<CpuinfoLine>, j: int, p: nat, c: nat) {
    0 <= j < |ls| && ls[j] == CoreId(Some(c)) && LastPhysicalId(ls[..j]) == Some(p)
  }

  /** The current physical id of the loop is the last `physical id` line's. */
  lemma {:induction false} ScanTracksLastPhysicalId(ls: seq<CpuinfoLine>)
    ensures ScanCores(ls).currentPhysicalId == LastPhysicalId(ls)
    decreases |ls|
  {
    if ls != [] {
      ScanTracksLastPhysicalId(ls[..|ls| - 1]);
    }
  }

  /** A pair is counted exactly when some `core id` line parses to its core
      id while the last `physical id` line before it parsed to its physical
      id; a `core id` line with no physical id in force adds nothing. */
  lemma {:induction false} CorePairsAreRecordedPairs(ls: seq<CpuinfoLine>, p: nat, c: nat)
    ensures (p, c) in ScanCores(ls).pairs <==> exists j :: RecordsPair(ls, j, p, c)
    decreases |ls|
  {
    if ls != [] {
      var n := |ls| - 1;
      var prefix := ls[..n];
      CorePairsAreRecordedPairs(prefix, p, c);
      ScanTracksLastPhysicalId(prefix);
      forall j | 0 <= j < n
        ensures RecordsPair(ls, j, p, c) <==> RecordsPair(prefix, j, p, c)
      {
        assert prefix[..j] == ls[..j];
      }
      if (p, c) in ScanCores(ls).pairs && (p, c) !in ScanCores(prefix).pairs {
        assert RecordsPair(ls, n, p, c);
      }
      if exists j :: RecordsPair(ls, j, p, c) {
        var j :| RecordsPair(ls, j, p, c);
        if j < n {
          assert RecordsPair(prefix, j, p, c);
        }
      }
    }
  }

  /** Each line adds at most one pair. */
  lemma {:induction false} CorePairsAtMostLines(ls: seq<CpuinfoLine>)
    ensures |ScanCores(ls).pairs| <= |ls|
    decreases |ls|
  {
    if ls != [] {
      CorePairsAtMostLines(ls[..|ls| - 1]);
    }
  }

  /** Each `core id` line adds at most one pair, so there are no more cores
      than `core id` lines. */
  lemma {:induction false} CorePairsBound(ls: seq<CpuinfoLine>)
    ensures |ScanCores(ls).pairs| <= |set j: nat | j < |ls| && ls[j].CoreId?|
    decreases |ls|
  {
    if ls != [] {
      var n := |ls| - 1;
      CorePairsBound(ls[..n]);
      var before := set j: nat | j < n && ls[..n][j].CoreId?;
      var after := set j: nat | j < |ls| && ls[j].CoreId?;
      if ls[n].CoreId? {
        assert after == before + {n};
      } else {
        assert after == before;
      }
    }
  }
}
