# systemcheck — a verified model of the resource readers

`systemcheck` reports the CPU and memory a Linux process can use. It reads
the kernel's pseudo-files and produces one resource view:

- `/proc/self/cgroup` gives the cgroup path;
- `/proc/meminfo` gives total and available memory;
- `/proc/cpuinfo` gives the logical and physical CPU counts;
- the cgroup v2 files (`cpu.max`, `memory.max`, `memory.current`) and the
  cgroup v1 files (`cpu.cfs_quota_us`, `cpu.cfs_period_us`,
  `memory.limit_in_bytes`, `memory.usage_in_bytes`) give the limits.

The CPU quota, memory limit and memory usage readers are fall-back chains.
They try the process's own cgroup node, then the root of the hierarchy, then
the other cgroup version, and end with "no value". The `/proc` readers
consult one file each: the memory totals default to 0, and the CPU counts
fall back to the runtime's figures. The locator scans one listing and
defaults to the empty path.

This project models those readers and the figures `main` derives from them.
The filesystem is a value, `Fs.FileSystem`: a map from readable paths to
their text, plus the set of paths that exist. Each reader is a function of
that value, or a method whose loop is proved equal to such a function.
The lemmas state the fall-back orders, the sentinel handling and the
parsing round trips.

Modules, in dependency order:

| file | module | contents |
|---|---|---|
| base.dfy | `Base` | `Option`, `Result`, the `u64`/`i64` bounds |
| text.dfy | `Text` | `trim`, `split_whitespace`, `lines`, `split`, `starts_with`, `contains` over ASCII white space |
| numeric.dfy | `Numeric` | `str::parse` for `u64` (also used for `usize`) and `i64`, and decimal rendering with round trips |
| fs.dfy | `Fs` | the filesystem snapshot, `read_trimmed`, the trimmed numeric reads, the cgroup file paths |
| cgroup_path.dfy | `CgroupLocator` | `get_current_cgroup_path` |
| cpu_quota.dfy | `CpuQuota` | the v2 and v1 quota readers and their combination |
| memory.dfy | `CgroupMemory` | the four-tier memory limit and usage chains |
| proc_info.dfy | `ProcInfo` | `/proc/meminfo` and `/proc/cpuinfo` |
| report.dfy | `Report` | `main`'s gathering: used memory, the constrained flags, the cgroup version, `has_explicit_limits_at_path`, the cgroup note |

How the model represents the source:

- **Paths.** Each path is built by plain concatenation, as `format!` builds
  it: `"/sys/fs/cgroup" + path + "/cpu.max"`. The empty cgroup path
  therefore names the root file. The path `"/"` names
  `/sys/fs/cgroup//cpu.max`, which is a different key of the map, although
  on Linux it is the same file as `/sys/fs/cgroup/cpu.max`.
- **CPU quota.** The quota is the integer pair `(quota, period)` the kernel
  file holds. `CpuQuota.Cpus` is the ratio as a `real`, the value the source
  computes in `f64` whenever the period is not 0.
- **Locator.** The source comment at src/main.rs:461 says the v1 scan gets
  the memory controller's path. The code takes
  the third `:`-separated field of the FIRST line that CONTAINS `:memory:`.
  It does not test whether the middle field is exactly `memory`, and it does
  not take the last field. The model follows the code.
  `CgroupLocator.V1PathEndsAtColon` shows the consequence: a v1 path that
  contains a `:` is cut short at that colon.

## Model

| member | source | states |
|---|---|---|
| Fs.ReadTrimmed | src/main.rs:311-313 | nothing exactly when the file cannot be read; otherwise the contents with the surrounding white space removed: an infix of the file, with no white space at either end |
| Fs.ReadU64 | src/main.rs:558-566 | a value exactly when the file is readable and its trimmed text parses as `u64`; the value is within `u64` |
| Fs.ReadI64 | src/main.rs:519-527 | a value exactly when the file is readable and its trimmed text parses as `i64`; the value is within `i64` |
| Fs.UnifiedFileIsRootIff | src/main.rs:490 | the node's `cpu.max` path is the root's path exactly when the cgroup path is empty |
| Fs.ControllerFileIsRootIff | src/main.rs:537-538 | a v1 node file is the v1 root file exactly when the cgroup path is empty |
| Text.Trim | src/main.rs:311-313 | `str::trim`: the result has no white space at either end, and only white space was removed around it |
| Text.SplitWhitespaceConcat | src/main.rs:389 | the fields of `split_whitespace`, concatenated, are the text with all white space removed |
| Text.SplitWhitespaceEmpty | src/main.rs:389-390 | there are no fields exactly when the text is all white space |
| Text.SplitWhitespaceOfTrim | src/main.rs:494 | trimming before `split_whitespace` changes no field |
| Text.SplitCount | src/main.rs:464 | `split(':')` yields one piece more than the text has colons |
| Text.Split | src/main.rs:464 | the pieces contain no separator, there is at least one, and joined with the separator they give back the text |
| Text.ContainsAt | src/main.rs:463 | `contains` holds exactly when the needle occurs at some index |
| Text.Lines | src/main.rs:455 | `str::lines`: no line holds a line feed, and there are no lines exactly for the empty text |
| Text.LinesAtFirst | src/main.rs:455 | the first line is the text up to the first line feed, less one carriage return before it, and the lines of the rest follow |
| Text.LinesOfLine | src/main.rs:455 | a non-empty text without a line feed is one line, itself |
| Text.SplitWhitespace | src/main.rs:494 | every field of `split_whitespace` is non-empty and holds no white space |
| Numeric.ParseU64OfDecimal | src/main.rs:562 | parsing the decimal text of any `u64` gives that value back |
| Numeric.ParseI64OfDecimal | src/main.rs:495-496 | parsing the decimal text of any `i64`, negative ones included, gives that value back |
| Numeric.ParseU64 | src/main.rs:391 | a parsed value is within `u64`; the empty text does not parse |
| Numeric.ParseI64 | src/main.rs:495-496 | a parsed value is within `i64`; a negative value comes from text that starts with `-` |
| Numeric.MaxIsNotANumber | src/main.rs:558-566 | the kernel's word `max` parses neither as `u64` nor as `i64` |
| CgroupLocator.CurrentCgroupPath | src/main.rs:452-472 | an unreadable `/proc/self/cgroup` gives the empty path |
| CgroupLocator.CgroupPathOfListing | src/main.rs:455-471 | the path read from a listing; a path holding a colon can only come from a v2 line, since a v1 field never holds one |
| CgroupLocator.GetCurrentCgroupPath | src/main.rs:452-472 | the two scans return exactly `CurrentCgroupPath`, the first v2 line's remainder, else the first v1 memory line's third field, else the empty path |
| CgroupLocator.FirstWhere | src/main.rs:455-469 | the index found is the first line that satisfies the test; nothing is found only when no line satisfies it |
| CgroupLocator.UnifiedEntryWins | src/main.rs:455-459 | the first `0::` line decides, whatever v1 lines surround it |
| CgroupLocator.MemoryEntryDecides | src/main.rs:462-469 | without a v2 line, the first line containing `:memory:` decides, and the path is its third field |
| CgroupLocator.MemoryMarkerHasThreeFields | src/main.rs:464-465 | a line containing `:memory:` always has at least three fields, so the length test always passes |
| CgroupLocator.NoEntryMeansRoot | src/main.rs:471 | with neither kind of line the path is empty |
| CgroupLocator.V1PathEndsAtColon | src/main.rs:464-466 | a v1 memory line whose path holds a colon yields only the part before that colon |
| CpuQuota.ReadCpuMax | src/main.rs:494-495 | a record counts as limited exactly when the text has two fields and the first is not `max`; its fields are those two |
| CpuQuota.ParseRecord | src/main.rs:496-497 | is a quota exactly when both fields parse as `i64`, and then it is those two values; otherwise it is a malformed-record error |
| CpuQuota.V2RootCpuQuota | src/main.rs:502-512 | an unreadable root file is an error; a root record that is not limited is the no-quota error; a limited root record whose fields parse gives exactly those values, and a quota comes from nowhere else; any malformed error names the root file |
| CpuQuota.V2RootReadsKernelRecord | src/main.rs:502-510 | the kernel's root record `<quota> <period>` is read back as that pair |
| CpuQuota.V2CpuQuotaForPath | src/main.rs:489-513 | a quota is the parsed pair of the node's limited record or of the root's; an error is a malformed node or root record, an unreadable root file, or no quota set |
| CpuQuota.V2NodeRecordDecides | src/main.rs:493-499 | a limited node record decides the v2 result, its parse error included, whatever the root holds |
| CpuQuota.V2FallsBackToRoot | src/main.rs:492-502 | an unreadable node file hands over to the root |
| CpuQuota.V2MaxDefersToRoot | src/main.rs:495 | a node `max <period>` record hands over to the root |
| CpuQuota.V2ReadsKernelRecord | src/main.rs:493-498 | the kernel's record `<quota> <period>` is read back as that pair, with no sign check |
| CpuQuota.V1QuotaFromFiles | src/main.rs:520-531 | a quota exactly when both files are readable and parse as `i64`, and both values are positive; it is those two values |
| CpuQuota.V1RootCpuQuota | src/main.rs:515-534 | any quota found is positive in both parts |
| CpuQuota.V1NodeCpuQuota | src/main.rs:537-552 | the node's quota/period pair under the v1 CPU controller; any pair found is positive in both parts |
| CpuQuota.V1CpuQuotaForPath | src/main.rs:536-556 | a positive node quota decides; otherwise the root's quota, and only positive quotas come out |
| CpuQuota.V1RootIsEmptyPathNode | src/main.rs:515-556 | the root reader is the node reader for the empty path |
| CpuQuota.V1ReadsKernelFiles | src/main.rs:537-552 | the kernel's one-number files are read back as the positive pair they hold |
| CpuQuota.V1UnlimitedDefersToRoot | src/main.rs:548-555 | a node quota of `-1` (unlimited) hands over to the root |
| CpuQuota.CpuQuotaForPath | src/main.rs:479-487 | a v2 quota wins; any v2 failure falls back to v1 |
| CpuQuota.NonPositiveQuotaComesFromV2 | src/main.rs:479-556 | a zero or negative quota can only come from the v2 reader, which checks no sign |
| CpuQuota.MalformedV2NodeUsesV1 | src/main.rs:479-499 | a malformed node record skips the v2 root and goes to v1 |
| CpuQuota.ScenarioOneCpu | src/main.rs:493-498 | `100000 100000` at the node is one CPU |
| CpuQuota.ScenarioOneAndAHalfCpus | src/main.rs:536-552 | with no v2 files, v1 `150000`/`100000` is one and a half CPUs |
| CgroupMemory.MemoryLimitIsFirstAcceptedTier | src/main.rs:558-600 | the limit is the first of the four tiers (v2 node, v2 root, v1 node, v1 root) that parses and is not that layout's unlimited sentinel |
| CgroupMemory.MemoryUsageIsFirstParsedTier | src/main.rs:602-633 | the usage is the first of the four tiers that parses; no sentinel is filtered |
| CgroupMemory.FirstPresent | src/main.rs:558-600 | nothing exactly when every tier is empty; otherwise the value of the first non-empty tier |
| CgroupMemory.MemoryLimitForPath | src/main.rs:558-600 | a limit is always below `u64::MAX` |
| CgroupMemory.MemoryUsageForPath | src/main.rs:602-633 | a usage is within `u64` |
| CgroupMemory.MemoryLimitTiers | src/main.rs:558-600 | names the four tier values in order |
| CgroupMemory.NodeLimitWins | src/main.rs:560-566 | an accepted node `memory.max` is the limit |
| CgroupMemory.LimitIsNeverASentinel | src/main.rs:558-600 | a reported limit is below the unlimited sentinel of at least one layout |
| CgroupMemory.MaxFileRejected | src/main.rs:562 | a file holding `max` yields no number |
| CgroupMemory.KernelValueReads | src/main.rs:562 | a file holding a `u64` and a line feed is read back as that value |
| CgroupMemory.UnlimitedV2DefersToV1 | src/main.rs:558-578 | `max` at both v2 tiers passes the decision to the v1 tiers |
| CgroupMemory.V1SentinelMeansNoLimit | src/main.rs:579-599 | the v1 sentinel 9223372036854771712 at both v1 tiers, with no v2 files, is no limit |
| CgroupMemory.UsageKeepsMaxValue | src/main.rs:604-609 | a usage of `u64::MAX` is reported, though the same text as a limit would be refused |
| ProcInfo.ParseMeminfoLine | src/main.rs:388-395 | fewer than two fields is nothing; a value is within `u64` |
| ProcInfo.ParseMeminfoKernelLine | src/main.rs:388-395 | the kernel's line `<Label>:<padding><value> kB` gives back the value |
| ProcInfo.SystemMemory | src/main.rs:366-386 | an unreadable `/proc/meminfo` gives 0 and 0; both figures are within `u64`, and each is the scanned kB value times 1024 below 2^54 kB |
| ProcInfo.GetSystemMemoryFromProc | src/main.rs:366-386 | the loop computes `SystemMemory`: the scan of the lines, converted to bytes |
| ProcInfo.ClassifyMeminfoSets | src/main.rs:372-380 | a line sets a field exactly when it starts with that field's label and its value parses, and it sets it to that value; no line sets both fields |
| ProcInfo.MeminfoLastLineWins | src/main.rs:371-381 | each field is the value of the last line that sets it |
| ProcInfo.MeminfoMissingIsZero | src/main.rs:367-368 | a field that no line sets stays 0 |
| ProcInfo.KbToBytes | src/main.rs:385 | the byte count is within `u64` and is exactly `kB × 1024` below 2^54 kB |
| ProcInfo.CountWhere | src/main.rs:400-403 | the count is 0 exactly when no line matches, and at most the number of lines |
| ProcInfo.CountWhereCardinality | src/main.rs:400-403 | the number of `processor` lines counted is the number of distinct matching line positions |
| ProcInfo.SystemCpuCount | src/main.rs:397-419 | when `/proc/cpuinfo` has a `processor` line, the result is the count of those lines and is positive; otherwise it is the `sysconf` count when that is positive, else the `num_cpus` count; 0 comes out only when both give nothing |
| ProcInfo.ValueAfterColon | src/main.rs:429-431 | a line without a colon gives nothing; a value is within `usize` |
| ProcInfo.ValueAfterColonReadsKernelLine | src/main.rs:429-431 | the kernel's `<name>: <value>` line gives back the value |
| Text.SplitOfSeparatorFree | src/main.rs:429 | a text without the separator splits into itself alone |
| ProcInfo.Classify | src/main.rs:427-436 | a `physical id` line is taken as such before the `core id` test; a `core id` line only when it is not a `physical id` line; each carries the parsed value after its first colon |
| ProcInfo.SystemPhysicalCpuCount | src/main.rs:421-450 | an unreadable `/proc/cpuinfo` gives the runtime's physical count; any other result is positive and at most the number of lines |
| ProcInfo.CorePairsAtMostLines | src/main.rs:432-439 | the scan collects at most one pair per line |
| ProcInfo.GetSystemPhysicalCpuCount | src/main.rs:421-450 | the loop computes `SystemPhysicalCpuCount`: the number of distinct pairs if any, else the runtime's physical count |
| ProcInfo.ScanTracksLastPhysicalId | src/main.rs:428-431 | the current physical id is the value of the last `physical id` line |
| ProcInfo.CorePairsAreRecordedPairs | src/main.rs:432-439 | a pair is counted exactly when some `core id` line parses to its core id while the physical id in force parses to its physical id |
| ProcInfo.CorePairsBound | src/main.rs:432-439 | there are no more cores than `core id` lines |
| Report.SaturatingSub | src/main.rs:87 | never above the minuend; the exact difference when it is non-negative; 0 otherwise |
| Report.SystemUsed | src/main.rs:87 | used memory is at most the total; used plus available is the total when available does not exceed it; 0 when it does |
| Report.ConstrainedMemoryMeaning | src/main.rs:129-131 | memory is constrained exactly when a limit exists and is strictly below the total |
| Report.ConstraintsOf | src/main.rs:128-131 | CPU is constrained exactly when fewer CPUs are available than the system has; memory exactly when a limit exists below the system total |
| Report.DetectVersion | src/main.rs:91-100 | v2 exactly when the controllers file exists; v1 exactly when it does not and a v1 mount does; unknown exactly when none exists |
| Report.IsDefaultUserSlicePath | src/main.rs:306-309 | a default user slice exactly when the path starts with `/user.slice/user-` and `/session-` occurs at some index |
| Report.SessionScopeIsDefaultUserSlice | src/main.rs:306-309 | every `/user.slice/user-<uid>.slice/session-<scope>` path is a default user slice |
| Report.ServiceIsNotDefaultUserSlice | src/main.rs:306-309 | no path under `/system.slice/` is one |
| Report.DefaultUserSliceIsNotRoot | src/main.rs:306-309 | a default user slice is never the empty path or `/` |
| Report.V2NoExplicitLimitsInherits | src/main.rs:315-342 | on v2, a node with no explicit limits has the root's quota, and its memory limit comes from the tiers after its own |
| Report.HasExplicitLimitsAtPath | src/main.rs:315-364 | on v2, a node `cpu.max` with two fields whose first is not `max`, a node `memory.max` whose trimmed text is not `max`, or a node effective cpuset that is non-empty and differs from the root's means explicit limits (so in particular a node quota that differs from the root's, or a numeric node `memory.max`, does); off v2, a positive v1 node quota, a v1 node memory limit below the v1 sentinel, or a narrowed v1 cpuset does |
| Report.V2NoTestFiresMeansNoLimits | src/main.rs:317-342 | on v2, with no limited node `cpu.max`, a node `memory.max` missing or `max`, and no narrowed cpuset, there are no explicit limits |
| Report.V1NoTestFiresMeansNoLimits | src/main.rs:343-364 | off v2, with no positive node quota, no node memory limit below the sentinel and no narrowed cpuset, there are no explicit limits |
| Report.V1NoExplicitLimitsInherits | src/main.rs:343-363 | off v2, a node with no explicit limits has the v1 root's quota, and its v1 memory tier yields nothing |
| Report.NoteFor | src/main.rs:187-197 | the default-slice note exactly for a default slice with no explicit limits; "limits present" exactly for explicit limits off the root; the other note only for a non-default path with no explicit limits; they name the path |
| Report.NoNoteExactlyAtRoot | src/main.rs:189-197 | no cgroup note exactly when the path is empty or `/` |
| Report.Gather | src/main.rs:81-100 | each gathered figure is the value its reader's function gives, and used memory is at most the total |

## Left out

- I/O: every file read is a lookup in the `FileSystem` value. File
  permissions, races between reads and non-UTF-8 contents are not modelled;
  a file that fails to read is a path missing from the map.
- Path normalisation: the map keys are the path strings the source builds.
  The kernel resolves `//`, `.` and `..` in a path, so two different keys
  can name one file; the model does not tie their contents together.
- `usize` is taken to be 64 bits wide, as on the 64-bit Linux targets the
  tool is built for.
- `sysconf(_SC_NPROCESSORS_ONLN)`, `num_cpus::get()` and
  `num_cpus::get_physical()` are foreign calls. They are the fields of
  `ProcInfo.Platform`.
- Floating point: the quota stays the integer pair. `CpuQuota.Cpus` gives
  the ratio as an exact `real`, not an `f64`.
- Division by a zero period: `CpuQuota.Cpus` requires a non-zero period. The v2 reader can return
  `Quota(q, 0)` for a record such as `5 0`; the source then divides by zero
  in `f64` and reports infinity or NaN, which the model does not compute. The usage percentage that the
  verbose output computes is not modelled.
- White space is the ASCII set (space, tab, line feed, vertical tab, form
  feed, carriage return). Rust's `trim` and `split_whitespace` also treat
  the other Unicode white-space characters as white space.
- ProcInfo.KbToBytes: models the release-build wrap-around of
  `total_kb * 1024` modulo 2^64. A debug build panics on that overflow
  instead.
- Command-line parsing (clap), the JSON rendering (serde), the human-readable
  byte formatting and every printed line, including `print_cpu_info`,
  `print_memory_info` and `print_cgroup_info`, are output only and are not
  modelled.
- `get_cgroup_cpu_quota` (src/main.rs:474-477) is not modelled: it only
  composes the locator with `CpuQuota.CpuQuotaForPath`.
- `Report.Gather` models only the shared gathering block of `main`. Which
  output format `main` chooses depends on the command-line flags, and that
  choice is not modelled.
- The integration tests (tests/systemd_integration.rs) start real systemd
  units and are not part of this model.
