/** The filesystem as the readers see it: a snapshot mapping each readable
    path to its contents, and the set of paths that exist. Paths are plain
    strings built by concatenation, exactly as `format!` builds them. */
module Fs {
  import opened Base
  import opened Text
  import opened Numeric

  /** `files` holds what `fs::read_to_string` returns for a path; a path that
      is not a key fails to read (missing, unreadable or not UTF-8).
      `existing` holds the paths for which `Path::exists` is true. */
  datatype FileSystem = FileSystem(files: map<string, string>, existing: set<string>)

  /** `fs::read_to_string(path).ok()`. */
  function ReadToString(fs: FileSystem, path: string): Option<string> {
    if path in fs.files then Some(fs.files[path]) else None
  }

  /** `Path::new(path).exists()`. */
  predicate PathExists(fs: FileSystem, path: string) {
    path in fs.existing
  }

  /** `read_trimmed`: the file's contents without surrounding white space, or
      nothing when the file cannot be read. */
  function ReadTrimmed(fs: FileSystem, path: string): (r: Option<string>)
    ensures r.None? <==> path !in fs.files
    ensures r.Some? ==> exists k :: TrimmedAt(fs.files[path], r.value, k)
    ensures r.Some? && r.value != [] ==> !IsSpace(r.value[0]) && !IsSpace(r.value[|r.value| - 1])
  {
    match ReadToString(fs, path)
    case None => None
    case Some(s) => Some(Trim(s))
  }

  /** `fs::read_to_string(path)` then `.trim().parse::<u64>()`; nothing when
      either step fails. */
  function ReadU64(fs: FileSystem, path: string): (r: Option<nat>)
    ensures r.Some? ==> path in fs.files && IsU64(r.value)
    ensures r.Some? <==> path in fs.files && ParseU64(Trim(fs.files[path])).Some?
  {
    match ReadTrimmed(fs, path)
    case None => None
    case Some(s) => ParseU64(s)
  }

  /** `fs::read_to_string(path)` then `.trim().parse::<i64>()`. */
  function ReadI64(fs: FileSystem, path: string): (r: Option<int>)
    ensures r.Some? ==> path in fs.files && I64Min <= r.value <= I64Max
    ensures r.Some? <==> path in fs.files && ParseI64(Trim(fs.files[path])).Some?
  {
    match ReadTrimmed(fs, path)
    case None => None
    case Some(s) => ParseI64(s)
  }

  // ------------------------------------------------------------ cgroup file paths

  /** The cgroup v2 mount point; v1 controllers are mounted beneath it. */
  const CgroupMount: string := "/sys/fs/cgroup"

  /** `format!("/sys/fs/cgroup{}/{file}", cgroup_path)`: a file of the unified
      (v2) hierarchy at a node. */
  function UnifiedFile(cgroupPath: string, file: string): string {
    CgroupMount + cgroupPath + "/" + file
  }

  /** `format!("/sys/fs/cgroup/{controller}{}/{file}", cgroup_path)`: a file of
      a v1 controller hierarchy at a node. */
  function ControllerFile(controller: string, cgroupPath: string, file: string): string {
    CgroupMount + "/" + controller + cgroupPath + "/" + file
  }

  /** A node file names the root's file exactly when the cgroup path is empty:
      for `""` the node tier and the root tier use the same key, for any
      other path (`"/"` included) they use different keys. The keys are path
      strings, not resolved files: on Linux `/sys/fs/cgroup//cpu.max` and
      `/sys/fs/cgroup/cpu.max` are the same file, which a `FileSystem` may
      map to different contents. */
  lemma UnifiedFileIsRootIff(cgroupPath: string, file: string)
    ensures UnifiedFile(cgroupPath, file) == UnifiedFile("", file) <==> cgroupPath == ""
  {
    if UnifiedFile(cgroupPath, file) == UnifiedFile("", file) {
      assert |UnifiedFile(cgroupPath, file)| == |UnifiedFile("", file)| + |cgroupPath|;
    }
  }

  lemma ControllerFileIsRootIff(controller: string, cgroupPath: string, file: string)
    ensures ControllerFile(controller, cgroupPath, file) == ControllerFile(controller, "", file)
            <==> cgroupPath == ""
  {
    if ControllerFile(controller, cgroupPath, file) == ControllerFile(controller, "", file) {
      assert |ControllerFile(controller, cgroupPath, file)|
          == |ControllerFile(controller, "", file)| + |cgroupPath|;
    }
  }
}
