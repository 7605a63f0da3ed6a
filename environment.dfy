/**
 * The host as the bridge sees it. Everything the source learns by calling
 * out (`shutil.which`, `west_topdir()`, `Path.cwd().resolve()`, the file
 * system, `configparser`, the exit status of a probe) is a field here, so
 * that every operation is a function of this record.
 */
module Environment {
  import opened Paths
  import opened Config

  /** `sys.version_info` up to the micro version. */
  datatype VersionInfo = VersionInfo(major: nat, minor: nat, micro: nat)

  /** `.west/config` after `configparser` read it: a parse error, or its sections (empty when the file is missing). */
  datatype WestConfig = Unreadable(reason: string) | Sections(sections: map<string, map<string, string>>)

  datatype Host = Host(
    executables: set<string>,     // names `shutil.which` finds on the search path
    succeeds: set<seq<string>>,   // argument vectors that run and exit with status 0
    dirs: set<Path>,              // existing directories
    files: set<Path>,             // existing regular files
    topdir: Path,                 // `west_topdir()`, resolved
    cwd: Path,                    // `Path.cwd()`, resolved
    westConfig: WestConfig,
    envFile: EnvFile,             // `west-env.yml` in the current directory
    python: VersionInfo)
  {
    /** `subprocess.check_output(argv)` returns rather than raises. */
    predicate Runs(argv: seq<string>) {
      argv in succeeds
    }
  }
}
