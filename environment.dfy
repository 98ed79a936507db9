/** The parts of the host the program asks about: the platform string, the
    file system, `PATH` and whether starting a program fails. They are
    inputs of the model; nothing here changes them. */
module Environment {
  import opened Base

  datatype Host = Host(
    /** `sys.platform`. */
    platform: string,
    /** The directory that holds `bin/` next to the sources. */
    installRoot: string,
    /** `getattr(sys, 'frozen', False)`. */
    frozen: bool,
    /** `sys._MEIPASS`, when the attribute exists. */
    meipass: Option<string>,
    /** The paths for which `isfile` holds. */
    files: set<string>,
    /** The paths for which `isdir` holds. */
    dirs: set<string>,
    /** `os.path.expanduser("~")`. */
    home: string,
    /** `shutil.which`: the programs found on `PATH` and where. */
    onPath: map<string, string>,
    /** The programs whose `subprocess.Popen` raises. */
    failingLaunches: set<string>,
    /** `hasattr(subprocess, "CREATE_NO_WINDOW")`. */
    hasCreateNoWindow: bool,
    /** Whether `subprocess.run` of the Windows sound panel raises. */
    shellFails: bool)

  /** `shutil.which(name)`. */
  function Which(h: Host, name: string): (r: Option<string>)
    ensures r.Some? <==> name in h.onPath
  {
    if name in h.onPath then Some(h.onPath[name]) else None
  }
}
