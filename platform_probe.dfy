/** The platform helpers (`platform_utils`): which platform this is, the
    process-creation flag that hides a console window, the default folder
    for recordings, the search for an ffmpeg binary, and opening the
    system's sound settings. The host is an input (`Environment.Host`). */
module PlatformProbe {
  import opened Base
  import opened Text
  import opened Environment

  const Win32 := "win32"
  const LinuxPrefix := "linux"

  /** `subprocess.CREATE_NO_WINDOW`. */
  const CreateNoWindow: nat := 0x0800_0000

  predicate IsWindows(h: Host) {
    h.platform == Win32
  }

  predicate IsLinux(h: Host) {
    StartsWith(h.platform, LinuxPrefix)
  }

  /** No platform string is both. */
  lemma WindowsIsNotLinux(h: Host)
    ensures !(IsWindows(h) && IsLinux(h))
  {
    if IsWindows(h) {
      assert h.platform[..|LinuxPrefix|][0] == 'w';
    }
  }

  /** `create_no_window_flags()`. */
  function NoWindowFlags(h: Host): (r: nat)
    ensures r != 0 <==> IsWindows(h) && h.hasCreateNoWindow
    ensures r == 0 || r == CreateNoWindow
  {
    if IsWindows(h) && h.hasCreateNoWindow then CreateNoWindow else 0
  }

  // ---------------------------------------------------------------------
  // `default_recordings_dir`

  const RecordingsFolder := "Synthotic_Recordings"

  function DocumentsDir(h: Host): string {
    PathJoin(h.home, "Documents")
  }

  /** The recordings folder lies under the home directory, is named
      `Synthotic_Recordings`, and is inside `Documents` exactly when that
      directory exists. */
  function DefaultRecordingsDir(h: Host): (r: string)
    ensures StartsWith(r, h.home + "/")
    ensures |r| > |RecordingsFolder| && r[|r| - |RecordingsFolder|..] == RecordingsFolder
    ensures StartsWith(r, DocumentsDir(h) + "/") <==> DocumentsDir(h) in h.dirs
    ensures |r| == |if DocumentsDir(h) in h.dirs then DocumentsDir(h) else h.home| + 1 + |RecordingsFolder|
  {
    var docs := DocumentsDir(h);
    if docs in h.dirs then
      var r := PathJoin(docs, RecordingsFolder);
      assert r[..|h.home + "/"|] == h.home + "/";
      r
    else
      var r := PathJoin(h.home, RecordingsFolder);
      assert r[|h.home| + 1] == 'S' != (docs + "/")[|h.home| + 1];
      r
  }

  // ---------------------------------------------------------------------
  // `find_ffmpeg_binary`

  /** The executable's name on this platform. */
  function BinaryName(h: Host): string {
    if IsWindows(h) then "ffmpeg.exe" else "ffmpeg"
  }

  function BinIn(dir: string, h: Host): string {
    PathJoin(PathJoin(dir, "bin"), BinaryName(h))
  }

  /** The places the binary is looked for, in order: the bundled `bin/`
      copy, then the frozen `_MEIPASS` copy when the application is frozen. */
  function Candidates(h: Host): (r: seq<string>)
    ensures 1 <= |r| <= 2 && r[0] == BinIn(h.installRoot, h)
    ensures |r| == 2 <==> h.frozen && h.meipass.Some?
    ensures |r| == 2 ==> r[1] == BinIn(h.meipass.value, h)
  {
    [BinIn(h.installRoot, h)] + if h.frozen && h.meipass.Some? then [BinIn(h.meipass.value, h)] else []
  }

  /** The first of `cs` that is an existing file. */
  function FirstFile(cs: seq<string>, files: set<string>): (r: Option<string>)
    decreases |cs|
    ensures r.Some? ==> r.value in files &&
                        exists k :: 0 <= k < |cs| && cs[k] == r.value && (forall j :: 0 <= j < k ==> cs[j] !in files)
    ensures r.None? <==> forall j :: 0 <= j < |cs| ==> cs[j] !in files
  {
    if cs == [] then None
    else if cs[0] in files then
      assert cs[0] == cs[0];
      Some(cs[0])
    else
      var rest := FirstFile(cs[1..], files);
      if rest.Some? then
        var k :| 0 <= k < |cs[1..]| && cs[1..][k] == rest.value && forall j :: 0 <= j < k ==> cs[1..][j] !in files;
        assert cs[k + 1] == rest.value;
        assert forall j :: 0 <= j < k + 1 ==> cs[j] !in files by {
          forall j | 0 <= j < k + 1 ensures cs[j] !in files {
            if j > 0 { assert cs[j] == cs[1..][j - 1]; }
          }
        }
        rest
      else
        assert forall j :: 0 <= j < |cs| ==> cs[j] !in files by {
          forall j | 0 <= j < |cs| ensures cs[j] !in files {
            if j > 0 { assert cs[j] == cs[1..][j - 1]; }
          }
        }
        rest
  }

  /** `shutil.which`, used only when no candidate exists: on Windows
      `ffmpeg.exe` is asked for before `ffmpeg`. */
  function PathFallback(h: Host): (r: Option<string>)
    ensures !IsWindows(h) ==> r == Which(h, "ffmpeg")
    ensures IsWindows(h) && Present(Which(h, "ffmpeg.exe")) ==> r == Which(h, "ffmpeg.exe")
    ensures IsWindows(h) && !Present(Which(h, "ffmpeg.exe")) ==> r == Which(h, "ffmpeg")
  {
    if IsWindows(h) then
      var exe := Which(h, "ffmpeg.exe");
      if Present(exe) then exe else Which(h, "ffmpeg")
    else Which(h, "ffmpeg")
  }

  /** What `find_ffmpeg_binary` returns. */
  function FfmpegBinary(h: Host): Option<string> {
    var found := FirstFile(Candidates(h), h.files);
    if found.Some? then found else PathFallback(h)
  }

  /** The search order: the bundled binary wins; the frozen copy is taken
      only when the bundled one is missing; and `PATH` is asked only when
      neither candidate exists. */
  lemma FfmpegBinaryOrder(h: Host)
    ensures BinIn(h.installRoot, h) in h.files ==> FfmpegBinary(h) == Some(BinIn(h.installRoot, h))
    ensures (BinIn(h.installRoot, h) !in h.files && h.frozen && h.meipass.Some? &&
             BinIn(h.meipass.value, h) in h.files) ==> FfmpegBinary(h) == Some(BinIn(h.meipass.value, h))
    ensures (forall c :: c in Candidates(h) ==> c !in h.files) ==> FfmpegBinary(h) == PathFallback(h)
    ensures (exists c :: c in Candidates(h) && c in h.files) ==>
              FfmpegBinary(h).Some? && FfmpegBinary(h).value in Candidates(h) && FfmpegBinary(h).value in h.files
  {
    var cs := Candidates(h);
    var found := FirstFile(cs, h.files);
    if found.Some? {
      var k :| 0 <= k < |cs| && cs[k] == found.value && forall j :: 0 <= j < k ==> cs[j] !in h.files;
      assert found.value in cs;
    } else {
      assert forall c :: c in cs ==> c !in h.files;
    }
  }

  /** `find_ffmpeg_binary()`: collect the candidates, return the first one
      that exists, otherwise ask `PATH`. */
  method FindFfmpegBinary(h: Host) returns (r: Option<string>)
    ensures r == FfmpegBinary(h)
  {
    var name := if IsWindows(h) then "ffmpeg.exe" else "ffmpeg";
    var candidates: seq<string> := [];
    candidates := candidates + [PathJoin(PathJoin(h.installRoot, "bin"), name)];
    if h.frozen && h.meipass.Some? {
      var frozenBin := PathJoin(h.meipass.value, "bin");
      candidates := candidates + [PathJoin(frozenBin, name)];
    }
    assert candidates == Candidates(h);
    var i := 0;
    while i < |candidates|
      invariant 0 <= i <= |candidates|
      invariant FirstFile(candidates, h.files) == FirstFile(candidates[i..], h.files)
    {
      if candidates[i] in h.files {
        return Some(candidates[i]);
      }
      assert candidates[i..][1..] == candidates[i + 1..];
      i := i + 1;
    }
    if IsWindows(h) {
      r := Which(h, "ffmpeg.exe");
      if !Present(r) {
        r := Which(h, "ffmpeg");
      }
    } else {
      r := Which(h, "ffmpeg");
    }
  }

  // ---------------------------------------------------------------------
  // `open_audio_settings`

  /** The Linux sound-settings tools, in the order they are tried. */
  const LinuxTools: seq<seq<string>> := [
    ["pavucontrol"],
    ["gnome-control-center", "sound"],
    ["plasma-systemsettings", "kcm_pulseaudio"],
    ["mate-volume-control"],
    ["xfce4-settings-manager"]
  ]

  /** `shutil.which(cmd[0])` finds the tool. */
  predicate Installed(h: Host, cmd: seq<string>) {
    cmd != [] && Present(Which(h, cmd[0]))
  }

  /** The tool is installed and `Popen` of it does not raise. */
  predicate Spawns(h: Host, cmd: seq<string>) {
    Installed(h, cmd) && cmd[0] !in h.failingLaunches
  }

  function SpawnMarks(h: Host, cmds: seq<seq<string>>): (m: seq<bool>)
    ensures |m| == |cmds| && forall i :: 0 <= i < |cmds| ==> m[i] == Spawns(h, cmds[i])
  {
    seq(|cmds|, i requires 0 <= i < |cmds| => Spawns(h, cmds[i]))
  }

  /** The installed tools among `cmds`, in order: the ones `Popen` is
      tried on when every earlier one failed. */
  function InstalledOf(h: Host, cmds: seq<seq<string>>): seq<seq<string>>
    decreases |cmds|
  {
    if cmds == [] then []
    else InstalledOf(h, cmds[..|cmds| - 1]) + if Installed(h, cmds[|cmds| - 1]) then [cmds[|cmds| - 1]] else []
  }

  lemma {:induction false} InstalledOfListed(h: Host, cmds: seq<seq<string>>, c: seq<string>)
    decreases |cmds|
    ensures c in InstalledOf(h, cmds) <==> c in cmds && Installed(h, c)
  {
    if cmds != [] {
      var init := cmds[..|cmds| - 1];
      InstalledOfListed(h, init, c);
      assert cmds == init + [cmds[|cmds| - 1]];
    }
  }

  /** The tools of `cmds` that `Popen` is tried on, in order: every
      installed one up to the first that spawns. */
  function Tried(h: Host, cmds: seq<seq<string>>): seq<seq<string>> {
    var k := FirstTrue(SpawnMarks(h, cmds));
    InstalledOf(h, if k.Some? then cmds[..k.value + 1] else cmds)
  }

  /** Trying `cmds` succeeds exactly when one of them spawns; that one is
      the last tried, every tool tried before it is installed and fails to
      spawn, and only installed tools of `cmds` are tried. */
  lemma TriedInOrder(h: Host, cmds: seq<seq<string>>)
    ensures FirstTrue(SpawnMarks(h, cmds)).Some? <==> exists k :: 0 <= k < |cmds| && Spawns(h, cmds[k])
    ensures FirstTrue(SpawnMarks(h, cmds)).Some? ==>
              var t := Tried(h, cmds);
              t != [] && Spawns(h, t[|t| - 1]) && forall j :: 0 <= j < |t| - 1 ==> Installed(h, t[j]) && !Spawns(h, t[j])
    ensures forall c :: c in Tried(h, cmds) ==> c in cmds && Installed(h, c)
  {
    var m := SpawnMarks(h, cmds);
    var k := FirstTrue(m);
    if k.Some? {
      var pre := cmds[..k.value];
      var upTo := cmds[..k.value + 1];
      assert upTo == pre + [cmds[k.value]];
      assert InstalledOf(h, upTo) == InstalledOf(h, pre) + [cmds[k.value]];
      forall c | c in InstalledOf(h, pre) ensures Installed(h, c) && !Spawns(h, c) {
        InstalledOfListed(h, pre, c);
        var j :| 0 <= j < |pre| && pre[j] == c;
        assert !m[j];
      }
      var t := InstalledOf(h, upTo);
      forall j | 0 <= j < |t| - 1 ensures Installed(h, t[j]) && !Spawns(h, t[j]) {
        assert t[j] in InstalledOf(h, pre);
      }
      forall c | c in t ensures c in cmds && Installed(h, c) {
        InstalledOfListed(h, upTo, c);
      }
    } else {
      forall c | c in InstalledOf(h, cmds) ensures c in cmds && Installed(h, c) {
        InstalledOfListed(h, cmds, c);
      }
    }
  }

  /** The loop over the Linux tools: skip a tool that is not on `PATH`, go
      on after a failed spawn, stop at the first that starts. */
  method TryTools(h: Host, cmds: seq<seq<string>>) returns (ok: bool, ghost tried: seq<seq<string>>)
    requires forall k :: 0 <= k < |cmds| ==> cmds[k] != []
    ensures ok == FirstTrue(SpawnMarks(h, cmds)).Some?
    ensures tried == Tried(h, cmds)
  {
    tried := [];
    ghost var m := SpawnMarks(h, cmds);
    var i := 0;
    while i < |cmds|
      invariant 0 <= i <= |cmds|
      invariant FirstTrue(m[..i]).None?
      invariant tried == InstalledOf(h, cmds[..i])
    {
      var cmd := cmds[i];
      FirstTrueStep(m, i);
      assert cmds[..i + 1] == cmds[..i] + [cmd];
      assert InstalledOf(h, cmds[..i + 1]) == InstalledOf(h, cmds[..i]) + if Installed(h, cmd) then [cmd] else [];
      if Present(Which(h, cmd[0])) {
        tried := tried + [cmd];
        if cmd[0] !in h.failingLaunches {
          FirstTrueAt(m, i);
          return true, tried;
        }
        i := i + 1;
        continue;
      }
      i := i + 1;
    }
    assert cmds[..|cmds|] == cmds;
    assert m[..|cmds|] == m;
    return false, tried;
  }

  /** Whether `open_audio_settings()` reports success. */
  function AudioSettingsOpened(h: Host): bool {
    if IsWindows(h) then !h.shellFails
    else if IsLinux(h) then FirstTrue(SpawnMarks(h, LinuxTools)).Some?
    else false
  }

  /** The tools `Popen` is tried on. */
  function ToolsTried(h: Host): seq<seq<string>> {
    if !IsWindows(h) && IsLinux(h) then Tried(h, LinuxTools) else []
  }

  /** Windows reports whether the shell started the sound panel; Linux
      succeeds exactly when one of its tools is installed and spawns; every
      other platform fails without trying anything. */
  lemma AudioSettingsOutcome(h: Host)
    ensures IsWindows(h) ==> (AudioSettingsOpened(h) <==> !h.shellFails) && ToolsTried(h) == []
    ensures IsLinux(h) ==> (AudioSettingsOpened(h) <==> exists k :: 0 <= k < |LinuxTools| && Spawns(h, LinuxTools[k]))
    ensures IsLinux(h) ==> ToolsTried(h) == Tried(h, LinuxTools)
    ensures !IsWindows(h) && !IsLinux(h) ==> !AudioSettingsOpened(h) && ToolsTried(h) == []
  {
    WindowsIsNotLinux(h);
    TriedInOrder(h, LinuxTools);
  }

  /** `open_audio_settings()`: on Windows open the sound panel through the
      shell; on Linux try the tools in their listed order. */
  method OpenAudioSettings(h: Host) returns (ok: bool, ghost tried: seq<seq<string>>)
    ensures ok == AudioSettingsOpened(h)
    ensures tried == ToolsTried(h)
  {
    if IsWindows(h) {
      return !h.shellFails, [];
    }
    if IsLinux(h) {
      ok, tried := TryTools(h, LinuxTools);
      return;
    }
    return false, [];
  }
}
