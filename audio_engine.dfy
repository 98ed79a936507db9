/** The DirectShow capture engine (`AudioEngine`): it finds the bundled
    ffmpeg, lists the capture devices, picks a loopback and a microphone,
    turns friendly names into DirectShow ids, starts one ffmpeg process that
    records (and, with a microphone, mixes) into a WAV file, and stops it by
    escalating from `q` to terminate to kill.

    ffmpeg, the sound-device query, the clock and the file system are
    inputs: the text ffmpeg writes to its diagnostic stream, the device
    table, a timestamp string, and oracles that say how the process and the
    output file behave. */
module AudioEngine {
  import opened Base
  import opened Text
  import opened Config
  import opened Environment
  import opened DshowList

  /** `SAMPLE_RATE` and `str(SAMPLE_RATE)`. */
  const SampleRate: nat := 48000
  const SampleRateArg := "48000"

  /** Ids with this prefix are DirectShow device ids already. */
  const DeviceClassPrefix := "@device_cm_"

  // ---------------------------------------------------------------------
  // `_find_ffmpeg`: the bundled Windows binary, then the frozen copy; never PATH.

  function BundledPath(root: string): string {
    PathJoin(PathJoin(root, "bin"), "ffmpeg.exe")
  }

  function FindFfmpeg(h: Host): (r: Option<string>)
    ensures BundledPath(h.installRoot) in h.files ==> r == Some(BundledPath(h.installRoot))
    ensures r.Some? ==> r.value in h.files
    ensures r.Some? && r.value != BundledPath(h.installRoot) ==>
              h.frozen && h.meipass.Some? && r.value == BundledPath(h.meipass.value)
    ensures r.None? <==> BundledPath(h.installRoot) !in h.files &&
                         !(h.frozen && h.meipass.Some? && BundledPath(h.meipass.value) in h.files)
  {
    if BundledPath(h.installRoot) in h.files then Some(BundledPath(h.installRoot))
    else if h.frozen && h.meipass.Some? && BundledPath(h.meipass.value) in h.files then
      Some(BundledPath(h.meipass.value))
    else None
  }

  // ---------------------------------------------------------------------
  // `_load_device_guids_from_config`

  /** The two stored ids as JSON values; a missing or unreadable file gives
      `(None, None)`. */
  function LoadDeviceGuids(file: ConfigFile): (r: (Value, Value))
    ensures file.Json? ==> r == (Lookup(file.entries, LoopbackKey), Lookup(file.entries, MicKey))
    ensures !file.Json? ==> r == (Null, Null)
  {
    match file
    case Json(m) => (Lookup(m, LoopbackKey), Lookup(m, MicKey))
    case _ => (Null, Null)
  }

  // ---------------------------------------------------------------------
  // `_discover_devices`

  /** One row of `sd.query_devices()`. */
  datatype SdDevice = SdDevice(name: string, maxInputChannels: int)

  const LoopbackKeywords: seq<string> := [
    "stereo mix", "loopback", "wave out mix", "what u hear", "what you hear",
    "mixagem estéreo", "mixagem estereo", "mixagem",
    "mezcla estéreo", "mezcla estereo", "mezcla"]

  const MicKeywords: seq<string> := ["microphone", "mic", "input"]

  /** `any(keyword in s for keyword in keywords)`. */
  predicate AnyKeyword(s: string, keywords: seq<string>) {
    exists k :: 0 <= k < |keywords| && Contains(s, keywords[k])
  }

  /** The three things the selection loop looks for. */
  datatype Role = KeywordLoopback | MixFallback | Microphone

  /** The four tests the loop makes of one device. */
  datatype Traits = Traits(loopbackWord: bool, hasInputs: bool, mixWord: bool, micWord: bool)

  function TraitsOf(d: SdDevice): Traits {
    var lower := Lower(d.name);
    Traits(AnyKeyword(lower, LoopbackKeywords), d.maxInputChannels != 0,
           Contains(lower, "mix"), AnyKeyword(lower, MicKeywords))
  }

  /** Whether the loop takes a device with traits `t` for `role`. The
      keyword test comes before the input-channel filter, so a keyword
      device with no input channels still counts; the mix fallback and the
      microphone both need input channels and no loopback keyword (the
      second keyword test of the microphone condition is already implied by
      the `continue`). */
  predicate Takes(role: Role, t: Traits) {
    match role
    case KeywordLoopback => t.loopbackWord
    case MixFallback => !t.loopbackWord && t.hasInputs && t.mixWord
    case Microphone => !t.loopbackWord && t.hasInputs && t.micWord
  }

  predicate Fits(role: Role, d: SdDevice) {
    Takes(role, TraitsOf(d))
  }

  /** Which devices fit `role`, position by position. */
  function Marks(ds: seq<SdDevice>, role: Role): (m: seq<bool>)
    ensures |m| == |ds| && forall i :: 0 <= i < |ds| ==> m[i] == Fits(role, ds[i])
  {
    seq(|ds|, i requires 0 <= i < |ds| => Fits(role, ds[i]))
  }

  function NameAt(ds: seq<SdDevice>, k: Option<nat>): Option<string>
    requires k.Some? ==> k.value < |ds|
  {
    if k.Some? then Some(ds[k.value].name) else None
  }

  /** The last device that fits (the loop overwrites without `break`). */
  function LastFit(ds: seq<SdDevice>, role: Role): Option<string> {
    NameAt(ds, LastTrue(Marks(ds, role)))
  }

  /** The first device that fits (the loop only fills an empty slot). */
  function FirstFit(ds: seq<SdDevice>, role: Role): Option<string> {
    NameAt(ds, FirstTrue(Marks(ds, role)))
  }

  /** `None` or the string, as the value the caller receives. */
  function FromOption(x: Option<string>): (v: Value)
    ensures v == Null <==> x.None?
    ensures x.Some? ==> v == Str(x.value)
  {
    if x.Some? then Str(x.value) else Null
  }

  /** The loop's answer: the keyword device, else the mix fallback, and the microphone. */
  function Heuristic(ds: seq<SdDevice>): (Value, Value) {
    var keyword := LastFit(ds, KeywordLoopback);
    var fallback := FirstFit(ds, MixFallback);
    (FromOption(if !Present(keyword) && Present(fallback) then fallback else keyword),
     FromOption(FirstFit(ds, Microphone)))
  }

  /** What `_discover_devices` returns for the stored ids and the device
      table (`None` when the query raises). */
  function Discover(guids: (Value, Value), devices: Option<seq<SdDevice>>): (r: (Value, Value))
    ensures Truthy(guids.0) ==> r == guids
    ensures !Truthy(guids.0) && devices.None? ==> r == (Null, Null)
    ensures !Truthy(guids.0) && devices.Some? ==> r == Heuristic(devices.value)
  {
    if Truthy(guids.0) then guids
    else if devices.None? then (Null, Null)
    else Heuristic(devices.value)
  }

  /** Every device a role takes has a name, since every keyword and "mix" are non-empty. */
  lemma FitsNamed(role: Role, d: SdDevice)
    requires Fits(role, d)
    ensures d.name != ""
  {
  }

  /** The heuristic as the source promises it: the LAST keyword device;
      failing that the FIRST input-capable "mix" device; failing that none.
      The microphone is the FIRST input-capable device with a microphone
      keyword and no loopback keyword, and it differs from a loopback chosen
      by keyword. */
  lemma HeuristicChoice(ds: seq<SdDevice>)
    ensures (exists i :: 0 <= i < |ds| && Fits(KeywordLoopback, ds[i])) ==>
              exists i :: 0 <= i < |ds| && Fits(KeywordLoopback, ds[i]) && Heuristic(ds).0 == Str(ds[i].name) &&
                          forall j :: i < j < |ds| ==> !Fits(KeywordLoopback, ds[j])
    ensures (forall i :: 0 <= i < |ds| ==> !Fits(KeywordLoopback, ds[i])) &&
            (exists i :: 0 <= i < |ds| && Fits(MixFallback, ds[i])) ==>
              exists i :: 0 <= i < |ds| && Fits(MixFallback, ds[i]) && Heuristic(ds).0 == Str(ds[i].name) &&
                          forall j :: 0 <= j < i ==> !Fits(MixFallback, ds[j])
    ensures (forall i :: 0 <= i < |ds| ==> !Fits(KeywordLoopback, ds[i]) && !Fits(MixFallback, ds[i])) ==>
              Heuristic(ds).0 == Null
    ensures (exists i :: 0 <= i < |ds| && Fits(Microphone, ds[i])) ==>
              exists i :: 0 <= i < |ds| && Fits(Microphone, ds[i]) && Heuristic(ds).1 == Str(ds[i].name) &&
                          forall j :: 0 <= j < i ==> !Fits(Microphone, ds[j])
    ensures (forall i :: 0 <= i < |ds| ==> !Fits(Microphone, ds[i])) ==> Heuristic(ds).1 == Null
    ensures (exists i :: 0 <= i < |ds| && Fits(KeywordLoopback, ds[i])) && Heuristic(ds).1 != Null ==>
              Heuristic(ds).0 != Heuristic(ds).1
  {
    var keyword := LastTrue(Marks(ds, KeywordLoopback));
    var fallback := FirstTrue(Marks(ds, MixFallback));
    var mic := FirstTrue(Marks(ds, Microphone));
    if keyword.Some? {
      FitsNamed(KeywordLoopback, ds[keyword.value]);
      if mic.Some? {
        assert Lower(ds[mic.value].name) != Lower(ds[keyword.value].name);
      }
    } else if fallback.Some? {
      FitsNamed(MixFallback, ds[fallback.value]);
    }
  }

  /** The microphone test's loopback-keyword exclusion does not reach the
      fallback: a device named "micmix" with input channels becomes both the
      loopback and the microphone. */
  lemma MixFallbackMayEqualMic()
    ensures Heuristic([SdDevice("micmix", 2)]) == (Str("micmix"), Str("micmix"))
  {
    var d := SdDevice("micmix", 2);
    assert Lower(d.name) == "micmix";
    forall k | 0 <= k < |LoopbackKeywords| ensures !Contains("micmix", LoopbackKeywords[k]) {
      if k != 10 {
        NotContainsLonger("micmix", LoopbackKeywords[k]);
      } else {
        assert "micmix"[0..6][1] != "mezcla"[1];
        assert IndexFrom("micmix", "mezcla", 1) == None;
      }
    }
    assert !Fits(KeywordLoopback, d);
    assert "micmix"[3..6] == "mix";
    ContainsAt("micmix", "mix", 3);
    assert "micmix"[0..3] == "mic";
    ContainsAt("micmix", "mic", 0);
    assert Contains("micmix", MicKeywords[1]);
    assert Fits(MixFallback, d) && Fits(Microphone, d);
    assert [d][..0] == [];
  }

  /** The selection loop of `_discover_devices`. */
  method DiscoverDevices(guids: (Value, Value), devices: Option<seq<SdDevice>>) returns (loopback: Value, mic: Value)
    ensures (loopback, mic) == Discover(guids, devices)
  {
    if Truthy(guids.0) {
      return guids.0, guids.1;
    }
    if devices.None? {
      return Null, Null;
    }
    var ds := devices.value;
    var loopbackDevice: Option<string> := None;
    var micDevice: Option<string> := None;
    var fallbackMixDevice: Option<string> := None;
    ghost var keywordMarks := Marks(ds, KeywordLoopback);
    ghost var mixMarks := Marks(ds, MixFallback);
    ghost var micMarks := Marks(ds, Microphone);
    var i := 0;
    while i < |ds|
      invariant 0 <= i <= |ds|
      invariant loopbackDevice == NameAt(ds, LastTrue(keywordMarks[..i]))
      invariant fallbackMixDevice == NameAt(ds, FirstTrue(mixMarks[..i]))
      invariant micDevice == NameAt(ds, FirstTrue(micMarks[..i]))
    {
      LastTrueStep(keywordMarks, i);
      FirstTrueStep(mixMarks, i);
      FirstTrueStep(micMarks, i);
      var deviceName := ds[i].name;
      var deviceLower := Lower(deviceName);
      var inputChannels := ds[i].maxInputChannels;
      var isLoopback := AnyKeyword(deviceLower, LoopbackKeywords);
      var isMix := Contains(deviceLower, "mix");
      var isMic := AnyKeyword(deviceLower, MicKeywords);
      ghost var t := Traits(isLoopback, inputChannels != 0, isMix, isMic);
      assert t == TraitsOf(ds[i]);
      assert keywordMarks[i] == Takes(KeywordLoopback, t);
      assert mixMarks[i] == Takes(MixFallback, t);
      assert micMarks[i] == Takes(Microphone, t);
      if isLoopback {
        loopbackDevice := Some(deviceName);
        i := i + 1;
        continue;
      }
      if inputChannels == 0 {
        i := i + 1;
        continue;
      }
      if isMix && fallbackMixDevice.None? {
        fallbackMixDevice := Some(deviceName);
      }
      if isMic && !isLoopback {
        if micDevice.None? {
          micDevice := Some(deviceName);
        }
      }
      i := i + 1;
    }
    assert keywordMarks[..|ds|] == keywordMarks;
    assert mixMarks[..|ds|] == mixMarks;
    assert micMarks[..|ds|] == micMarks;
    if !Present(loopbackDevice) {
      if Present(fallbackMixDevice) {
        loopbackDevice := fallbackMixDevice;
      }
    }
    loopback := FromOption(loopbackDevice);
    mic := FromOption(micDevice);
  }

  // ---------------------------------------------------------------------
  // `_resolve_device_name`: three passes over the listing, in order.

  datatype Pass = Exact | Prefix20 | Substring

  /** The two tags the resolver accepts. */
  predicate AudioLine(line: string) {
    Contains(line, AudioTag) || Contains(line, VideoAudioTag)
  }

  /** Line `line` is a candidate for `name` in the given pass. */
  predicate Candidate(pass: Pass, name: string, line: string) {
    match pass
    case Exact => Contains(line, "\"" + name + "\"") && AudioLine(line)
    case Prefix20 =>
      '"' in line && AudioLine(line) && QuotedRun(line).Some? &&
      Lower(Take(name, 20)) == Lower(Take(QuotedRun(line).value, 20))
    case Substring =>
      AudioLine(line) && QuotedRun(line).Some? && Contains(Lower(QuotedRun(line).value), Lower(name))
  }

  /** Line `i` is a candidate and the next line yields an alternative name. */
  predicate Hit(pass: Pass, name: string, lines: seq<string>, i: nat) {
    i < |lines| && Candidate(pass, name, lines[i]) && AltAfter(lines, i).Some?
  }

  /** Which lines are hits, position by position. */
  function HitMarks(pass: Pass, name: string, lines: seq<string>): (m: seq<bool>)
    ensures |m| == |lines| && forall i :: 0 <= i < |lines| ==> m[i] == Hit(pass, name, lines, i)
  {
    seq(|lines|, i requires 0 <= i < |lines| => Hit(pass, name, lines, i))
  }

  /** The alternative name after the first hit of a pass. */
  function FirstHit(pass: Pass, name: string, lines: seq<string>): Option<string> {
    var k := FirstTrue(HitMarks(pass, name, lines));
    if k.Some? then AltAfter(lines, k.value) else None
  }

  /** The first hit is at `i` when `i` is a hit and nothing before it is. */
  lemma FirstHitIs(pass: Pass, name: string, lines: seq<string>, i: nat)
    requires Hit(pass, name, lines, i)
    requires forall j :: 0 <= j < i ==> !Hit(pass, name, lines, j)
    ensures FirstHit(pass, name, lines) == AltAfter(lines, i)
  {
    var m := HitMarks(pass, name, lines);
    assert m[i];
    var k := FirstTrue(m);
    assert k.Some? && k.value <= i;
  }

  /** A pass with no hit at all has no first hit. */
  lemma NoFirstHit(pass: Pass, name: string, lines: seq<string>)
    requires forall j :: 0 <= j < |lines| ==> !Hit(pass, name, lines, j)
    ensures FirstHit(pass, name, lines).None?
  {
    var m := HitMarks(pass, name, lines);
    assert forall j :: 0 <= j < |m| ==> !m[j];
  }

  /** What `_resolve_device_name` returns, given what the listing run wrote
      to its diagnostic stream (`None` when running it raises). */
  function Resolved(name: string, listing: Option<string>): (r: string)
    ensures name == "" || listing.None? ==> r == name
  {
    if name == "" || listing.None? then name
    else
      var lines := SplitLines(listing.value);
      var exact := FirstHit(Exact, name, lines);
      var prefix := FirstHit(Prefix20, name, lines);
      var substring := FirstHit(Substring, name, lines);
      if exact.Some? then exact.value
      else if prefix.Some? then prefix.value
      else if substring.Some? then substring.value
      else name
  }

  /** The first hit in pass `pass` is at line `i`. */
  ghost predicate FirstHitAt(pass: Pass, name: string, lines: seq<string>, i: nat) {
    Hit(pass, name, lines, i) && forall j :: 0 <= j < i ==> !Hit(pass, name, lines, j)
  }

  ghost predicate NoHit(pass: Pass, name: string, lines: seq<string>) {
    forall i :: !Hit(pass, name, lines, i)
  }

  /** A pass either has no hit, or its first hit is at some line and gives
      that line's alternative name. */
  lemma FirstHitCases(pass: Pass, name: string, lines: seq<string>)
    ensures NoHit(pass, name, lines) <==> FirstHit(pass, name, lines).None?
    ensures FirstHit(pass, name, lines).Some? ==>
              exists i :: FirstHitAt(pass, name, lines, i) && FirstHit(pass, name, lines) == AltAfter(lines, i)
  {
    var m := HitMarks(pass, name, lines);
    var k := FirstTrue(m);
    if k.Some? {
      assert Hit(pass, name, lines, k.value);
      assert FirstHitAt(pass, name, lines, k.value);
    } else {
      forall i: nat ensures !Hit(pass, name, lines, i) {
        if i < |lines| {
          assert !m[i];
        }
      }
    }
  }

  /** The ordered fallback: a later pass is consulted only when every
      earlier pass found nothing, each pass answers with the alternative
      name after its first hit, and with no hit at all the input comes
      back unchanged. */
  lemma ResolvedOrder(name: string, listing: string)
    requires name != ""
    ensures var lines := SplitLines(listing);
            !NoHit(Exact, name, lines) ==>
              exists i :: FirstHitAt(Exact, name, lines, i) && Resolved(name, Some(listing)) == AltAfter(lines, i).value
    ensures var lines := SplitLines(listing);
            NoHit(Exact, name, lines) && !NoHit(Prefix20, name, lines) ==>
              exists i :: FirstHitAt(Prefix20, name, lines, i) && Resolved(name, Some(listing)) == AltAfter(lines, i).value
    ensures var lines := SplitLines(listing);
            NoHit(Exact, name, lines) && NoHit(Prefix20, name, lines) && !NoHit(Substring, name, lines) ==>
              exists i :: FirstHitAt(Substring, name, lines, i) && Resolved(name, Some(listing)) == AltAfter(lines, i).value
    ensures var lines := SplitLines(listing);
            NoHit(Exact, name, lines) && NoHit(Prefix20, name, lines) && NoHit(Substring, name, lines) ==>
              Resolved(name, Some(listing)) == name
  {
    var lines := SplitLines(listing);
    FirstHitCases(Exact, name, lines);
    FirstHitCases(Prefix20, name, lines);
    FirstHitCases(Substring, name, lines);
  }

  /** One scanning loop of `_resolve_device_name`: the alternative name
      after the first line that passes `pass`, if any. */
  method ScanPass(pass: Pass, name: string, lines: seq<string>) returns (r: Option<string>)
    ensures r == FirstHit(pass, name, lines)
  {
    var friendlyPrefix := Lower(Take(name, 20));
    var i := 0;
    while i < |lines|
      invariant 0 <= i <= |lines|
      invariant forall j :: 0 <= j < i ==> !Hit(pass, name, lines, j)
    {
      var line := lines[i];
      var candidate := false;
      match pass {
        case Exact =>
          candidate := Contains(line, "\"" + name + "\"") && (Contains(line, AudioTag) || Contains(line, VideoAudioTag));
        case Prefix20 =>
          if '"' in line && (Contains(line, AudioTag) || Contains(line, VideoAudioTag)) {
            var matchName := QuotedRun(line);
            if matchName.Some? {
              var ffmpegPrefix := Lower(Take(matchName.value, 20));
              candidate := friendlyPrefix == ffmpegPrefix;
            }
          }
        case Substring =>
          if Contains(line, AudioTag) || Contains(line, VideoAudioTag) {
            var matchName := QuotedRun(line);
            if matchName.Some? {
              candidate := Contains(Lower(matchName.value), Lower(name));
            }
          }
      }
      assert candidate == Candidate(pass, name, line);
      if candidate {
        if i + 1 < |lines| && Contains(lines[i + 1], AltMarker) {
          var matchAlt := AltNameMatch(lines[i + 1]);
          if matchAlt.Some? {
            FirstHitIs(pass, name, lines, i);
            return matchAlt;
          }
        }
      }
      i := i + 1;
    }
    NoFirstHit(pass, name, lines);
    return None;
  }

  /** `_resolve_device_name`: the three passes in order, each returning at
      its first hit, and the input unchanged when none hits. */
  method ResolveDeviceName(name: string, listing: Option<string>) returns (r: string)
    ensures r == Resolved(name, listing)
  {
    if name == "" {
      return name;
    }
    if listing.None? {
      return name;
    }
    var lines := SplitLines(listing.value);
    var exact := ScanPass(Exact, name, lines);
    if exact.Some? {
      return exact.value;
    }
    var prefix := ScanPass(Prefix20, name, lines);
    if prefix.Some? {
      return prefix.value;
    }
    var substring := ScanPass(Substring, name, lines);
    if substring.Some? {
      return substring.value;
    }
    return name;
  }

  /** The id handed to ffmpeg: a DirectShow id verbatim, anything else resolved. */
  function DeviceArg(id: string, listing: Option<string>): (r: string)
    ensures StartsWith(id, DeviceClassPrefix) ==> r == id
    ensures !StartsWith(id, DeviceClassPrefix) ==> r == Resolved(id, listing)
  {
    if StartsWith(id, DeviceClassPrefix) then id else Resolved(id, listing)
  }

  // ---------------------------------------------------------------------
  // The capture command and its grammar.

  const AudioPrefix := "audio="
  const LoopbackGain := "volume=0.9"
  const MicGain := "volume=1.2"
  const Merge := "amerge=inputs=2"
  const StereoPan := "pan=stereo|c0<c0+c2|c1<c1+c3"
  /** The mixing graph: both inputs scaled, merged into four channels and panned to stereo. */
  const MixGraph := "[0:a]" + LoopbackGain + AfterLoopbackGain
  const AfterLoopbackGain := "[a0];[1:a]" + MicGain + AfterMicGain
  const AfterMicGain := "[a1];[a0][a1]" + Merge + AfterMerge
  const AfterMerge := "[merged];[merged]" + StereoPan + "[out]"

  function InputArgs(device: string): seq<string> {
    ["-f", "dshow", "-i", AudioPrefix + device]
  }

  function MixArgs(): seq<string> {
    ["-filter_complex", MixGraph, "-map", "[out]"]
  }

  function OutputArgs(wav: string): seq<string> {
    ["-ar", SampleRateArg, "-ac", "2", "-y", wav]
  }

  /** The argv `start` builds: one input, or two inputs and the mix stage,
      then the shared output options. */
  function CaptureCommand(binary: string, loopbackArg: string, micArg: Option<string>, wav: string): (cmd: seq<string>)
    ensures |cmd| == if micArg.Some? then 19 else 11
    ensures cmd[0] == binary && cmd[|cmd| - 6..] == OutputArgs(wav)
  {
    [binary] + InputArgs(loopbackArg) +
    (if micArg.Some? then InputArgs(micArg.value) + MixArgs() else []) +
    OutputArgs(wav)
  }

  /** How `start` grows `cmd` with `extend`. */
  method BuildCommand(binary: string, loopbackArg: string, micArg: Option<string>, wav: string) returns (cmd: seq<string>)
    ensures cmd == CaptureCommand(binary, loopbackArg, micArg, wav)
  {
    cmd := [binary];
    if micArg.Some? {
      cmd := cmd + ["-f", "dshow", "-i", AudioPrefix + loopbackArg,
                    "-f", "dshow", "-i", AudioPrefix + micArg.value,
                    "-filter_complex", MixGraph, "-map", "[out]",
                    "-ar", SampleRateArg, "-ac", "2", "-y", wav];
    } else {
      cmd := cmd + ["-f", "dshow", "-i", AudioPrefix + loopbackArg,
                    "-ar", SampleRateArg, "-ac", "2", "-y", wav];
    }
  }

  /** The parsed form of a capture argv. */
  datatype CaptureArgs = CaptureArgs(binary: string, inputs: seq<string>, filter: Option<string>,
                                     sampleRate: string, channels: string, output: string)

  /** Leading `-f dshow -i audio=X` groups and what follows them. */
  function ParseInputs(m: seq<string>): (r: (seq<string>, seq<string>))
    decreases |m|
  {
    if |m| >= 4 && m[0] == "-f" && m[1] == "dshow" && m[2] == "-i" && StartsWith(m[3], AudioPrefix) then
      var rest := ParseInputs(m[4..]);
      ([m[3][|AudioPrefix|..]] + rest.0, rest.1)
    else ([], m)
  }

  /** Reads an argv of the shape
      `bin (-f dshow -i audio=X)+ [-filter_complex G -map [out]] -ar R -ac C -y OUT`. */
  function ParseCapture(argv: seq<string>): Option<CaptureArgs> {
    if |argv| < 7 then None
    else
      var n := |argv|;
      if argv[n - 6] != "-ar" || argv[n - 4] != "-ac" || argv[n - 2] != "-y" then None
      else
        var split := ParseInputs(argv[1..n - 6]);
        var inputs := split.0;
        var rest := split.1;
        if inputs == [] then None
        else if rest == [] then Some(CaptureArgs(argv[0], inputs, None, argv[n - 5], argv[n - 3], argv[n - 1]))
        else if |rest| == 4 && rest[0] == "-filter_complex" && rest[2] == "-map" && rest[3] == "[out]" then
          Some(CaptureArgs(argv[0], inputs, Some(rest[1]), argv[n - 5], argv[n - 3], argv[n - 1]))
        else None
  }

  lemma ParseInputGroup(device: string, rest: seq<string>)
    ensures ParseInputs(InputArgs(device) + rest) ==
              ([device] + ParseInputs(rest).0, ParseInputs(rest).1)
  {
    var m := InputArgs(device) + rest;
    assert m[4..] == rest;
    assert m[3] == AudioPrefix + device;
    assert m[3][..|AudioPrefix|] == AudioPrefix;
    assert m[3][|AudioPrefix|..] == device;
  }

  /** The argv reads back as what it was built from: the binary first, the
      loopback input (and the microphone input with the mixing graph when
      there is a microphone, and no filter stage otherwise), 48000 Hz, two
      channels, the WAV path last. */
  lemma {:induction false} CaptureCommandParses(binary: string, loopbackArg: string, micArg: Option<string>, wav: string)
    ensures ParseCapture(CaptureCommand(binary, loopbackArg, micArg, wav)) ==
              Some(CaptureArgs(binary, [loopbackArg] + (if micArg.Some? then [micArg.value] else []),
                               if micArg.Some? then Some(MixGraph) else None, SampleRateArg, "2", wav))
  {
    var cmd := CaptureCommand(binary, loopbackArg, micArg, wav);
    var n := |cmd|;
    var middle := if micArg.Some? then InputArgs(micArg.value) + MixArgs() else [];
    assert cmd == [binary] + (InputArgs(loopbackArg) + middle) + OutputArgs(wav);
    assert cmd[1..n - 6] == InputArgs(loopbackArg) + middle;
    ParseInputGroup(loopbackArg, middle);
    if micArg.Some? {
      ParseInputGroup(micArg.value, MixArgs());
      assert ParseInputs(MixArgs()) == ([], MixArgs());
      assert middle == InputArgs(micArg.value) + MixArgs();
      assert [micArg.value] + [] == [micArg.value];
      assert ParseInputs(middle) == ([micArg.value], MixArgs());
      assert [loopbackArg] + [micArg.value] == [loopbackArg, micArg.value];
      assert ParseInputs(cmd[1..n - 6]) == ([loopbackArg, micArg.value], MixArgs());
      assert cmd[n - 6] == "-ar" && cmd[n - 4] == "-ac" && cmd[n - 2] == "-y";
    } else {
      assert ParseInputs([]) == ([], []);
    }
  }

  /** The mixing graph carries both gains, the merge and the stereo pan. */
  lemma MixGraphStages()
    ensures Contains(MixGraph, LoopbackGain) && Contains(MixGraph, MicGain)
    ensures Contains(MixGraph, Merge) && Contains(MixGraph, StereoPan)
  {
    ContainsInfix("[0:a]", LoopbackGain, AfterLoopbackGain);
    ContainsInfix("[a0];[1:a]", MicGain, AfterMicGain);
    ContainsAfter("[0:a]" + LoopbackGain, AfterLoopbackGain, MicGain);
    ContainsInfix("[a1];[a0][a1]", Merge, AfterMerge);
    ContainsAfter("[a0];[1:a]" + MicGain, AfterMicGain, Merge);
    ContainsAfter("[0:a]" + LoopbackGain, AfterLoopbackGain, Merge);
    ContainsInfix("[merged];[merged]", StereoPan, "[out]");
    ContainsAfter("[a1];[a0][a1]" + Merge, AfterMerge, StereoPan);
    ContainsAfter("[a0];[1:a]" + MicGain, AfterMicGain, StereoPan);
    ContainsAfter("[0:a]" + LoopbackGain, AfterLoopbackGain, StereoPan);
  }

  // ---------------------------------------------------------------------
  // `start`: what it decides before spawning.

  /** The folder the session goes under: `BASE_DIR`, or a truthy configured
      `output_folder`. `None` when that value is not a string, on which the
      path join raises. */
  function OutputBase(file: ConfigFile, baseDir: string): (r: Option<string>)
    ensures !file.Json? ==> r == Some(baseDir)
    ensures file.Json? && !Truthy(Lookup(file.entries, OutputFolderKey)) ==> r == Some(baseDir)
    ensures r.Some? && r.value != baseDir ==> Lookup(file.entries, OutputFolderKey) == Str(r.value)
    ensures file.Json? && Truthy(Lookup(file.entries, OutputFolderKey)) && Lookup(file.entries, OutputFolderKey).Str? ==>
              r == Some(Lookup(file.entries, OutputFolderKey).s)
    ensures file.Json? && Truthy(Lookup(file.entries, OutputFolderKey)) && !Lookup(file.entries, OutputFolderKey).Str? ==>
              r.None?
  {
    if file.Json? && Truthy(Lookup(file.entries, OutputFolderKey)) then
      match Lookup(file.entries, OutputFolderKey)
      case Str(s) => Some(s)
      case _ => None
    else Some(baseDir)
  }

  /** `<base>/Live_<timestamp>/audio.wav`. */
  function WavPath(base: string, timestamp: string): string {
    PathJoin(PathJoin(base, "Live_" + timestamp), "audio.wav")
  }

  datatype Failure = SpawnFailed | DiedOnStart | OutputMissing | OutputEmpty

  /** `LoopbackNotFoundError`; `BadConfigValue` is the `TypeError` or
      `AttributeError` a stored non-string value causes; `FfmpegFailed` is
      `FFmpegRuntimeError`. */
  datatype EngineError = LoopbackNotFound | BadConfigValue | FfmpegFailed(failure: Failure)

  datatype Outcome = Ok(path: string) | Err(error: EngineError)

  /** What `start` does once it has read the configuration and the devices:
      refuse, or launch this argv. */
  datatype Plan = Refuse(error: EngineError) | Launch(argv: seq<string>)

  function StartPlan(binary: string, file: ConfigFile, baseDir: string, timestamp: string,
                     devices: Option<seq<SdDevice>>, listing: Option<string>): (p: Plan)
    ensures p.Refuse? ==> p.error == LoopbackNotFound || p.error == BadConfigValue
    ensures p == Refuse(LoopbackNotFound) <==>
              OutputBase(file, baseDir).Some? && !Truthy(Discover(LoadDeviceGuids(file), devices).0)
    ensures var selected := Discover(LoadDeviceGuids(file), devices);
            p == Refuse(BadConfigValue) <==>
              OutputBase(file, baseDir).None? ||
              (Truthy(selected.0) && (!selected.0.Str? || (Truthy(selected.1) && !selected.1.Str?)))
    ensures var selected := Discover(LoadDeviceGuids(file), devices);
            p.Launch? <==>
              OutputBase(file, baseDir).Some? && Truthy(selected.0) && selected.0.Str? &&
              (!Truthy(selected.1) || selected.1.Str?)
  {
    match OutputBase(file, baseDir)
    case None => Refuse(BadConfigValue)
    case Some(base) =>
      var selected := Discover(LoadDeviceGuids(file), devices);
      var loopback := selected.0;
      var mic := selected.1;
      if !Truthy(loopback) then Refuse(LoopbackNotFound)
      else if !loopback.Str? || (Truthy(mic) && !mic.Str?) then Refuse(BadConfigValue)
      else
        var micArg := if Truthy(mic) then Some(DeviceArg(mic.s, listing)) else None;
        Launch(CaptureCommand(binary, DeviceArg(loopback.s, listing), micArg, WavPath(base, timestamp)))
  }

  /** A configured DirectShow loopback id reaches ffmpeg verbatim, whatever
      the device table and the listing say; the microphone input and the
      mixing stage are there exactly when a microphone id is stored. */
  lemma {:induction false} ConfiguredIdUsedVerbatim(binary: string, entries: map<string, Value>, baseDir: string,
                                                    timestamp: string, devices: Option<seq<SdDevice>>,
                                                    listing: Option<string>, id: string)
    requires Lookup(entries, LoopbackKey) == Str(id) && StartsWith(id, DeviceClassPrefix)
    requires OutputBase(Json(entries), baseDir).Some?
    requires !Truthy(Lookup(entries, MicKey)) || Lookup(entries, MicKey).Str?
    ensures StartPlan(binary, Json(entries), baseDir, timestamp, devices, listing).Launch?
    ensures var parsed := ParseCapture(StartPlan(binary, Json(entries), baseDir, timestamp, devices, listing).argv);
            parsed.Some? && parsed.value.inputs[0] == id &&
            (|parsed.value.inputs| == 2 <==> Truthy(Lookup(entries, MicKey))) &&
            (parsed.value.filter.Some? <==> Truthy(Lookup(entries, MicKey)))
  {
    var mic := Lookup(entries, MicKey);
    var micArg := if Truthy(mic) then Some(DeviceArg(mic.s, listing)) else None;
    var base := OutputBase(Json(entries), baseDir).value;
    CaptureCommandParses(binary, id, micArg, WavPath(base, timestamp));
  }

  /** Every launch reads back as one or two inputs with the mixing stage
      exactly when there are two, 48000 Hz and two channels. */
  lemma {:induction false} LaunchShape(binary: string, file: ConfigFile, baseDir: string, timestamp: string,
                                       devices: Option<seq<SdDevice>>, listing: Option<string>)
    requires StartPlan(binary, file, baseDir, timestamp, devices, listing).Launch?
    ensures var parsed := ParseCapture(StartPlan(binary, file, baseDir, timestamp, devices, listing).argv);
            parsed.Some? && parsed.value.binary == binary &&
            1 <= |parsed.value.inputs| <= 2 &&
            (parsed.value.filter.Some? <==> |parsed.value.inputs| == 2) &&
            (parsed.value.filter.Some? ==> parsed.value.filter.value == MixGraph) &&
            parsed.value.sampleRate == SampleRateArg && parsed.value.channels == "2" &&
            parsed.value.output == WavPath(OutputBase(file, baseDir).value, timestamp)
    ensures var parsed := ParseCapture(StartPlan(binary, file, baseDir, timestamp, devices, listing).argv);
            var selected := Discover(LoadDeviceGuids(file), devices);
            parsed.Some? && selected.0.Str? && parsed.value.inputs[0] == DeviceArg(selected.0.s, listing) &&
            (|parsed.value.inputs| == 2 <==> Truthy(selected.1)) &&
            (Truthy(selected.1) ==> selected.1.Str? && parsed.value.inputs[1] == DeviceArg(selected.1.s, listing))
  {
    var base := OutputBase(file, baseDir).value;
    var selected := Discover(LoadDeviceGuids(file), devices);
    var micArg := if Truthy(selected.1) then Some(DeviceArg(selected.1.s, listing)) else None;
    CaptureCommandParses(binary, DeviceArg(selected.0.s, listing), micArg, WavPath(base, timestamp));
  }

  // ---------------------------------------------------------------------
  // `stop`: the shutdown escalation and the output check.

  datatype Signal = Quit | Terminate | Kill

  function Rank(s: Signal): nat {
    match s
    case Quit => 0
    case Terminate => 1
    case Kill => 2
  }

  /** The ffmpeg process as the engine holds it. */
  datatype Process = Process(argv: seq<string>, exited: bool)

  /** How `Popen` and the settle wait go. */
  datatype SpawnOutcome = SpawnRaises | DiesDuringSettle | KeepsRunning

  /** How `communicate(input=b'q', timeout=5)` goes. */
  datatype QuitOutcome = ExitsOnQuit | QuitTimesOut | QuitFails

  /** How the process behaves when `stop` runs: whether it has exited on its
      own (`poll()` is not `None`), how the quit request goes, and whether it
      exits within the 2-second wait after `terminate`. */
  datatype StopOracle = StopOracle(exitedOnItsOwn: bool, onQuit: QuitOutcome, exitsAfterTerminate: bool)

  /** `os.path.exists` and `os.path.getsize` of the WAV path. */
  datatype OutputFile = OutputFile(present: bool, size: nat)

  predicate Live(p: Option<Process>, o: StopOracle) {
    p.Some? && !p.value.exited && !o.exitedOnItsOwn
  }

  /** The signals `stop` sends. */
  function StopSignals(p: Option<Process>, o: StopOracle): (r: seq<Signal>)
    ensures r == [] <==> !Live(p, o)
    ensures r != [] ==> r[0] == Quit
    ensures Terminate in r <==> Live(p, o) && o.onQuit == QuitTimesOut
    ensures Kill in r <==> Live(p, o) && (o.onQuit == QuitFails || (o.onQuit == QuitTimesOut && !o.exitsAfterTerminate))
    ensures forall i, j :: 0 <= i < j < |r| ==> Rank(r[i]) < Rank(r[j])
  {
    if !Live(p, o) then []
    else match o.onQuit
      case ExitsOnQuit => [Quit]
      case QuitTimesOut => if o.exitsAfterTerminate then [Quit, Terminate] else [Quit, Terminate, Kill]
      case QuitFails => [Quit, Kill]
  }

  /** The output check after shutdown. */
  function CheckOutput(wav: Option<string>, out: OutputFile): (r: Outcome)
    ensures r.Ok? <==> Present(wav) && out.present && out.size > 0
    ensures r.Ok? ==> r.path == wav.value
    ensures r.Err? ==> r.error == FfmpegFailed(if Present(wav) && out.present then OutputEmpty else OutputMissing)
  {
    if !Present(wav) || !out.present then Err(FfmpegFailed(OutputMissing))
    else if out.size == 0 then Err(FfmpegFailed(OutputEmpty))
    else Ok(wav.value)
  }

  class Engine {
    const ffmpegPath: string
    /** `self._process`. */
    var process: Option<Process>
    /** `self.wav_path`. */
    var wavPath: Option<string>
    /** Every signal sent to a process, in order. */
    ghost var signals: seq<Signal>
    /** Every argv handed to `Popen`, in order. */
    ghost var launches: seq<seq<string>>

    constructor (path: string)
      ensures ffmpegPath == path && process == None && wavPath == None
      ensures signals == [] && launches == []
    {
      ffmpegPath := path;
      process := None;
      wavPath := None;
      signals := [];
      launches := [];
    }

    /** `get_ffmpeg_devices`, given what the listing run wrote to its
        diagnostic stream (`None` when running it raises). */
    method GetFfmpegDevices(stderr: Option<string>) returns (devices: seq<FfmpegDevice>)
      ensures stderr.None? ==> devices == []
      ensures stderr.Some? ==> devices == Records(Engine, SplitLines(stderr.value), |SplitLines(stderr.value)|)
    {
      if stderr.None? {
        return [];
      }
      devices := ScanDevices(Engine, SplitLines(stderr.value));
    }

    /** `start`. The WAV path is set before the devices are chosen, so a
        refused start still replaces it. */
    method Start(file: ConfigFile, baseDir: string, timestamp: string, devices: Option<seq<SdDevice>>,
                 listing: Option<string>, spawn: SpawnOutcome) returns (r: Outcome)
      modifies this
      ensures signals == old(signals)
      ensures wavPath == if OutputBase(file, baseDir).Some? then Some(WavPath(OutputBase(file, baseDir).value, timestamp))
                         else old(wavPath)
      ensures match StartPlan(ffmpegPath, file, baseDir, timestamp, devices, listing)
              case Refuse(e) => r == Err(e) && process == old(process) && launches == old(launches)
              case Launch(argv) =>
                launches == old(launches) + [argv] &&
                (spawn == SpawnRaises ==> r == Err(FfmpegFailed(SpawnFailed)) && process == old(process)) &&
                (spawn == DiesDuringSettle ==> r == Err(FfmpegFailed(DiedOnStart)) && process == Some(Process(argv, true))) &&
                (spawn == KeepsRunning ==> r == Ok(wavPath.value) && process == Some(Process(argv, false)))
    {
      ghost var plan := StartPlan(ffmpegPath, file, baseDir, timestamp, devices, listing);
      var outputBase := OutputBase(file, baseDir);
      if outputBase.None? {
        assert plan == Refuse(BadConfigValue);
        return Err(BadConfigValue);
      }
      var wav := WavPath(outputBase.value, timestamp);
      wavPath := Some(wav);
      var loopback, mic := DiscoverDevices(LoadDeviceGuids(file), devices);
      if !Truthy(loopback) {
        assert plan == Refuse(LoopbackNotFound);
        return Err(LoopbackNotFound);
      }
      if !loopback.Str? {
        assert plan == Refuse(BadConfigValue);
        return Err(BadConfigValue);
      }
      var loopbackArg := loopback.s;
      if !StartsWith(loopbackArg, DeviceClassPrefix) {
        loopbackArg := ResolveDeviceName(loopbackArg, listing);
      }
      assert loopbackArg == DeviceArg(loopback.s, listing);
      var micArg: Option<string> := None;
      if Truthy(mic) {
        if !mic.Str? {
          assert plan == Refuse(BadConfigValue);
          return Err(BadConfigValue);
        }
        var arg := mic.s;
        if !StartsWith(arg, DeviceClassPrefix) {
          arg := ResolveDeviceName(arg, listing);
        }
        assert arg == DeviceArg(mic.s, listing);
        micArg := Some(arg);
      }
      var cmd := BuildCommand(ffmpegPath, loopbackArg, micArg, wav);
      assert plan == Launch(cmd);
      r := Spawn(cmd, wav, spawn);
    }

    /** The `Popen` and settle-wait step of `start`: the argv is logged as
        launched; a spawn that raises leaves no new process, and a process
        that has exited after the wait is kept but reported as
        `FFmpegRuntimeError`. */
    method Spawn(cmd: seq<string>, wav: string, spawn: SpawnOutcome) returns (r: Outcome)
      modifies this`process, this`launches
      ensures launches == old(launches) + [cmd]
      ensures spawn == SpawnRaises ==> r == Err(FfmpegFailed(SpawnFailed)) && process == old(process)
      ensures spawn == DiesDuringSettle ==> r == Err(FfmpegFailed(DiedOnStart)) && process == Some(Process(cmd, true))
      ensures spawn == KeepsRunning ==> r == Ok(wav) && process == Some(Process(cmd, false))
    {
      launches := launches + [cmd];
      match spawn
      case SpawnRaises =>
        r := Err(FfmpegFailed(SpawnFailed));
      case DiesDuringSettle =>
        process := Some(Process(cmd, true));
        r := Err(FfmpegFailed(DiedOnStart));
      case KeepsRunning =>
        process := Some(Process(cmd, false));
        r := Ok(wav);
    }

    /** `stop`: `q`, then terminate after 5 seconds, then kill after 2 more
        (or kill at once when the quit request fails); then the output check. */
    method Stop(o: StopOracle, out: OutputFile) returns (r: Outcome)
      modifies this
      ensures signals == old(signals) + StopSignals(old(process), o)
      ensures process == if old(process).Some? then Some(old(process).value.(exited := true)) else None
      ensures wavPath == old(wavPath) && launches == old(launches)
      ensures r == CheckOutput(wavPath, out)
    {
      if Live(process, o) {
        signals := signals + [Quit];
        match o.onQuit
        case ExitsOnQuit =>
        case QuitTimesOut =>
          signals := signals + [Terminate];
          if !o.exitsAfterTerminate {
            signals := signals + [Kill];
          }
        case QuitFails =>
          signals := signals + [Kill];
      }
      if process.Some? {
        process := Some(process.value.(exited := true));
      }
      if !Present(wavPath) || !out.present {
        return Err(FfmpegFailed(OutputMissing));
      }
      if out.size == 0 {
        return Err(FfmpegFailed(OutputEmpty));
      }
      return Ok(wavPath.value);
    }
  }

  /** `AudioEngine()`: no engine without a binary (the `RuntimeError`). */
  method NewEngine(h: Host) returns (e: Option<Engine>)
    ensures e.None? <==> FindFfmpeg(h).None?
    ensures e.Some? ==> fresh(e.value) && e.value.ffmpegPath == FindFfmpeg(h).value &&
                        e.value.process == None && e.value.wavPath == None &&
                        e.value.signals == [] && e.value.launches == []
  {
    var path := FindFfmpeg(h);
    if !Present(path) {
      return None;
    }
    var engine := new Engine(path.value);
    return Some(engine);
  }
}
