/** The microphone diagnostic script (`diagnose_mic`): it finds the bundled
    ffmpeg exactly as the engine does, lists the DirectShow devices with its
    own variant of the listing parser, and reports whether each configured
    device id is among the listed alternative names. */
module DiagnoseMic {
  import opened Base
  import opened Text
  import opened Config
  import opened Environment
  import opened DshowList
  import opened AudioEngine

  /** The devices the script lists: ffmpeg's diagnostic text is parsed in
      the diagnostic dialect; a failed run lists nothing. */
  function DiagnosticDevices(stderr: Option<string>): seq<FfmpegDevice> {
    if stderr.None? then [] else Records(Diagnostic, SplitLines(stderr.value), |SplitLines(stderr.value)|)
  }

  /** `list_ffmpeg_devices`: `None` stands for the run raising. */
  method ListFfmpegDevices(stderr: Option<string>) returns (devices: seq<FfmpegDevice>)
    ensures devices == DiagnosticDevices(stderr)
  {
    if stderr.None? {
      return [];
    }
    devices := ScanDevices(Diagnostic, SplitLines(stderr.value));
  }

  /** The diagnostic listing never holds a video-only device; a device is
      audio exactly when its line carries `(audio)`, and its alternative
      name is the next line's value or the literal `(None)`. */
  lemma DiagnosticRecordShape(lines: seq<string>, i: nat)
    requires i < |lines| && Opens(Diagnostic, lines[i])
    ensures RecordAt(Diagnostic, lines, i).kind != Video
    ensures RecordAt(Diagnostic, lines, i).kind == Audio <==> Contains(lines[i], AudioTag)
    ensures RecordAt(Diagnostic, lines, i).kind == VideoAudio <==> !Contains(lines[i], AudioTag)
    ensures RecordAt(Diagnostic, lines, i).alternativeName ==
              if Present(AltAfter(lines, i)) then AltAfter(lines, i).value else NoAltName
  {
  }

  /** No record of the diagnostic listing is video-only. */
  lemma NoVideoDevices(stderr: Option<string>)
    ensures forall r :: r in DiagnosticDevices(stderr) ==> r.kind != Video
  {
    if stderr.Some? {
      var lines := SplitLines(stderr.value);
      RecordsPerLine(Diagnostic, lines, |lines|);
      forall r | r in DiagnosticDevices(stderr) ensures r.kind != Video {
        var i :| 0 <= i < |lines| && Opens(Diagnostic, lines[i]) && r == RecordAt(Diagnostic, lines, i);
        DiagnosticRecordShape(lines, i);
      }
    }
  }

  /** Every line the script lists the engine lists too (the engine also
      lists video-only lines), under the same friendly name; the two differ only in the alternative name used when
      the next line carries none, and in the kind given to a line that
      carries both `(video)` and `(video, audio)`. */
  lemma DialectsAgree(lines: seq<string>, i: nat)
    requires i < |lines| && Opens(Diagnostic, lines[i])
    ensures Opens(Engine, lines[i])
    ensures RecordAt(Diagnostic, lines, i).friendlyName == RecordAt(Engine, lines, i).friendlyName
    ensures Contains(lines[i], AudioTag) || !Contains(lines[i], VideoTag) ==>
              RecordAt(Diagnostic, lines, i).kind == RecordAt(Engine, lines, i).kind
    ensures Present(AltAfter(lines, i)) ==>
              RecordAt(Diagnostic, lines, i).alternativeName == RecordAt(Engine, lines, i).alternativeName
  {
  }

  /** The validation of one configured id: nothing is reported for an
      unset (falsy) id; otherwise FOUND exactly when some listed device's
      alternative name equals it. */
  function GuidStatus(devices: seq<FfmpegDevice>, guid: Value): (r: Option<bool>)
    ensures r.Some? <==> Truthy(guid)
    ensures r == Some(true) <==> Truthy(guid) && exists d :: d in devices && guid == Str(d.alternativeName)
  {
    if Truthy(guid) then Some(exists d :: d in devices && guid == Str(d.alternativeName)) else None
  }

  datatype Diagnosis =
    | NoFfmpeg
      /** Reading a configuration file that exists raises, ending the script. */
    | ConfigCrash
    | Summary(ffmpeg: string, devices: seq<FfmpegDevice>, loopback: Option<bool>, mic: Option<bool>, micWarning: bool)

  /** `main`: stop without ffmpeg; read the stored ids (a missing or empty
      file gives none), list the devices and validate each id; warn when the
      microphone id is set but not found. */
  method Diagnose(h: Host, file: ConfigFile, stderr: Option<string>) returns (d: Diagnosis)
    ensures FindFfmpeg(h).None? <==> d == NoFfmpeg
    ensures FindFfmpeg(h).Some? && file.Unreadable? <==> d == ConfigCrash
    ensures d.Summary? ==>
              d.ffmpeg == FindFfmpeg(h).value && d.devices == DiagnosticDevices(stderr) &&
              d.loopback == GuidStatus(d.devices, LoadDeviceGuids(file).0) &&
              d.mic == GuidStatus(d.devices, LoadDeviceGuids(file).1) &&
              (d.micWarning <==> d.mic == Some(false))
  {
    var ffmpegPath := FindFfmpeg(h);
    if !Present(ffmpegPath) {
      return NoFfmpeg;
    }
    var loopbackGuid: Value;
    var micGuid: Value;
    match file {
      case Missing =>
        loopbackGuid, micGuid := Null, Null;
      case Unreadable =>
        return ConfigCrash;
      case Json(m) =>
        if m == map[] {
          loopbackGuid, micGuid := Null, Null;
        } else {
          loopbackGuid, micGuid := Lookup(m, LoopbackKey), Lookup(m, MicKey);
        }
    }
    var devices := ListFfmpegDevices(stderr);
    var loopback := GuidStatus(devices, loopbackGuid);
    var mic := GuidStatus(devices, micGuid);
    d := Summary(ffmpegPath.value, devices, loopback, mic, mic == Some(false));
  }
}
