/** The DirectShow device listing that `ffmpeg -f dshow -list_devices true
    -i dummy` writes to its diagnostic stream, and the line parser that
    turns it into device records. The engine (`get_ffmpeg_devices`) and the
    diagnostic script (`list_ffmpeg_devices`) run the same loop with two
    differences, captured by a `Dialect`: which tags open a record, and what
    the alternative name falls back to. */
module DshowList {
  import opened Base
  import opened Text

  const AudioTag := "(audio)"
  const VideoTag := "(video)"
  const VideoAudioTag := "(video, audio)"
  /** What the line after a device must contain before its alternative name is read. */
  const AltMarker := "Alternative name"
  /** The literal part of the pattern `Alternative name "(.*)"`. */
  const AltPrefix := "Alternative name \""
  /** The diagnostic script's stand-in for a missing alternative name. */
  const NoAltName := "(None)"

  datatype DeviceKind = Audio | Video | VideoAudio

  /** One entry of the listing: `{friendly_name, alternative_name, type}`. */
  datatype FfmpegDevice = FfmpegDevice(friendlyName: string, alternativeName: string, kind: DeviceKind)

  /** `Engine` is `AudioEngine.get_ffmpeg_devices`, `Diagnostic` is
      `list_ffmpeg_devices` of the diagnostic script. */
  datatype Dialect = Engine | Diagnostic

  // ---------------------------------------------------------------------
  // The pattern "([^"]+)": the first non-empty run between two quotes.

  /** The first quote at or after `from`. */
  function NextQuote(s: string, from: nat): (r: Option<nat>)
    decreases |s| - from
    ensures r.Some? ==> from <= r.value < |s| && s[r.value] == '"'
    ensures r.Some? ==> forall k :: from <= k < r.value ==> s[k] != '"'
    ensures r.None? ==> forall k :: from <= k < |s| ==> s[k] != '"'
  {
    if from >= |s| then None
    else if s[from] == '"' then Some(from)
    else NextQuote(s, from + 1)
  }

  /** The pattern matches at `p`: a quote whose next quote is not adjacent. */
  ghost predicate RunStartsAt(s: string, p: int) {
    0 <= p < |s| && s[p] == '"' &&
    var q := NextQuote(s, p + 1); q.Some? && q.value > p + 1
  }

  /** The text captured by a match at `p`. */
  ghost function RunAt(s: string, p: int): string
    requires RunStartsAt(s, p)
  {
    s[p + 1..NextQuote(s, p + 1).value]
  }

  /** `re.search(r'"([^"]+)"', s[p:])`: the leftmost match at or after `p`
      (`QuotedRunLeftmost` states which match that is). */
  function QuotedRunFrom(s: string, p: nat): (r: Option<string>)
    decreases |s| - p
    ensures r.Some? ==> |r.value| > 0 && '"' !in r.value
  {
    if p >= |s| then None
    else if s[p] == '"' then
      var q := NextQuote(s, p + 1);
      if q.Some? && q.value > p + 1 then Some(s[p + 1..q.value])
      else QuotedRunFrom(s, p + 1)
    else QuotedRunFrom(s, p + 1)
  }

  /** The run found is the one of the leftmost match, and none means no match. */
  lemma {:induction false} QuotedRunLeftmost(s: string, p: nat)
    decreases |s| - p
    ensures QuotedRunFrom(s, p).Some? ==>
              exists a :: p <= a && RunStartsAt(s, a) && QuotedRunFrom(s, p).value == RunAt(s, a) &&
                          forall b :: p <= b < a ==> !RunStartsAt(s, b)
    ensures QuotedRunFrom(s, p).None? ==> forall a :: p <= a ==> !RunStartsAt(s, a)
  {
    if p < |s| {
      if RunStartsAt(s, p) {
        assert QuotedRunFrom(s, p).value == RunAt(s, p);
      } else {
        QuotedRunLeftmost(s, p + 1);
      }
    }
  }

  /** `re.search(r'"([^"]+)"', line).group(1)`, if there is a match. */
  function QuotedRun(line: string): Option<string> {
    QuotedRunFrom(line, 0)
  }

  // ---------------------------------------------------------------------
  // The pattern Alternative name "(.*)": greedy, so the group runs up to
  // the LAST quote of the line. `.` does not match a line break, and the
  // lines this model parses come from `split('\n')`, so the whole line is
  // in reach of `.*`.

  /** The last quote before index `n`. */
  function LastQuoteBefore(s: string, n: nat): (r: Option<nat>)
    requires n <= |s|
    ensures r.Some? ==> r.value < n && s[r.value] == '"'
    ensures r.Some? ==> forall k :: r.value < k < n ==> s[k] != '"'
    ensures r.None? ==> forall k :: 0 <= k < n ==> s[k] != '"'
  {
    if n == 0 then None
    else if s[n - 1] == '"' then Some(n - 1)
    else LastQuoteBefore(s, n - 1)
  }

  /** `re.search(r'Alternative name "(.*)"', line).group(1)`, if there is a
      match: the text after the first `Alternative name "` up to the last
      quote of the line (`AltNameMatchSpec` states it). */
  function AltNameMatch(line: string): Option<string> {
    match IndexFrom(line, AltPrefix, 0)
    case None => None
    case Some(a) =>
      var j := LastQuoteBefore(line, |line|);
      if j.Some? && j.value >= a + |AltPrefix| then Some(line[a + |AltPrefix|..j.value])
      else None
  }

  /** A match starts at the first occurrence of `Alternative name "` and the
      group ends at the last quote; there is no match exactly when no quote
      follows any occurrence (a later occurrence cannot help, because the
      literal itself ends in a quote). */
  lemma AltNameMatchSpec(line: string)
    ensures AltNameMatch(line).Some? ==>
      exists a :: OccursAt(line, AltPrefix, a) && (forall b :: 0 <= b < a ==> !OccursAt(line, AltPrefix, b)) &&
        var j := a + |AltPrefix| + |AltNameMatch(line).value|;
        j < |line| && line[a + |AltPrefix|..j] == AltNameMatch(line).value && line[j] == '"' &&
        forall k :: j < k < |line| ==> line[k] != '"'
    ensures AltNameMatch(line).None? ==>
      forall a :: OccursAt(line, AltPrefix, a) ==> forall k :: a + |AltPrefix| <= k < |line| ==> line[k] != '"'
  {
    var first := IndexFrom(line, AltPrefix, 0);
    IndexFromFirst(line, AltPrefix, 0);
    if first.Some? {
      var a := first.value;
      var j := LastQuoteBefore(line, |line|);
      if !(j.Some? && j.value >= a + |AltPrefix|) {
        assert forall k :: a + |AltPrefix| <= k < |line| ==> line[k] != '"';
        forall a' | OccursAt(line, AltPrefix, a') ensures forall k :: a' + |AltPrefix| <= k < |line| ==> line[k] != '"' {
          if a' != a {
            assert line[a'..a' + |AltPrefix|][|AltPrefix| - 1] == '"';
          }
        }
      }
    }
  }

  /** The alternative name the line after line `i` carries, under the
      source's guard that the line mentions `Alternative name` at all. */
  function AltAfter(lines: seq<string>, i: nat): Option<string> {
    if i + 1 < |lines| && Contains(lines[i + 1], AltMarker) then AltNameMatch(lines[i + 1]) else None
  }

  // ---------------------------------------------------------------------
  // Records

  /** The tag test of each dialect: the diagnostic script ignores video-only lines. */
  predicate Tagged(d: Dialect, line: string) {
    match d
    case Engine => Contains(line, AudioTag) || Contains(line, VideoTag) || Contains(line, VideoAudioTag)
    case Diagnostic => Contains(line, AudioTag) || Contains(line, VideoAudioTag)
  }

  /** Line `line` opens a record: a quote, a tag, and a match of the name pattern. */
  predicate Opens(d: Dialect, line: string) {
    '"' in line && Tagged(d, line) && QuotedRun(line).Some?
  }

  function KindOf(d: Dialect, line: string): DeviceKind {
    if Contains(line, AudioTag) then Audio
    else if d == Engine && Contains(line, VideoTag) then Video
    else VideoAudio
  }

  /** `alternative_name or friendly_name` (engine) and
      `alternative_name or "(None)"` (diagnostic script). */
  function AltOr(d: Dialect, alt: Option<string>, friendly: string): string {
    if Present(alt) then alt.value
    else match d
      case Engine => friendly
      case Diagnostic => NoAltName
  }

  /** The record that opening line `i` produces. */
  function RecordAt(d: Dialect, lines: seq<string>, i: nat): (r: FfmpegDevice)
    requires i < |lines| && Opens(d, lines[i])
    ensures r.friendlyName == QuotedRun(lines[i]).value
    ensures |r.friendlyName| > 0 && '"' !in r.friendlyName
    ensures r.kind == Audio <==> Contains(lines[i], AudioTag)
    ensures r.kind == Video <==> d == Engine && !Contains(lines[i], AudioTag) && Contains(lines[i], VideoTag)
    ensures r.alternativeName != ""
    ensures Present(AltAfter(lines, i)) ==> r.alternativeName == AltAfter(lines, i).value
    ensures !Present(AltAfter(lines, i)) ==> r.alternativeName == if d == Engine then r.friendlyName else NoAltName
  {
    var name := QuotedRun(lines[i]).value;
    FfmpegDevice(name, AltOr(d, AltAfter(lines, i), name), KindOf(d, lines[i]))
  }

  /** The records the first `n` lines produce, in line order. */
  function Records(d: Dialect, lines: seq<string>, n: nat): seq<FfmpegDevice>
    requires n <= |lines|
  {
    if n == 0 then []
    else Records(d, lines, n - 1) + (if Opens(d, lines[n - 1]) then [RecordAt(d, lines, n - 1)] else [])
  }

  /** How many of the first `n` lines open a record. */
  function OpenCount(d: Dialect, lines: seq<string>, n: nat): (c: nat)
    requires n <= |lines|
    ensures c <= n
  {
    if n == 0 then 0
    else OpenCount(d, lines, n - 1) + (if Opens(d, lines[n - 1]) then 1 else 0)
  }

  lemma {:induction false} RecordsLength(d: Dialect, lines: seq<string>, n: nat)
    requires n <= |lines|
    ensures |Records(d, lines, n)| == OpenCount(d, lines, n)
  {
    if n > 0 {
      RecordsLength(d, lines, n - 1);
    }
  }

  /** Extending the scanned prefix keeps the records found so far in place. */
  lemma RecordsStable(d: Dialect, lines: seq<string>, n: nat, k: nat)
    requires 0 < n <= |lines| && k < |Records(d, lines, n - 1)|
    ensures k < |Records(d, lines, n)| && Records(d, lines, n)[k] == Records(d, lines, n - 1)[k]
  {
  }

  lemma {:induction false} RecordOfLine(d: Dialect, lines: seq<string>, n: nat, i: nat)
    requires i < n <= |lines| && Opens(d, lines[i])
    ensures OpenCount(d, lines, i) < |Records(d, lines, n)|
    ensures Records(d, lines, n)[OpenCount(d, lines, i)] == RecordAt(d, lines, i)
  {
    RecordsLength(d, lines, n - 1);
    if i < n - 1 {
      RecordOfLine(d, lines, n - 1, i);
      RecordsStable(d, lines, n, OpenCount(d, lines, i));
    }
  }

  lemma {:induction false} LineOfRecord(d: Dialect, lines: seq<string>, n: nat, r: FfmpegDevice)
    requires n <= |lines| && r in Records(d, lines, n)
    ensures exists i :: 0 <= i < n && Opens(d, lines[i]) && r == RecordAt(d, lines, i)
  {
    if r in Records(d, lines, n - 1) {
      LineOfRecord(d, lines, n - 1, r);
    } else {
      assert Opens(d, lines[n - 1]) && r == RecordAt(d, lines, n - 1);
    }
  }

  /** Exactly one record per opening line, in line order: the opening line
      `i` gives the record at position `OpenCount(i)`, there are as many
      records as opening lines, and every record comes from an opening line. */
  lemma RecordsPerLine(d: Dialect, lines: seq<string>, n: nat)
    requires n <= |lines|
    ensures |Records(d, lines, n)| == OpenCount(d, lines, n)
    ensures forall i :: 0 <= i < n && Opens(d, lines[i]) ==>
              OpenCount(d, lines, i) < OpenCount(d, lines, n) &&
              Records(d, lines, n)[OpenCount(d, lines, i)] == RecordAt(d, lines, i)
    ensures forall r :: r in Records(d, lines, n) ==>
              exists i :: 0 <= i < n && Opens(d, lines[i]) && r == RecordAt(d, lines, i)
  {
    RecordsLength(d, lines, n);
    forall i | 0 <= i < n && Opens(d, lines[i])
      ensures OpenCount(d, lines, i) < OpenCount(d, lines, n)
      ensures Records(d, lines, n)[OpenCount(d, lines, i)] == RecordAt(d, lines, i)
    {
      RecordOfLine(d, lines, n, i);
    }
    forall r | r in Records(d, lines, n)
      ensures exists i :: 0 <= i < n && Opens(d, lines[i]) && r == RecordAt(d, lines, i)
    {
      LineOfRecord(d, lines, n, r);
    }
  }

  /** Counting is monotone, so earlier opening lines give earlier records. */
  lemma {:induction false} OpenCountMonotone(d: Dialect, lines: seq<string>, i: nat, j: nat)
    requires i < j <= |lines| && Opens(d, lines[i])
    ensures OpenCount(d, lines, i) < OpenCount(d, lines, j)
    decreases j - i
  {
    if j > i + 1 {
      OpenCountMonotone(d, lines, i, j - 1);
    }
  }

  /** The parsing loop of both listings: walk the lines with an index and
      append one record per opening line. */
  method ScanDevices(d: Dialect, lines: seq<string>) returns (devices: seq<FfmpegDevice>)
    ensures devices == Records(d, lines, |lines|)
  {
    devices := [];
    var i := 0;
    while i < |lines|
      invariant 0 <= i <= |lines|
      invariant devices == Records(d, lines, i)
    {
      var line := lines[i];
      if '"' in line && Tagged(d, line) {
        var matchName := QuotedRun(line);
        if matchName.Some? {
          var friendlyName := matchName.value;
          var deviceType := KindOf(d, line);
          var alternativeName: Option<string> := None;
          if i + 1 < |lines| && Contains(lines[i + 1], AltMarker) {
            alternativeName := AltNameMatch(lines[i + 1]);
          }
          devices := devices + [FfmpegDevice(friendlyName, AltOr(d, alternativeName, friendlyName), deviceType)];
        }
      }
      i := i + 1;
    }
  }

  /** The audio entries, in order. */
  function AudioDevices(devices: seq<FfmpegDevice>): (r: seq<FfmpegDevice>)
    ensures forall k :: 0 <= k < |r| ==> r[k].kind == Audio && r[k] in devices
    ensures forall x :: x in devices && x.kind == Audio ==> x in r
  {
    if devices == [] then []
    else (if devices[0].kind == Audio then [devices[0]] else []) + AudioDevices(devices[1..])
  }

  /** The filter keeps order and multiplicity: it maps a concatenation to
      the concatenation of the filtered parts... */
  lemma {:induction false} AudioDevicesAppend(a: seq<FfmpegDevice>, b: seq<FfmpegDevice>)
    decreases |a|
    ensures AudioDevices(a + b) == AudioDevices(a) + AudioDevices(b)
  {
    if a == [] {
      assert a + b == b;
    } else {
      assert (a + b)[1..] == a[1..] + b;
      AudioDevicesAppend(a[1..], b);
    }
  }

  /** ...and keeps a single entry exactly when it is an audio entry. */
  lemma AudioDevicesOne(d: FfmpegDevice)
    ensures AudioDevices([]) == []
    ensures AudioDevices([d]) == if d.kind == Audio then [d] else []
  {
    assert [d][1..] == [];
  }

  /** `[d["friendly_name"] for d in devices if d["type"] == "audio"]`. */
  function AudioNames(devices: seq<FfmpegDevice>): seq<string> {
    var audio := AudioDevices(devices);
    seq(|audio|, k requires 0 <= k < |audio| => audio[k].friendlyName)
  }

  /** A name is listed exactly when some audio entry carries it. */
  lemma AudioNamesListed(devices: seq<FfmpegDevice>, name: string)
    ensures name in AudioNames(devices) <==>
              exists d :: d in devices && d.kind == Audio && d.friendlyName == name
  {
    var audio := AudioDevices(devices);
    if d :| d in devices && d.kind == Audio && d.friendlyName == name {
      var k :| 0 <= k < |audio| && audio[k] == d;
      assert AudioNames(devices)[k] == name;
    }
  }

  /** The offered names follow the listing: a concatenation gives the
      concatenation of the names, and one entry gives its name exactly when
      it is an audio entry. */
  lemma AudioNamesAppend(a: seq<FfmpegDevice>, b: seq<FfmpegDevice>, d: FfmpegDevice)
    ensures AudioNames(a + b) == AudioNames(a) + AudioNames(b)
    ensures AudioNames([d]) == if d.kind == Audio then [d.friendlyName] else []
  {
    AudioDevicesAppend(a, b);
    AudioDevicesOne(d);
  }

  /** The alternative name of the first entry with the given friendly name. */
  function AltNameOf(devices: seq<FfmpegDevice>, name: string): (r: Option<string>)
    ensures r.Some? <==> exists i :: 0 <= i < |devices| && devices[i].friendlyName == name
    ensures r.Some? ==> exists i :: 0 <= i < |devices| && devices[i].friendlyName == name &&
                                    devices[i].alternativeName == r.value &&
                                    forall j :: 0 <= j < i ==> devices[j].friendlyName != name
  {
    if devices == [] then None
    else if devices[0].friendlyName == name then Some(devices[0].alternativeName)
    else
      var r := AltNameOf(devices[1..], name);
      assert forall i :: 1 <= i < |devices| ==> devices[i] == devices[1..][i - 1];
      if r.Some? then
        ghost var i :| 0 <= i < |devices| - 1 && devices[1..][i].friendlyName == name &&
                       devices[1..][i].alternativeName == r.value &&
                       forall j :: 0 <= j < i ==> devices[1..][j].friendlyName != name;
        assert devices[i + 1].friendlyName == name;
        r
      else r
  }

  /** The loop with `break` that both settings screens run over
      `devices_list`: the alternative name of the first entry whose friendly
      name is the selection. */
  method FindAltName(devices: seq<FfmpegDevice>, name: string) returns (r: Option<string>)
    ensures r == AltNameOf(devices, name)
  {
    r := None;
    var i := 0;
    while i < |devices|
      invariant 0 <= i <= |devices|
      invariant forall j :: 0 <= j < i ==> devices[j].friendlyName != name
    {
      if devices[i].friendlyName == name {
        r := Some(devices[i].alternativeName);
        return;
      }
      i := i + 1;
    }
  }
}
