/** The device and folder rules of the settings dialog (`SettingsWindow`):
    filling the two device dropdowns, restoring a selection from the stored
    device id, and saving the folder, the language and the two device ids.
    The widgets are not modelled; a dropdown is the string it shows. */
module SettingsWindow {
  import opened Base
  import opened Config
  import opened DshowList
  import opened AudioEngine

  /** `get_text("settings_auto_detect")` in each language table. */
  const AutoLabelPt := "(Detecção Automática)"
  const AutoLabelEn := "(Auto Detect)"

  /** The auto-detect label for the configured language: Portuguese for
      `pt_BR`, English for anything else. */
  function AutoLabel(language: Value): string {
    if language == Str("pt_BR") then AutoLabelPt else AutoLabelEn
  }

  // ---------------------------------------------------------------------
  // `refresh_devices`

  /** The dropdown entries: the auto-detect label, then the friendly names
      of the audio devices in listing order. */
  function DropdownValues(auto: string, devices: seq<FfmpegDevice>): (r: seq<string>)
    ensures |r| == 1 + |AudioDevices(devices)| && r[0] == auto
    ensures forall k :: 1 <= k < |r| ==> r[k] == AudioDevices(devices)[k - 1].friendlyName
  {
    [auto] + AudioNames(devices)
  }

  /** Listing order carries over to the dropdown: extending the listing
      appends the new audio names after the existing entries. */
  lemma DropdownValuesAppend(auto: string, a: seq<FfmpegDevice>, b: seq<FfmpegDevice>)
    ensures DropdownValues(auto, a + b) == DropdownValues(auto, a) + AudioNames(b)
  {
    AudioNamesAppend(a, b, FfmpegDevice("", "", Audio));
  }

  /** An entry is offered exactly when it is the auto-detect label or the
      name of a listed audio device. */
  lemma DropdownListed(auto: string, devices: seq<FfmpegDevice>, name: string)
    ensures name in DropdownValues(auto, devices) <==>
              name == auto || exists d :: d in devices && d.kind == Audio && d.friendlyName == name
  {
    AudioNamesListed(devices, name);
    assert DropdownValues(auto, devices) == [auto] + AudioNames(devices);
  }

  /** Which audio devices carry the stored id. */
  function GuidMarks(audio: seq<FfmpegDevice>, guid: Value): (m: seq<bool>)
    ensures |m| == |audio| && forall k :: 0 <= k < |audio| ==> m[k] == (Str(audio[k].alternativeName) == guid)
  {
    seq(|audio|, k requires 0 <= k < |audio| => Str(audio[k].alternativeName) == guid)
  }

  /** The friendly name of the first audio device whose alternative name is
      the stored id. */
  function NameForGuid(audio: seq<FfmpegDevice>, guid: Value): Option<string> {
    var k := FirstTrue(GuidMarks(audio, guid));
    if k.Some? then Some(audio[k.value].friendlyName) else None
  }

  /** The selection after a refresh: a current selection other than
      auto-detect that is still offered is kept; otherwise the stored id
      picks its device's name; otherwise auto-detect. */
  function Restored(current: string, auto: string, values: seq<string>, audio: seq<FfmpegDevice>, saved: Value): string {
    if current != "" && current in values && current != auto then current
    else if Truthy(saved) then
      var n := NameForGuid(audio, saved);
      if n.Some? then n.value else auto
    else auto
  }

  /** The first audio device carrying the stored id gives the name; there
      is none exactly when no audio device carries it. */
  lemma NameForGuidFirst(audio: seq<FfmpegDevice>, guid: Value)
    ensures NameForGuid(audio, guid).None? <==> forall d :: d in audio ==> Str(d.alternativeName) != guid
    ensures NameForGuid(audio, guid).Some? ==>
              exists k :: 0 <= k < |audio| && audio[k].friendlyName == NameForGuid(audio, guid).value &&
                          Str(audio[k].alternativeName) == guid &&
                          forall j :: 0 <= j < k ==> Str(audio[j].alternativeName) != guid
  {
    var m := GuidMarks(audio, guid);
    if FirstTrue(m).None? {
      forall d | d in audio ensures Str(d.alternativeName) != guid {
        var j :| 0 <= j < |audio| && audio[j] == d;
        assert !m[j];
      }
    }
  }

  /** Whether a refresh keeps the current selection. */
  predicate Kept(current: string, auto: string, values: seq<string>) {
    current != "" && current in values && current != auto
  }

  /** The restoring rule as promised: a kept selection stays; otherwise the
      name of the first audio device carrying the stored id; auto-detect
      when no id is stored or no audio device carries it. */
  lemma RestoredSelection(current: string, auto: string, values: seq<string>, audio: seq<FfmpegDevice>, saved: Value)
    ensures Kept(current, auto, values) ==> Restored(current, auto, values, audio, saved) == current
    ensures !Kept(current, auto, values) && (!Truthy(saved) || forall d :: d in audio ==> Str(d.alternativeName) != saved) ==>
              Restored(current, auto, values, audio, saved) == auto
    ensures !Kept(current, auto, values) && Truthy(saved) && (exists d :: d in audio && Str(d.alternativeName) == saved) ==>
              exists k :: 0 <= k < |audio| && audio[k].friendlyName == Restored(current, auto, values, audio, saved) &&
                          Str(audio[k].alternativeName) == saved &&
                          forall j :: 0 <= j < k ==> Str(audio[j].alternativeName) != saved
  {
    NameForGuidFirst(audio, saved);
  }

  /** Whatever a refresh selects is one of the dropdown entries. */
  lemma RestoredOffered(current: string, auto: string, devices: seq<FfmpegDevice>, saved: Value)
    ensures Restored(current, auto, DropdownValues(auto, devices), AudioDevices(devices), saved) in DropdownValues(auto, devices)
  {
    var values := DropdownValues(auto, devices);
    var audio := AudioDevices(devices);
    var k := FirstTrue(GuidMarks(audio, saved));
    if k.Some? {
      assert values[k.value + 1] == audio[k.value].friendlyName;
    }
  }

  /** One dropdown's restoring code: keep, or look the stored id up with a
      `found` flag, or fall back to auto-detect. */
  method RestoreSelection(current: string, auto: string, values: seq<string>, audio: seq<FfmpegDevice>, saved: Value)
    returns (selection: string)
    ensures selection == Restored(current, auto, values, audio, saved)
  {
    if current != "" && current in values && current != auto {
      return current;
    }
    if !Truthy(saved) {
      return auto;
    }
    ghost var m := GuidMarks(audio, saved);
    var found := false;
    var i := 0;
    while i < |audio|
      invariant 0 <= i <= |audio|
      invariant !found && FirstTrue(m[..i]).None?
    {
      FirstTrueStep(m, i);
      if Str(audio[i].alternativeName) == saved {
        selection := audio[i].friendlyName;
        found := true;
        FirstTrueAt(m, i);
        break;
      }
      i := i + 1;
    }
    if !found {
      assert m[..|audio|] == m;
      selection := auto;
    }
  }

  // ---------------------------------------------------------------------
  // `on_save`

  /** The folder to store: the chosen folder unless it is empty or the
      default folder, which are stored as `None`. */
  function StoredFolder(folder: string, baseDir: string): (v: Value)
    ensures v == Null <==> folder == "" || folder == baseDir
    ensures v != Null ==> v == Str(folder)
  {
    if folder != "" && folder != baseDir then Str(folder) else Null
  }

  /** What saving writes for one dropdown: `None` for an empty or
      auto-detect selection; the alternative name of the first entry with
      the selected friendly name; nothing at all (`None` here, the key left
      as it is) when no entry has that name. */
  function StoredGuid(selection: string, auto: string, devices: seq<FfmpegDevice>): (r: Option<Value>)
    ensures selection == "" || selection == auto ==> r == Some(Null)
    ensures selection != "" && selection != auto ==>
              (r.None? <==> AltNameOf(devices, selection).None?) &&
              (r.Some? ==> r.value == Str(AltNameOf(devices, selection).value))
  {
    if selection != "" && selection != auto then
      var alt := AltNameOf(devices, selection);
      if alt.Some? then Some(Str(alt.value)) else None
    else Some(Null)
  }

  /** `cfg.set(key, v)` when there is a value to store. */
  function Apply(s: map<string, Value>, key: string, v: Option<Value>): map<string, Value> {
    if v.Some? then s[key := v.value] else s
  }

  /** The settings after the four steps of saving, with `auto` the label
      the device selections are compared with. */
  function SaveSteps(s: map<string, Value>, folder: string, baseDir: string, language: string,
                     loopback: string, mic: string, auto: string, devices: seq<FfmpegDevice>): map<string, Value>
  {
    var s1 := s[OutputFolderKey := StoredFolder(folder, baseDir)];
    var s2 := if Lookup(s1, LanguageKey) != Str(language) then s1[LanguageKey := Str(language)] else s1;
    var s3 := Apply(s2, LoopbackKey, StoredGuid(loopback, auto, devices));
    Apply(s3, MicKey, StoredGuid(mic, auto, devices))
  }

  /** Saving as written: the auto-detect label is fetched after the new
      language is stored, so it is the label of the new language. */
  function SavedAsWritten(s: map<string, Value>, folder: string, baseDir: string, language: string,
                          loopback: string, mic: string, devices: seq<FfmpegDevice>): map<string, Value>
  {
    SaveSteps(s, folder, baseDir, language, loopback, mic, AutoLabel(Str(language)), devices)
  }

  /** Saving as intended: a selection is compared with the auto-detect label
      the dropdowns were filled with. */
  function SavedSettings(s: map<string, Value>, folder: string, baseDir: string, language: string,
                         loopback: string, mic: string, shownAuto: string, devices: seq<FfmpegDevice>): map<string, Value>
  {
    SaveSteps(s, folder, baseDir, language, loopback, mic, shownAuto, devices)
  }

  /** The saving rule: the folder is stored unless empty or the default;
      the language is the chosen one; an empty or auto-detect selection
      clears its id, a selection names the first matching entry's
      alternative name, and an unknown name leaves the id as it was; no
      other key changes. */
  lemma SavedSettingsSpec(s: map<string, Value>, folder: string, baseDir: string, language: string,
                          loopback: string, mic: string, shownAuto: string, devices: seq<FfmpegDevice>)
    ensures var r := SavedSettings(s, folder, baseDir, language, loopback, mic, shownAuto, devices);
            Lookup(r, OutputFolderKey) == StoredFolder(folder, baseDir) &&
            Lookup(r, LanguageKey) == Str(language) &&
            (loopback == "" || loopback == shownAuto ==> Lookup(r, LoopbackKey) == Null) &&
            (loopback != "" && loopback != shownAuto && AltNameOf(devices, loopback).Some? ==>
               Lookup(r, LoopbackKey) == Str(AltNameOf(devices, loopback).value)) &&
            (loopback != "" && loopback != shownAuto && AltNameOf(devices, loopback).None? ==>
               Lookup(r, LoopbackKey) == Lookup(s, LoopbackKey)) &&
            (mic == "" || mic == shownAuto ==> Lookup(r, MicKey) == Null) &&
            (mic != "" && mic != shownAuto && AltNameOf(devices, mic).Some? ==>
               Lookup(r, MicKey) == Str(AltNameOf(devices, mic).value)) &&
            (mic != "" && mic != shownAuto && AltNameOf(devices, mic).None? ==>
               Lookup(r, MicKey) == Lookup(s, MicKey)) &&
            r.Keys == s.Keys + {OutputFolderKey, LanguageKey} + (if StoredGuid(loopback, shownAuto, devices).Some? then {LoopbackKey} else {})
                      + (if StoredGuid(mic, shownAuto, devices).Some? then {MicKey} else {}) &&
            forall k :: k in s && k !in {OutputFolderKey, LanguageKey, LoopbackKey, MicKey} ==> r[k] == s[k]
  {
  }

  /** As written, changing the language in the dialog and leaving a device
      on auto-detect keeps the stored id instead of clearing it: the
      selection shows the Portuguese label and is compared with the English
      one. */
  lemma AutoSelectionAfterLanguageChange()
    ensures var s := Defaults()[LoopbackKey := Str("@device_cm_old")];
            Lookup(SavedAsWritten(s, "", "", "en_US", AutoLabelPt, AutoLabelPt, []), LoopbackKey) == Str("@device_cm_old") &&
            Lookup(SavedSettings(s, "", "", "en_US", AutoLabelPt, AutoLabelPt, AutoLabelPt, []), LoopbackKey) == Null
  {
    assert AutoLabelPt != AutoLabelEn by { assert AutoLabelPt[1] != AutoLabelEn[1]; }
  }

  /** The code as written and the intended save differ only through the
      auto-detect labels: when neither selection is one of them, the two
      saves agree whichever label the dropdowns showed. */
  lemma SavedAsWrittenAgreesOffLabels(s: map<string, Value>, folder: string, baseDir: string, language: string,
                                      loopback: string, mic: string, shownAuto: string, devices: seq<FfmpegDevice>)
    requires shownAuto == AutoLabelPt || shownAuto == AutoLabelEn
    requires loopback != AutoLabelPt && loopback != AutoLabelEn
    requires mic != AutoLabelPt && mic != AutoLabelEn
    ensures SavedAsWritten(s, folder, baseDir, language, loopback, mic, devices) ==
            SavedSettings(s, folder, baseDir, language, loopback, mic, shownAuto, devices)
  {
    assert StoredGuid(loopback, AutoLabel(Str(language)), devices) == StoredGuid(loopback, shownAuto, devices);
    assert StoredGuid(mic, AutoLabel(Str(language)), devices) == StoredGuid(mic, shownAuto, devices);
  }

  /** A concrete selection that was saved is what the engine reads next:
      the stored id is the loopback it records from, verbatim. */
  lemma SavedLoopbackReachesEngine(s: map<string, Value>, folder: string, baseDir: string, language: string,
                                   loopback: string, mic: string, shownAuto: string, devices: seq<FfmpegDevice>,
                                   table: Option<seq<SdDevice>>)
    requires loopback != "" && loopback != shownAuto
    requires AltNameOf(devices, loopback).Some? && AltNameOf(devices, loopback).value != ""
    ensures var file := Json(SavedSettings(s, folder, baseDir, language, loopback, mic, shownAuto, devices));
            Discover(LoadDeviceGuids(file), table).0 == Str(AltNameOf(devices, loopback).value)
  {
    SavedSettingsSpec(s, folder, baseDir, language, loopback, mic, shownAuto, devices);
  }

  /** An auto-detect loopback leaves the choice to the engine's heuristic. */
  lemma AutoLoopbackLeavesHeuristic(s: map<string, Value>, folder: string, baseDir: string, language: string,
                                    mic: string, shownAuto: string, devices: seq<FfmpegDevice>, table: seq<SdDevice>)
    ensures var file := Json(SavedSettings(s, folder, baseDir, language, shownAuto, mic, shownAuto, devices));
            Discover(LoadDeviceGuids(file), Some(table)) == Heuristic(table)
  {
    SavedSettingsSpec(s, folder, baseDir, language, shownAuto, mic, shownAuto, devices);
  }

  /** Saving one dropdown: clear the id for an empty or auto-detect
      selection, otherwise store the alternative name of the first entry
      with the selected name, found by the loop with `break`. */
  method SaveDevice(cfg: AppConfig, key: string, selection: string, auto: string, devices: seq<FfmpegDevice>)
    modifies cfg`settings, cfg`file
    ensures cfg.settings == Apply(old(cfg.settings), key, StoredGuid(selection, auto, devices))
    ensures cfg.file == if cfg.writable && StoredGuid(selection, auto, devices).Some? then Json(cfg.settings) else old(cfg.file)
  {
    if selection != "" && selection != auto {
      var alt := FindAltName(devices, selection);
      if alt.Some? {
        cfg.Set(key, Str(alt.value));
      }
    } else {
      cfg.Set(key, Null);
    }
  }

  class SettingsDialog {
    /** `self.devices_list`: the engine's last listing. */
    var devicesList: seq<FfmpegDevice>
    /** The entries of both device dropdowns. */
    var values: seq<string>
    /** The auto-detect label the dropdowns were filled with. */
    var shownAuto: string
    /** `loopback_var`, `mic_var`, `folder_var`, `lang_var`. */
    var loopback: string
    var mic: string
    var folder: string
    var language: string
    /** `BASE_DIR`. */
    const baseDir: string

    /** The dialog after `load_current_settings`: the stored folder or the
        default folder, the stored language or `pt_BR`, empty device
        selections and no listing yet. */
    constructor (cfg: AppConfig, base: string)
      ensures baseDir == base && devicesList == [] && values == [] && loopback == "" && mic == ""
      ensures folder == TextOr(cfg.Get(OutputFolderKey), base)
      ensures language == TextOr(cfg.Get(LanguageKey), "pt_BR")
      ensures shownAuto == AutoLabel(cfg.Get(LanguageKey))
    {
      baseDir := base;
      devicesList := [];
      values := [];
      shownAuto := AutoLabel(cfg.Get(LanguageKey));
      loopback := "";
      mic := "";
      folder := TextOr(cfg.Get(OutputFolderKey), base);
      language := TextOr(cfg.Get(LanguageKey), "pt_BR");
    }

    /** `refresh_devices` with the engine's listing: fill both dropdowns,
        then restore each selection. */
    method RefreshDevices(cfg: AppConfig, listing: seq<FfmpegDevice>)
      modifies this`devicesList, this`values, this`shownAuto, this`loopback, this`mic
      ensures devicesList == listing
      ensures shownAuto == AutoLabel(cfg.Get(LanguageKey))
      ensures values == DropdownValues(shownAuto, listing)
      ensures loopback == Restored(old(loopback), shownAuto, values, AudioDevices(listing), cfg.Get(LoopbackKey))
      ensures mic == Restored(old(mic), shownAuto, values, AudioDevices(listing), cfg.Get(MicKey))
      ensures loopback in values && mic in values
    {
      var currentLoopback := loopback;
      var currentMic := mic;
      devicesList := listing;
      var audio := AudioDevices(listing);
      var auto := AutoLabel(cfg.Get(LanguageKey));
      shownAuto := auto;
      values := [auto] + AudioNames(listing);
      loopback := RestoreSelection(currentLoopback, auto, values, audio, cfg.Get(LoopbackKey));
      mic := RestoreSelection(currentMic, auto, values, audio, cfg.Get(MicKey));
      RestoredOffered(currentLoopback, auto, listing, cfg.Get(LoopbackKey));
      RestoredOffered(currentMic, auto, listing, cfg.Get(MicKey));
    }

    /** `on_save`: store the folder, the language when it changed, and each
        device id, one `cfg.set` at a time. A selection is compared with the
        auto-detect label the dropdowns show, not with the label of the
        language just saved (`SavedAsWritten` is the code as written). The
        two agree when the stored language is the chosen one and the
        dropdowns were filled with its label. */
    method OnSave(cfg: AppConfig)
      modifies cfg`settings, cfg`file
      ensures cfg.settings == SavedSettings(old(cfg.settings), folder, baseDir, language, loopback, mic, shownAuto, devicesList)
      ensures cfg.file == if cfg.writable then Json(cfg.settings) else old(cfg.file)
      ensures old(cfg.Get(LanguageKey)) == Str(language) && shownAuto == AutoLabel(old(cfg.Get(LanguageKey))) ==>
                cfg.settings == SavedAsWritten(old(cfg.settings), folder, baseDir, language, loopback, mic, devicesList)
    {
      if folder != "" && folder != baseDir {
        cfg.Set(OutputFolderKey, Str(folder));
      } else {
        cfg.Set(OutputFolderKey, Null);
      }
      var oldLanguage := cfg.Get(LanguageKey);
      if oldLanguage != Str(language) {
        cfg.Set(LanguageKey, Str(language));
      }
      SaveDevice(cfg, LoopbackKey, loopback, shownAuto, devicesList);
      SaveDevice(cfg, MicKey, mic, shownAuto, devicesList);
    }
  }
}
