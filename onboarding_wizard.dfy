/** The first-run wizard (`OnboardingWizard`): four pages (welcome and
    language, output folder, devices, confirmation) walked with Next and
    Back, a page check before moving on, the preselection of devices after a
    listing, and the settings written when the wizard finishes. The widgets
    are not modelled; a field is the string it holds. */
module OnboardingWizard {
  import opened Base
  import opened Text
  import opened Config
  import opened DshowList
  import opened AudioEngine

  const TotalPages: nat := 4
  const FolderPage: nat := 1
  const DevicesPage: nat := 2
  const LastPage: nat := TotalPages - 1

  // ---------------------------------------------------------------------
  // Navigation

  /** `validate_current_page`: the folder page needs a folder, the devices
      page needs both devices; every other page passes. */
  function PageValid(page: int, folder: string, loopback: string, mic: string): (ok: bool)
    ensures page == FolderPage ==> (ok <==> folder != "")
    ensures page == DevicesPage ==> (ok <==> loopback != "" && mic != "")
    ensures page != FolderPage && page != DevicesPage ==> ok
  {
    if page == FolderPage then folder != ""
    else if page == DevicesPage then loopback != "" && mic != ""
    else true
  }

  /** The page after Next, given whether the current page validates. */
  function NextPage(page: int, valid: bool): int {
    if valid && page < TotalPages - 1 then page + 1 else page
  }

  /** The page after Back. */
  function PrevPage(page: int): int {
    if page > 0 then page - 1 else page
  }

  datatype Step = Next(valid: bool) | Back

  /** The page reached by a run of button presses. */
  function Walk(page: int, steps: seq<Step>): int
    decreases |steps|
  {
    if steps == [] then page
    else
      var p := match steps[0]
        case Next(valid) => NextPage(page, valid)
        case Back => PrevPage(page);
      Walk(p, steps[1..])
  }

  /** However the buttons are pressed the page stays within range, and the
      number of pages moved is bounded by the number of presses. */
  lemma {:induction false} WalkInRange(page: int, steps: seq<Step>)
    requires 0 <= page < TotalPages
    decreases |steps|
    ensures 0 <= Walk(page, steps) < TotalPages
    ensures page - |steps| <= Walk(page, steps) <= page + |steps|
  {
    if steps != [] {
      var p := match steps[0]
        case Next(valid) => NextPage(page, valid)
        case Back => PrevPage(page);
      WalkInRange(p, steps[1..]);
    }
  }

  /** A page that fails its check cannot be left forward. */
  lemma InvalidPageBlocksNext(page: int, steps: seq<Step>)
    requires forall k :: 0 <= k < |steps| ==> steps[k] == Next(false)
    ensures Walk(page, steps) == page
    decreases |steps|
  {
    if steps != [] {
      InvalidPageBlocksNext(page, steps[1..]);
    }
  }

  // ---------------------------------------------------------------------
  // Device preselection (`refresh_devices`)

  /** After a listing: with no audio device nothing changes; otherwise an
      empty loopback becomes the first name and an empty microphone the
      second name when there is one, else the first. */
  function Preselect(names: seq<string>, loopback: string, mic: string): (r: (string, string))
    ensures names == [] ==> r == (loopback, mic)
    ensures names != [] && loopback == "" ==> r.0 == names[0]
    ensures loopback != "" ==> r.0 == loopback
    ensures names != [] && mic == "" ==> r.1 == if |names| > 1 then names[1] else names[0]
    ensures mic != "" ==> r.1 == mic
  {
    if names == [] then (loopback, mic)
    else
      (if loopback == "" then names[0] else loopback,
       if mic == "" then (if |names| > 1 then names[1] else names[0]) else mic)
  }

  /** Preselection over named devices lets the devices page validate. */
  lemma PreselectValidates(names: seq<string>, folder: string, loopback: string, mic: string)
    requires names != [] && forall k :: 0 <= k < |names| ==> names[k] != ""
    ensures var r := Preselect(names, loopback, mic);
            PageValid(DevicesPage, folder, r.0, r.1)
  {
  }

  /** An engine listing names every device, so its audio names are never empty. */
  lemma EngineNamesNonEmpty(lines: seq<string>)
    ensures var names := AudioNames(Records(Engine, lines, |lines|));
            forall k :: 0 <= k < |names| ==> names[k] != ""
  {
    var devices := Records(Engine, lines, |lines|);
    RecordsPerLine(Engine, lines, |lines|);
    var audio := AudioDevices(devices);
    forall k | 0 <= k < |audio| ensures audio[k].friendlyName != "" {
      assert audio[k] in devices;
      var i :| 0 <= i < |lines| && Opens(Engine, lines[i]) && audio[k] == RecordAt(Engine, lines, i);
    }
  }

  // ---------------------------------------------------------------------
  // `finish_wizard`

  /** The settings after finishing: the folder if it is not the default
      one, each device's id when some listed entry has the selected name,
      the language, and `first_run` cleared. */
  function Finished(s: map<string, Value>, folder: string, baseDir: string, loopback: string, mic: string,
                    language: string, devices: seq<FfmpegDevice>): map<string, Value>
  {
    var s1 := if folder != baseDir then s[OutputFolderKey := Str(folder)] else s;
    var l := AltNameOf(devices, loopback);
    var s2 := if l.Some? then s1[LoopbackKey := Str(l.value)] else s1;
    var m := AltNameOf(devices, mic);
    var s3 := if m.Some? then s2[MicKey := Str(m.value)] else s2;
    s3[LanguageKey := Str(language)][FirstRunKey := Bool(false)]
  }

  /** Finishing as the source promises it. */
  lemma FinishedSpec(s: map<string, Value>, folder: string, baseDir: string, loopback: string, mic: string,
                     language: string, devices: seq<FfmpegDevice>)
    ensures var r := Finished(s, folder, baseDir, loopback, mic, language, devices);
            Lookup(r, FirstRunKey) == Bool(false) && Lookup(r, LanguageKey) == Str(language) &&
            Lookup(r, OutputFolderKey) == (if folder != baseDir then Str(folder) else Lookup(s, OutputFolderKey)) &&
            Lookup(r, LoopbackKey) == (if AltNameOf(devices, loopback).Some? then Str(AltNameOf(devices, loopback).value)
                                       else Lookup(s, LoopbackKey)) &&
            Lookup(r, MicKey) == (if AltNameOf(devices, mic).Some? then Str(AltNameOf(devices, mic).value)
                                  else Lookup(s, MicKey)) &&
            forall k :: k in s && k !in {OutputFolderKey, LoopbackKey, MicKey, LanguageKey, FirstRunKey} ==> r[k] == s[k]
  {
  }

  /** Every entry of an engine listing has a non-empty alternative name. */
  lemma EngineAltNamesNonEmpty(lines: seq<string>, d: FfmpegDevice)
    requires d in Records(Engine, lines, |lines|)
    ensures d.alternativeName != ""
  {
    RecordsPerLine(Engine, lines, |lines|);
    var i :| 0 <= i < |lines| && Opens(Engine, lines[i]) && d == RecordAt(Engine, lines, i);
  }

  /** A loopback chosen from an engine listing reaches the engine: its
      alternative name is never empty, so the next start uses it verbatim. */
  lemma WizardLoopbackReachesEngine(s: map<string, Value>, folder: string, baseDir: string, loopback: string, mic: string,
                                    language: string, lines: seq<string>, table: Option<seq<SdDevice>>)
    requires AltNameOf(Records(Engine, lines, |lines|), loopback).Some?
    ensures var devices := Records(Engine, lines, |lines|);
            var file := Json(Finished(s, folder, baseDir, loopback, mic, language, devices));
            Discover(LoadDeviceGuids(file), table).0 == Str(AltNameOf(devices, loopback).value)
  {
    var devices := Records(Engine, lines, |lines|);
    var alt := AltNameOf(devices, loopback).value;
    var k :| 0 <= k < |devices| && devices[k].friendlyName == loopback && devices[k].alternativeName == alt &&
             forall j :: 0 <= j < k ==> devices[j].friendlyName != loopback;
    EngineAltNamesNonEmpty(lines, devices[k]);
    FinishedSpec(s, folder, baseDir, loopback, mic, language, devices);
  }

  // ---------------------------------------------------------------------
  // The wizard

  /** One of the two loops with `break`: store the alternative name of the
      first entry with the selected name, if there is one. */
  method StoreDeviceId(cfg: AppConfig, key: string, devices: seq<FfmpegDevice>, selection: string)
    modifies cfg`settings, cfg`file
    ensures AltNameOf(devices, selection).Some? ==>
              cfg.settings == old(cfg.settings)[key := Str(AltNameOf(devices, selection).value)] &&
              cfg.file == if cfg.writable then Json(cfg.settings) else old(cfg.file)
    ensures AltNameOf(devices, selection).None? ==> cfg.settings == old(cfg.settings) && cfg.file == old(cfg.file)
  {
    var alt := FindAltName(devices, selection);
    if alt.Some? {
      cfg.Set(key, Str(alt.value));
    }
  }

  /** What the Next button runs. */
  datatype NextAction = Advance | Finish

  class Wizard {
    var currentPage: int
    /** Whether Back is enabled. */
    var backEnabled: bool
    var nextAction: NextAction
    /** `selected_folder`, `selected_loopback`, `selected_mic`, `selected_lang`. */
    var folder: string
    var loopback: string
    var mic: string
    var language: string
    /** `devices_list` and the entries of both device dropdowns. */
    var devicesList: seq<FfmpegDevice>
    var names: seq<string>
    /** Whether the wizard has closed after finishing. */
    var closed: bool
    /** `BASE_DIR`. */
    const baseDir: string

    /** The page is in range and the buttons match it. */
    predicate Valid()
      reads this
    {
      0 <= currentPage < TotalPages &&
      backEnabled == (currentPage > 0) &&
      (nextAction == Finish <==> currentPage == LastPage)
    }

    /** The wizard on its first page, with the default folder, no devices and
        the stored language or `pt_BR`. */
    constructor (cfg: AppConfig, base: string)
      ensures Valid() && currentPage == 0 && !closed
      ensures baseDir == base && folder == base && loopback == "" && mic == ""
      ensures language == TextOr(cfg.Get(LanguageKey), "pt_BR")
      ensures devicesList == [] && names == []
    {
      baseDir := base;
      currentPage := 0;
      folder := base;
      loopback := "";
      mic := "";
      language := TextOr(cfg.Get(LanguageKey), "pt_BR");
      devicesList := [];
      names := [];
      closed := false;
      backEnabled := false;
      nextAction := Advance;
      new;
      ShowPage(0);
    }

    /** `show_page`: the button states for page `p`. */
    method ShowPage(p: int)
      requires 0 <= p < TotalPages
      modifies this`backEnabled, this`nextAction
      ensures backEnabled == (p > 0)
      ensures nextAction == if p == LastPage then Finish else Advance
    {
      backEnabled := p > 0;
      if p == TotalPages - 1 {
        nextAction := Finish;
      } else {
        nextAction := Advance;
      }
    }

    /** `go_next`. */
    method GoNext()
      requires Valid()
      modifies this`currentPage, this`backEnabled, this`nextAction
      ensures Valid()
      ensures currentPage == NextPage(old(currentPage), PageValid(old(currentPage), folder, loopback, mic))
    {
      if !PageValid(currentPage, folder, loopback, mic) {
        return;
      }
      if currentPage < TotalPages - 1 {
        currentPage := currentPage + 1;
        ShowPage(currentPage);
      }
    }

    /** `go_back`. */
    method GoBack()
      requires Valid()
      modifies this`currentPage, this`backEnabled, this`nextAction
      ensures Valid()
      ensures currentPage == PrevPage(old(currentPage))
    {
      if currentPage > 0 {
        currentPage := currentPage - 1;
        ShowPage(currentPage);
      }
    }

    /** `refresh_devices` with the engine's listing: offer the audio names
        and preselect. */
    method RefreshDevices(listing: seq<FfmpegDevice>)
      modifies this`devicesList, this`names, this`loopback, this`mic
      ensures devicesList == listing && names == AudioNames(listing)
      ensures (loopback, mic) == Preselect(names, old(loopback), old(mic))
    {
      devicesList := listing;
      names := AudioNames(listing);
      if names != [] {
        if loopback == "" {
          loopback := names[0];
        }
        if mic == "" {
          mic := if |names| > 1 then names[1] else names[0];
        }
      }
    }

    /** `finish_wizard`: nothing unless the current page validates; then
        store the folder, the two ids, the language and `first_run`, and
        close. */
    method FinishWizard(cfg: AppConfig)
      modifies cfg`settings, cfg`file, this`closed
      ensures !PageValid(currentPage, folder, loopback, mic) ==>
                cfg.settings == old(cfg.settings) && cfg.file == old(cfg.file) && closed == old(closed)
      ensures PageValid(currentPage, folder, loopback, mic) ==>
                cfg.settings == Finished(old(cfg.settings), folder, baseDir, loopback, mic, language, devicesList) &&
                cfg.file == (if cfg.writable then Json(cfg.settings) else old(cfg.file)) && closed
    {
      if !PageValid(currentPage, folder, loopback, mic) {
        return;
      }
      if folder != baseDir {
        cfg.Set(OutputFolderKey, Str(folder));
      }
      StoreDeviceId(cfg, LoopbackKey, devicesList, loopback);
      StoreDeviceId(cfg, MicKey, devicesList, mic);
      cfg.Set(LanguageKey, Str(language));
      cfg.Set(FirstRunKey, Bool(false));
      closed := true;
    }
  }
}
