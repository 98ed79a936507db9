# Synthotic capture core in Dafny

A model of the recording core of Synthotic, a Windows desktop tool that records the
system's sound output together with a microphone through ffmpeg's DirectShow input,
plus the small decision rules around it. The model covers:

- the engine (`AudioEngine`):
  - locating the bundled ffmpeg;
  - parsing ffmpeg's DirectShow device listing;
  - choosing the loopback and microphone devices;
  - resolving a friendly name into a DirectShow id in three passes;
  - building the capture command;
  - the start and stop session, with its escalation from `q` to terminate to kill;
- the key-value configuration (`AppConfig`);
- the platform helpers (platform tests, the console-window flag, the recordings folder, the binary search, opening the sound settings);
- the microphone diagnostic script, with its own variant of the listing parser and its id validation;
- the settings dialog's rules for filling, restoring and saving the device selections;
- the first-run wizard's page navigation, device preselection and final save.

Modules:

| module | file | models |
|---|---|---|
| `Base` | base.dfy | optional values, JSON values and Python truthiness, first/last true position |
| `Text` | text.dfy | `in`, `find`, `startswith`, `s[:n]`, ASCII `lower()`, `split('\n')`, `os.path.join` |
| `DshowList` | dshow_list.dfy | the listing parser shared by the engine (`Engine` dialect) and the diagnostic script (`Diagnostic` dialect) |
| `Config` | config.dfy | src/config.py |
| `Environment` | environment.dfy | the host as an input: platform, files, directories, `PATH`, failing launches |
| `AudioEngine` | audio_engine.dfy | src/core/audio_engine.py |
| `PlatformProbe` | platform_probe.dfy | src/platform_utils.py |
| `DiagnoseMic` | diagnose_mic.dfy | utils/diagnose_mic.py |
| `SettingsWindow` | settings_window.dfy | src/ui/settings_window.py (rules only) |
| `OnboardingWizard` | onboarding_wizard.dfy | src/ui/onboarding_wizard.py (rules only) |

The outside world is made of inputs:

- ffmpeg's diagnostic output is a string, or `None` when running ffmpeg raises.
- The `sounddevice` table is a sequence of `(name, max_input_channels)`, or `None` when the query raises.
- `config.json` is `Missing`, `Unreadable` or a JSON object.
- The session timestamp is an opaque string.
- The ffmpeg process and the output file are oracles: whether the process exits on `q` within 5 seconds, whether it exits within 2 seconds after `terminate`, and whether the file exists and how large it is.
- Ghost logs record every argv handed to `Popen` and every signal sent, so the shutdown order is stated over the log.

The diagnostic script's `find_ffmpeg` (utils/diagnose_mic.py:18-29) is the same search as the
engine's `_find_ffmpeg`. Both look next to the repository root, so one function, `AudioEngine.FindFfmpeg`, models
both, and `DiagnoseMic.Diagnose` calls it.

Behaviour of the code worth knowing when reading the model:

- `start` sets `wav_path` before it looks for devices, so a start refused with `LoopbackNotFoundError` still replaces the WAV path.
- The "loopback is not the microphone" exclusion only guards the keyword path. A device whose name contains both "mix" and "mic" can become both the fallback loopback and the microphone; `AudioEngine.MixFallbackMayEqualMic` exhibits it.
- The configuration keys are `loopback_device_guid` and `mic_device_guid`.
- Only the DirectShow (Windows) capture path exists in the code.

## Model

| member | source | states |
|---|---|---|
| AudioEngine.FindFfmpeg | src/core/audio_engine.py:43-55 | the bundled `bin/ffmpeg.exe` wins when it is a file; otherwise only the frozen `_MEIPASS` copy, and only when the app is frozen; `None` exactly when neither exists; PATH is never consulted |
| AudioEngine.NewEngine | src/core/audio_engine.py:29-41 | no engine is built without a binary; a new engine holds the found path, no process, no WAV path and empty logs |
| AudioEngine.Engine.constructor | src/core/audio_engine.py:30-33 | a fresh engine has no process and no WAV path |
| AudioEngine.Engine.GetFfmpegDevices | src/core/audio_engine.py:57-108 | the listing's records are the engine-dialect records of its lines; a run that raises gives `[]` |
| DshowList.ScanDevices | src/core/audio_engine.py:72-102 | the index loop produces exactly the records of all lines, in line order |
| DshowList.RecordAt | src/core/audio_engine.py:78-100 | a record's friendly name is the first non-empty quoted run, without quotes; its type is audio iff `(audio)` occurs, video iff `(video)` occurs without `(audio)` (engine only); its alternative name is the next line's value when present, else the friendly name (engine) or `(None)` (diagnostic), so never empty |
| DshowList.QuotedRunFrom | src/core/audio_engine.py:79-81 | a match of `"([^"]+)"` is non-empty and quote-free |
| DshowList.QuotedRunLeftmost | src/core/audio_engine.py:79-81 | the match is the run after the leftmost quote whose next quote is at least two positions later; there is none exactly when no quote qualifies |
| DshowList.AltNameMatchSpec | src/core/audio_engine.py:90-94 | `Alternative name "(.*)"` matches at the first occurrence of the prefix, and the group runs to the last quote of the line (greedy); no match exactly when the prefix is absent or no quote follows it |
| DshowList.RecordsPerLine | src/core/audio_engine.py:75-102 | exactly one record per line that opens a record: the `i`-th opening line gives the record at position `OpenCount(i)`, there are as many records as opening lines, and every record comes from one |
| DshowList.OpenCountMonotone | src/core/audio_engine.py:75-102 | an earlier opening line yields an earlier record (line order is kept) |
| DshowList.AudioDevices | src/ui/settings_window.py:312 | the filtered entries are audio entries of the listing, and every audio entry is kept |
| DshowList.AudioDevicesAppend | src/ui/settings_window.py:312 | the filter keeps order and multiplicity: filtering a concatenation gives the concatenation of the filtered parts |
| DshowList.AudioDevicesOne | src/ui/settings_window.py:312 | the filter of no entries is empty, and a single entry is kept exactly when it is an audio entry (with `AudioDevicesAppend` this fixes the result for every listing) |
| DshowList.AudioNamesAppend | src/ui/settings_window.py:312-316 | the offered names follow listing order: a concatenation gives the concatenation of the names, and one entry gives its name exactly when it is an audio entry |
| DshowList.AudioNamesListed | src/ui/settings_window.py:316 | a name is offered exactly when some audio entry carries it |
| DshowList.AltNameOf | src/ui/onboarding_wizard.py:623-631 | a name has an id exactly when some entry has that friendly name, and the id is the first such entry's alternative name |
| DshowList.FindAltName | src/ui/settings_window.py:396-399 | the loop with `break` returns the first matching entry's alternative name |
| AudioEngine.LoadDeviceGuids | src/core/audio_engine.py:110-127 | the two stored ids as the file holds them (absent keys read as `None`); a missing or unreadable file gives `(None, None)` |
| AudioEngine.Discover | src/core/audio_engine.py:129-134 | a truthy stored loopback id wins, together with the stored microphone id as it is; otherwise a failed device query gives `(None, None)` and a table runs the heuristic |
| AudioEngine.HeuristicChoice | src/core/audio_engine.py:141-179 | the loopback is the LAST device with a loopback keyword, even one without input channels; failing that, the FIRST input-capable device containing "mix"; failing that `None`. The microphone is the FIRST input-capable device with a microphone keyword and no loopback keyword. A keyword-chosen loopback never equals the microphone |
| AudioEngine.MixFallbackMayEqualMic | src/core/audio_engine.py:160-166 | one input-capable device named "micmix" becomes both the fallback loopback and the microphone |
| AudioEngine.DiscoverDevices | src/core/audio_engine.py:129-183 | the loop with `continue` and overwriting returns exactly what `Discover` specifies |
| AudioEngine.ScanPass | src/core/audio_engine.py:204-244 | one scanning loop returns the alternative name on the line after the first candidate line of its pass whose next line has an alternative name, or nothing |
| AudioEngine.ResolvedOrder | src/core/audio_engine.py:185-251 | for a non-empty name and a listing: an exact quoted match wins; then a 20-character lower-cased prefix match; then a lower-cased substring match. Each pass is limited to `(audio)`/`(video, audio)` lines whose next line names an alternative, and the first hit of a pass gives its alternative name. Without a hit the name comes back unchanged |
| AudioEngine.Resolved | src/core/audio_engine.py:185-251 | an empty name, or a listing run that raises, gives the name back unchanged |
| AudioEngine.ResolveDeviceName | src/core/audio_engine.py:185-251 | the three early-returning loops return what `Resolved` specifies |
| AudioEngine.DeviceArg | src/core/audio_engine.py:277-288 | an id starting with `@device_cm_` is used verbatim; any other name goes through the resolver |
| AudioEngine.CaptureCommand | src/core/audio_engine.py:291-322 | the argv starts with the ffmpeg path, has 19 entries with a microphone and 11 without, and always ends in `-ar 48000 -ac 2 -y <wav>` |
| AudioEngine.BuildCommand | src/core/audio_engine.py:291-322 | growing `cmd` with `extend` builds exactly `CaptureCommand` |
| AudioEngine.CaptureCommandParses | src/core/audio_engine.py:291-322 | the argv reads back as its binary, one `-f dshow -i audio=<id>` group per device (loopback first), the mixing graph exactly when there is a microphone, 48000 Hz, 2 channels, and the WAV path |
| AudioEngine.MixGraphStages | src/core/audio_engine.py:306 | the filter graph holds volume 0.9, volume 1.2, `amerge=inputs=2` and the stereo pan |
| AudioEngine.OutputBase | src/core/audio_engine.py:253-265 | the base folder is `BASE_DIR` when the file is missing or unreadable or holds no truthy `output_folder`; a truthy stored string is used as the base; a truthy non-string value gives no base (the later path join raises) |
| AudioEngine.StartPlan | src/core/audio_engine.py:253-289 | `start` refuses only with `LoopbackNotFoundError` or a bad stored value; `LoopbackNotFoundError` comes exactly when the output folder is usable and discovery yields no truthy loopback; a bad stored value is reported exactly when the folder value is unusable, or a truthy loopback or microphone is not a string; it launches exactly when the folder is usable, the discovered loopback is a truthy string and the microphone is falsy or a string |
| AudioEngine.ConfiguredIdUsedVerbatim | src/core/audio_engine.py:274-288 | a stored `@device_cm_` loopback id reaches ffmpeg verbatim, whatever the device table and the listing say; the second input and the mixing stage are present exactly when a microphone id is stored |
| AudioEngine.LaunchShape | src/core/audio_engine.py:274-322 | every launched argv has one or two inputs, the mixing stage exactly with two, 48000 Hz, 2 channels, and the session's WAV path; the first input is `DeviceArg` of the discovered loopback, and a second input, `DeviceArg` of the discovered microphone, is present exactly when a microphone was discovered |
| AudioEngine.Engine.Start | src/core/audio_engine.py:253-351 | the WAV path is set before discovery; a refusal spawns nothing; a launch logs the argv; a failed spawn and a process that dies during the settle wait give `FFmpegRuntimeError`; a running process gives the WAV path |
| AudioEngine.Engine.Spawn | src/core/audio_engine.py:324-349 | the launch is logged; a `Popen` that raises gives `FFmpegRuntimeError` and no new process; a process that has exited after the settle wait is kept and gives `FFmpegRuntimeError`; a running process gives the WAV path |
| AudioEngine.StopSignals | src/core/audio_engine.py:353-368 | no signal without a live process. Otherwise `q` comes first; terminate is sent exactly when `q` times out; kill exactly when the quit request fails or terminate times out; the signals escalate strictly |
| AudioEngine.CheckOutput | src/core/audio_engine.py:370-382 | the WAV path is returned exactly when it is set and the file exists with non-zero size; otherwise `FFmpegRuntimeError` (missing or empty) |
| AudioEngine.Engine.Stop | src/core/audio_engine.py:353-382 | the signal log grows by `StopSignals`, the process is left exited, and the result is the output check |
| Config.Defaults | src/config.py:11-17 | language `pt_BR`, `first_run` true, and the two ids and the output folder `None` |
| Config.Overlay | src/config.py:20-27 | the file's keys replace the current values, other keys keep theirs, and a missing or broken file changes nothing |
| Config.LoadedSettings | src/config.py:10-27 | after construction a key reads as the file's value when the file has it, else as its default |
| Config.AppConfig.constructor | src/config.py:10-18 | the defaults overlaid by the file |
| Config.AppConfig.Load | src/config.py:20-27 | `update` of the settings by the file, nothing on error |
| Config.AppConfig.Save | src/config.py:29-38 | the whole map is written; a failure is swallowed and leaves the file as it was |
| Config.AppConfig.Get | src/config.py:40-41 | an absent key reads as `None` |
| Config.AppConfig.Set | src/config.py:43-45 | afterwards `get(k)` is the new value, every other key is unchanged, and the map has been saved (the memory update survives a failed save) |
| Config.TextOr | src/ui/settings_window.py:291-295 | a non-empty string setting is shown; a falsy one gives the default |
| PlatformProbe.WindowsIsNotLinux | src/platform_utils.py:9-14 | `is_windows` (exactly "win32") and `is_linux` (prefix "linux") never both hold |
| PlatformProbe.NoWindowFlags | src/platform_utils.py:17-20 | the flag is non-zero exactly on Windows with `CREATE_NO_WINDOW`, and then it is that constant |
| PlatformProbe.DefaultRecordingsDir | src/platform_utils.py:23-28 | the folder lies under home, is named `Synthotic_Recordings`, and is inside `Documents` exactly when that directory exists; its length pins it to `~/Documents/Synthotic_Recordings` or `~/Synthotic_Recordings` |
| PlatformProbe.Candidates | src/platform_utils.py:35-46 | the bundled `bin/` binary comes first; the `_MEIPASS` one is second and present exactly when frozen; the name is `ffmpeg.exe` on Windows, `ffmpeg` elsewhere |
| PlatformProbe.FirstFile | src/platform_utils.py:48-50 | the first candidate that is a file, with no earlier candidate a file; none exactly when no candidate exists |
| PlatformProbe.PathFallback | src/platform_utils.py:52-57 | on Windows `ffmpeg.exe` is asked for before `ffmpeg`; elsewhere only `ffmpeg` |
| PlatformProbe.FfmpegBinaryOrder | src/platform_utils.py:31-57 | the bundled binary wins; the frozen copy is used only when the bundled one is missing; PATH is consulted only when no candidate exists |
| PlatformProbe.FindFfmpegBinary | src/platform_utils.py:31-57 | the append-then-loop search returns `FfmpegBinary` |
| PlatformProbe.TriedInOrder | src/platform_utils.py:101-107 | trying the tools succeeds exactly when one is on PATH and spawns; that one is the last tried; every earlier attempt was installed and failed; only installed tools are tried |
| PlatformProbe.TryTools | src/platform_utils.py:101-107 | the loop with `continue` returns that success and tries exactly those tools |
| PlatformProbe.AudioSettingsOutcome | src/platform_utils.py:79-109 | Windows reports whether the shell call raised; Linux succeeds exactly when one of its five tools spawns; other platforms return false and try nothing |
| PlatformProbe.OpenAudioSettings | src/platform_utils.py:79-109 | the method returns `AudioSettingsOpened` and logs the tools tried |
| DiagnoseMic.ListFfmpegDevices | utils/diagnose_mic.py:31-77 | the diagnostic-dialect records of the output's lines; `[]` when the run raises |
| DiagnoseMic.DiagnosticRecordShape | utils/diagnose_mic.py:53-69 | a diagnostic record is never video-only; it is audio iff its line has `(audio)`, else video_audio; its alternative name is the next line's value or `(None)` |
| DiagnoseMic.NoVideoDevices | utils/diagnose_mic.py:50-73 | no listed device is video-only |
| DiagnoseMic.DialectsAgree | utils/diagnose_mic.py:53-69 | every line the script lists, the engine lists too, with the same friendly name; with the same type unless the line has `(video)` but not `(audio)`; and with the same alternative name when the next line carries one |
| DiagnoseMic.GuidStatus | utils/diagnose_mic.py:130-138 | an unset id reports nothing; a set id is FOUND exactly when some listed alternative name equals it |
| DiagnoseMic.Diagnose | utils/diagnose_mic.py:87-145 | stops without ffmpeg; an unreadable config file ends the script; otherwise it validates both stored ids against the listing and warns exactly when the microphone id is set but not found |
| SettingsWindow.DropdownValues | src/ui/settings_window.py:312-319 | the auto-detect label, then the friendly names of the filtered audio devices, one entry per device |
| SettingsWindow.DropdownValuesAppend | src/ui/settings_window.py:312-319 | listing order carries over to the dropdown: extending the listing appends the new audio names after the existing entries |
| SettingsWindow.DropdownListed | src/ui/settings_window.py:312-319 | an entry is offered exactly when it is the auto-detect label or an audio device's name |
| SettingsWindow.RestoredSelection | src/ui/settings_window.py:326-357 | a non-auto selection still offered is kept; otherwise the name of the first audio device carrying the stored id; auto-detect when no id is stored or none carries it |
| SettingsWindow.RestoredOffered | src/ui/settings_window.py:315-357 | a restored selection is always one of the dropdown entries |
| SettingsWindow.RestoreSelection | src/ui/settings_window.py:326-357 | the `found`-flag loop computes `Restored` |
| SettingsWindow.StoredFolder | src/ui/settings_window.py:377-382 | the folder is stored unless it is empty or `BASE_DIR`, which store `None` |
| SettingsWindow.StoredGuid | src/ui/settings_window.py:394-410 | an empty or auto selection stores `None`; a named one stores the first matching entry's alternative name; an unknown name leaves the key untouched |
| SettingsWindow.SaveDevice | src/ui/settings_window.py:394-401 | one dropdown's save changes only its key, as `StoredGuid` says |
| SettingsWindow.SavedSettingsSpec | src/ui/settings_window.py:375-410 | after saving: the folder rule, the chosen language, each id cleared, replaced or left as `StoredGuid` says, and no other key changed |
| SettingsWindow.AutoSelectionAfterLanguageChange | src/ui/settings_window.py:384-401 | as written, switching from Portuguese to English and saving an auto selection keeps the old loopback id; the corrected save clears it |
| SettingsWindow.SavedAsWrittenAgreesOffLabels | src/ui/settings_window.py:384-410 | the code as written and the corrected save differ only through the auto-detect labels: when neither selection is one of them, both saves give the same settings whichever label the dropdowns showed |
| SettingsWindow.SavedLoopbackReachesEngine | src/ui/settings_window.py:394-399 | a saved non-empty id is what the engine's discovery returns next, whatever the device table |
| SettingsWindow.AutoLoopbackLeavesHeuristic | src/ui/settings_window.py:400-401 | an auto-detect loopback clears the id, so the engine's heuristic decides |
| SettingsWindow.SettingsDialog.constructor | src/ui/settings_window.py:289-295 | the fields start from the stored folder or `BASE_DIR` and the stored language or `pt_BR` |
| SettingsWindow.SettingsDialog.RefreshDevices | src/ui/settings_window.py:300-357 | the dropdowns are refilled, each selection is restored by `Restored`, and both end up among the entries |
| SettingsWindow.SettingsDialog.OnSave | src/ui/settings_window.py:375-410 | the configuration becomes `SavedSettings` of the old one and has been saved; when the stored language is the chosen one and the dropdowns show its label (as the constructor and `RefreshDevices` leave them), this is also `SavedAsWritten`, the code as written |
| OnboardingWizard.PageValid | src/ui/onboarding_wizard.py:579-597 | the folder page fails exactly when the folder is empty, the devices page exactly when a selection is empty; every other page passes |
| OnboardingWizard.WalkInRange | src/ui/onboarding_wizard.py:599-610 | any run of Next and Back keeps the page in `[0, 3]`, and `n` presses move it at most `n` pages |
| OnboardingWizard.InvalidPageBlocksNext | src/ui/onboarding_wizard.py:599-601 | Next on a page that fails its check never moves |
| OnboardingWizard.Wizard.GoNext | src/ui/onboarding_wizard.py:599-605 | the page advances by one exactly when it validates and is not the last; the button state stays consistent |
| OnboardingWizard.Wizard.GoBack | src/ui/onboarding_wizard.py:607-610 | the page goes back by one only above 0 |
| OnboardingWizard.Wizard.ShowPage | src/ui/onboarding_wizard.py:512-534 | Back is enabled exactly above page 0; the last page turns Next into finish |
| OnboardingWizard.Wizard.constructor | src/ui/onboarding_wizard.py:31-47 | the wizard starts on page 0 with the default folder, empty selections, the stored language or `pt_BR` |
| OnboardingWizard.Preselect | src/ui/onboarding_wizard.py:452-459 | with no audio device nothing changes; an empty loopback takes the first name, an empty microphone the second name if there is one, else the first; set selections stay |
| OnboardingWizard.PreselectValidates | src/ui/onboarding_wizard.py:452-459 | after preselecting from non-empty names the devices page validates |
| OnboardingWizard.EngineNamesNonEmpty | src/ui/onboarding_wizard.py:448-449 | the names offered from an engine listing are never empty |
| OnboardingWizard.Wizard.RefreshDevices | src/ui/onboarding_wizard.py:442-463 | the entries are the audio names and the selections are `Preselect` of the old ones |
| OnboardingWizard.FinishedSpec | src/ui/onboarding_wizard.py:612-641 | `first_run` becomes false, the language is stored, the folder only if it differs from `BASE_DIR`, each id is the first matching entry's alternative name or left as it was, and nothing else changes |
| OnboardingWizard.StoreDeviceId | src/ui/onboarding_wizard.py:623-631 | one loop with `break` stores the first matching entry's id or changes nothing |
| OnboardingWizard.EngineAltNamesNonEmpty | src/core/audio_engine.py:96-100 | every entry of an engine listing has a non-empty alternative name |
| OnboardingWizard.WizardLoopbackReachesEngine | src/ui/onboarding_wizard.py:623-626 | a loopback chosen from an engine listing is stored as an id that the engine's discovery then uses verbatim |
| OnboardingWizard.Wizard.FinishWizard | src/ui/onboarding_wizard.py:612-641 | nothing happens unless the page validates; otherwise the configuration becomes `Finished` of the old one, is saved, and the wizard closes |

## Left out

- Running ffmpeg, `Popen`, `communicate` and `wait` with their timeouts, and `time.sleep(0.5)`: these become the spawn, quit and output oracles. No timing is modelled.
- `sounddevice.query_devices`, `os.path.isfile`, `getsize`, `makedirs` and reading JSON files: these become inputs. A `makedirs` that raises in `start` or in the settings screens is not modelled.
- Python's Unicode `lower()`: the model lowercases ASCII letters only. The accented loopback keywords are kept as written, so an upper-case accented letter in a device name is not folded.
- A `config.json` that parses to something other than an object (an array, a number, `null`) counts as `Unreadable`. Floating-point and nested JSON values are not part of `Value`.
- DiagnoseMic.Diagnose: a config.json that parses to a falsy non-object (`null`, `[]`, `0`, `false`, `""`) makes the script report that there is no config and carry on without ids; the model treats it as unreadable and ends the script instead.
- Config.AppConfig.Load: a config.json holding a list of key-value pairs is applied by `dict.update` in the source; the model treats it as unreadable and leaves the settings unchanged.
- `Config.TextOr`: a truthy stored value that is not a string is shown through Tk's string conversion in the source; the model shows the default instead.
- `os.path.join` is plain concatenation with `/`. The model does not cover absolute second arguments, a trailing separator, or `resolve()` and `expanduser` normalisation.
- The two `_resolve_device_name` calls in one `start` each run the listing again. The model gives both the same listing text.
- `open_path`, logging, message boxes, tray and main-window code, the transcriber, the ffmpeg downloader and the start-up lock file: none of them is part of the capture core.
- The widgets of the settings dialog and the wizard: labels, colours, hover effects, the confirmation summary, the background thread that runs `refresh_devices`, and `on_cancel`.
- The wizard's own `AudioEngine()` construction, which raises without ffmpeg: the wizard receives the listing as an input instead.
- In `refresh_devices` of the settings dialog and of the onboarding wizard (src/ui/onboarding_wizard.py:462-463), the `except` branch, which only shows the error in a status label, is not modelled. `get_ffmpeg_devices` already catches its own errors, so nothing in the modelled body raises.
- Linux device enumeration and monitor-source capture do not exist in the code, which only speaks DirectShow.

## Findings

| source | as written | input that shows it | evidently intended | confidence | as-written member | corrected member |
|---|---|---|---|---|---|---|
| src/ui/settings_window.py:384-401 | `on_save` stores the new language, then fetches the auto-detect label, so the selections are compared with the label of the NEW language | stored loopback id `@device_cm_old`, language `pt_BR`; the user switches to `en_US` and leaves the loopback on "(Detecção Automática)"; no entry has that name, so the key is left as it was | an auto-detect selection clears the stored id whatever language is being saved | not executed; likely | SettingsWindow.SavedAsWritten (shown by SettingsWindow.AutoSelectionAfterLanguageChange) | SettingsWindow.SavedSettings (proved by SettingsWindow.SavedSettingsSpec, used by SettingsWindow.SettingsDialog.OnSave) |
