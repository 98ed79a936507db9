/** The key-value settings of the application (`AppConfig`): defaults,
    overlaid by `config.json` when it loads, changed one key at a time by
    `set`, which writes the whole map back to the file. */
module Config {
  import opened Base

  const LanguageKey := "language"
  const FirstRunKey := "first_run"
  const LoopbackKey := "loopback_device_guid"
  const MicKey := "mic_device_guid"
  const OutputFolderKey := "output_folder"

  /** What `config.json` holds as far as the program can tell: nothing, a
      file that cannot be read or parsed as a JSON object, or an object. */
  datatype ConfigFile = Missing | Unreadable | Json(entries: map<string, Value>)

  /** The settings before anything is loaded. */
  function Defaults(): (m: map<string, Value>)
    ensures m.Keys == {LanguageKey, FirstRunKey, LoopbackKey, MicKey, OutputFolderKey}
    ensures m[LanguageKey] == Str("pt_BR") && m[FirstRunKey] == Bool(true)
    ensures m[LoopbackKey] == Null && m[MicKey] == Null && m[OutputFolderKey] == Null
  {
    map[LanguageKey := Str("pt_BR"), FirstRunKey := Bool(true),
        LoopbackKey := Null, MicKey := Null, OutputFolderKey := Null]
  }

  /** `settings.update(data)` when the file parses, no change otherwise. */
  function Overlay(settings: map<string, Value>, file: ConfigFile): (r: map<string, Value>)
    ensures file.Json? ==> r.Keys == settings.Keys + file.entries.Keys
    ensures !file.Json? ==> r == settings
    ensures forall k :: k in r ==>
              r[k] == if file.Json? && k in file.entries then file.entries[k] else settings[k]
  {
    if file.Json? then settings + file.entries else settings
  }

  /** Loading over the defaults: a key the file has takes the file's value,
      any other key keeps its default, and a missing or broken file leaves
      the defaults as they are. */
  lemma LoadedSettings(file: ConfigFile, key: string)
    ensures Lookup(Overlay(Defaults(), file), key) ==
              if file.Json? && key in file.entries then file.entries[key] else Lookup(Defaults(), key)
  {
  }

  /** `cfg.get(key) or default` for a text setting shown in a field; a
      truthy value that is not a string is read as the default. */
  function TextOr(v: Value, default: string): (r: string)
    ensures v.Str? && v.s != "" ==> r == v.s
    ensures !Truthy(v) ==> r == default
  {
    if v.Str? && v.s != "" then v.s else default
  }

  class AppConfig {
    /** `self.settings`. */
    var settings: map<string, Value>
    /** The content of `config.json` on disk. */
    var file: ConfigFile
    /** Whether `BASE_DIR` can be created and `config.json` written. */
    const writable: bool

    /** `AppConfig()`: the defaults, then `load()`. */
    constructor (onDisk: ConfigFile, canWrite: bool)
      ensures file == onDisk && writable == canWrite
      ensures settings == Overlay(Defaults(), onDisk)
    {
      settings := Defaults();
      file := onDisk;
      writable := canWrite;
      new;
      Load();
    }

    /** `load()`: overlay the file's keys; a read or parse error is logged
        and changes nothing. */
    method Load()
      modifies this`settings
      ensures settings == Overlay(old(settings), file)
    {
      if file.Json? {
        settings := settings + file.entries;
      }
    }

    /** `save()`: write the whole map; a failure is logged and swallowed. */
    method Save()
      modifies this`file
      ensures file == if writable then Json(settings) else old(file)
    {
      if writable {
        file := Json(settings);
      }
    }

    /** `get(key)`: `None` for an absent key. */
    function Get(key: string): (v: Value)
      reads this
      ensures key !in settings ==> v == Null
      ensures key in settings ==> v == settings[key]
    {
      Lookup(settings, key)
    }

    /** `set(key, value)`: change one key, then save. The change in memory
        survives a failed save. */
    method Set(key: string, value: Value)
      modifies this`settings, this`file
      ensures settings == old(settings)[key := value]
      ensures Get(key) == value
      ensures forall k :: k != key ==> Lookup(settings, k) == Lookup(old(settings), k)
      ensures file == if writable then Json(settings) else old(file)
    {
      settings := settings[key := value];
      Save();
    }
  }
}
