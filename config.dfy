/** The configuration dictionary of config.py: the default keys merged into
    what the file holds, and the per-sound settings (volume and hotkey) saved
    into and restored from its "sounds" entry. Reading and writing the JSON
    file is outside the model: the file's state and the outcome of
    `save_config` are parameters. */
module Configuration {
  import opened Common
  import opened SoundRecord

  /** A JSON value as `json.load` returns it. */
  datatype Json =
    | JNull
    | JBool(b: bool)
    | JNum(n: real)
    | JStr(s: string)
    | JArr(items: seq<Json>)
    | JObj(fields: map<string, Json>)

  /** The configuration object shared by the app, the sound manager and the
      settings window. */
  class Config {
    var entries: map<string, Json>

    constructor (entries: map<string, Json>)
      ensures this.entries == entries
    {
      this.entries := entries;
    }
  }

  /** `DEFAULT_CONFIG`, in its declaration order. */
  const DefaultKeys: seq<string> :=
    ["mic", "out", "headphone_out", "mic_volume", "headphone_volume", "monitor_enabled", "sounds"]

  const DefaultConfig: map<string, Json> := map[
    "mic" := JNull,
    "out" := JNull,
    "headphone_out" := JNull,
    "mic_volume" := JNum(1.0),
    "headphone_volume" := JNum(1.0),
    "monitor_enabled" := JBool(true),
    "sounds" := JObj(map[])]

  /** The key list names exactly the default keys. */
  lemma DefaultKeysCover()
    ensures forall k :: k in DefaultConfig <==> k in DefaultKeys
  {
  }

  /** What the program finds at `CONFIG_FILE`: nothing, a file `json.load`
      cannot read, or the JSON value it parsed. */
  datatype ConfigFile = Missing | Unreadable | Parsed(value: Json)

  /** `data` with every key of `defaults` it lacks added. */
  function Merge(data: map<string, Json>, defaults: map<string, Json>): (r: map<string, Json>)
    ensures r.Keys == data.Keys + defaults.Keys
    ensures forall k :: k in data ==> r[k] == data[k]
    ensures forall k :: k in defaults && k !in data ==> r[k] == defaults[k]
  {
    map k | k in data.Keys + defaults.Keys :: if k in data then data[k] else defaults[k]
  }

  /** The configuration `load_config` returns for a file state, or `None`
      when `data.setdefault` raises because the file holds a JSON value that
      is not an object (the loop runs outside the `try`). */
  function LoadedConfig(file: ConfigFile): (r: Option<map<string, Json>>)
    ensures r.None? <==> file.Parsed? && !file.value.JObj?
  {
    match file
    case Parsed(JObj(data)) => Some(Merge(data, DefaultConfig))
    case Parsed(_) => None
    case _ => Some(DefaultConfig)
  }

  /** After a load that returns, every default key is present; keys the file holds
      keep the file's values; a missing or unreadable file gives the
      defaults. */
  lemma LoadedConfigKeys(file: ConfigFile)
    ensures LoadedConfig(file).Some? ==> DefaultConfig.Keys <= LoadedConfig(file).value.Keys
    ensures file.Parsed? && file.value.JObj? ==>
      forall k :: k in file.value.fields ==> LoadedConfig(file).value[k] == file.value.fields[k]
    ensures !file.Parsed? ==> LoadedConfig(file) == Some(DefaultConfig)
  {
  }

  /** Loading a file that was saved from a loaded configuration gives that
      configuration back: merging twice changes nothing. */
  lemma MergeIdempotent(data: map<string, Json>, defaults: map<string, Json>)
    ensures Merge(Merge(data, defaults), defaults) == Merge(data, defaults)
  {
  }

  /** The `setdefault` loop: each listed key the dictionary lacks is added
      with its default value. */
  method SetDefaults(data: map<string, Json>, defaults: map<string, Json>, keys: seq<string>)
    returns (r: map<string, Json>)
    requires forall k :: k in defaults <==> k in keys
    ensures r == Merge(data, defaults)
  {
    r := data;
    var i := 0;
    while i < |keys|
      invariant 0 <= i <= |keys|
      invariant forall j :: 0 <= j < i ==> keys[j] in r
      invariant forall k :: k in r ==> k in data || k in defaults
      invariant forall k :: k in data ==> k in r && r[k] == data[k]
      invariant forall k :: k in r && k !in data ==> r[k] == defaults[k]
    {
      var k := keys[i];
      if k !in r {
        r := r[k := defaults[k]];
      }
      i := i + 1;
    }
    forall k | k in defaults ensures k in r {
      var j :| 0 <= j < |keys| && keys[j] == k;
    }
    SameMap(r, Merge(data, defaults));
  }

  /** `load_config`: the defaults when the file is missing or unreadable,
      otherwise the file's dictionary completed with the default keys; `None`
      when the parsed value is not a dictionary and `setdefault` raises. */
  method LoadConfig(file: ConfigFile) returns (c: Option<Config>)
    ensures c.None? <==> file.Parsed? && !file.value.JObj?
    ensures c.Some? ==> fresh(c.value) && LoadedConfig(file) == Some(c.value.entries)
  {
    if !file.Parsed? {
      var d := new Config(DefaultConfig);
      return Some(d);
    }
    if !file.value.JObj? {
      return None;
    }
    DefaultKeysCover();
    var data := SetDefaults(file.value.fields, DefaultConfig, DefaultKeys);
    var d := new Config(data);
    c := Some(d);
  }

  /** What is saved for one sound. */
  datatype Setting = Setting(volume: real, hotkey: Option<string>)

  /** The settings of the named sounds, read out of their records. */
  function SettingsOf(sounds: map<string, Sound>): (r: map<string, Setting>)
    reads sounds.Values`volume, sounds.Values`hotkey
    ensures r.Keys == sounds.Keys
    ensures forall n :: n in sounds ==> r[n] == Setting(sounds[n].volume, sounds[n].hotkey)
  {
    map n | n in sounds :: Setting(sounds[n].volume, sounds[n].hotkey)
  }

  function HotkeyJson(h: Option<string>): Json
  {
    if h.None? then JNull else JStr(h.value)
  }

  /** The entry `{"volume": …, "hotkey": …}` of one sound. */
  function SettingJson(st: Setting): Json
  {
    JObj(map["volume" := JNum(st.volume), "hotkey" := HotkeyJson(st.hotkey)])
  }

  /** The "sounds" entry `save_sound_settings` writes: one entry per sound. */
  function SavedSounds(settings: map<string, Setting>): (r: map<string, Json>)
    ensures r.Keys == settings.Keys
    ensures forall n :: n in settings ==> r[n] == SettingJson(settings[n])
  {
    map n | n in settings :: SettingJson(settings[n])
  }

  /** `config.get("sounds", {})` as a dictionary. */
  function SavedMap(entries: map<string, Json>): (r: map<string, Json>)
    ensures "sounds" !in entries ==> r == map[]
    ensures "sounds" in entries && entries["sounds"].JObj? ==> r == entries["sounds"].fields
  {
    if "sounds" in entries && entries["sounds"].JObj? then entries["sounds"].fields else map[]
  }

  /** `saved[name].get("volume", 1.0)`. */
  function SavedVolume(entry: map<string, Json>): (v: real)
    requires "volume" in entry ==> entry["volume"].JNum?
    ensures "volume" !in entry ==> v == 1.0
    ensures "volume" in entry ==> entry["volume"] == JNum(v)
  {
    if "volume" in entry then entry["volume"].n else 1.0
  }

  /** `saved[name].get("hotkey", None)`. */
  function SavedHotkey(entry: map<string, Json>): (h: Option<string>)
    requires "hotkey" in entry ==> entry["hotkey"].JNull? || entry["hotkey"].JStr?
    ensures h.None? <==> "hotkey" !in entry || entry["hotkey"].JNull?
    ensures h.Some? ==> entry["hotkey"] == JStr(h.value)
  {
    if "hotkey" in entry && entry["hotkey"].JStr? then Some(entry["hotkey"].s) else None
  }

  /** The saved entries the model accepts: "sounds" is absent, or a dictionary
      whose entries are dictionaries with a numeric volume and a string or
      null hotkey. */
  predicate WellTyped(entries: map<string, Json>)
  {
    && ("sounds" in entries ==> entries["sounds"].JObj?)
    && forall n :: n in SavedMap(entries) ==> SavedEntryTyped(SavedMap(entries)[n])
  }

  /** One saved entry: a dictionary with a numeric volume and a string or null
      hotkey, each optional. */
  predicate SavedEntryTyped(j: Json)
  {
    && j.JObj?
    && ("volume" in j.fields ==> j.fields["volume"].JNum?)
    && ("hotkey" in j.fields ==> j.fields["hotkey"].JNull? || j.fields["hotkey"].JStr?)
  }

  /** The saved settings as `load_sound_settings` reads them: the volume
      defaults to 1.0 and the hotkey to `None`. */
  function SavedSettings(entries: map<string, Json>): (r: map<string, Setting>)
    requires WellTyped(entries)
    ensures r.Keys == SavedMap(entries).Keys
  {
    var saved := SavedMap(entries);
    map n | n in saved :: Setting(SavedVolume(saved[n].fields), SavedHotkey(saved[n].fields))
  }

  /** The settings after `load_sound_settings`: a saved name takes the saved
      values, every other sound keeps its own. */
  function AppliedSettings(entries: map<string, Json>, settings: map<string, Setting>): (r: map<string, Setting>)
    requires WellTyped(entries)
    ensures r.Keys == settings.Keys
    ensures forall n :: n in settings && n !in SavedMap(entries) ==> r[n] == settings[n]
  {
    var saved := SavedSettings(entries);
    map n | n in settings :: if n in saved then saved[n] else settings[n]
  }

  /** The round trip: loading right after saving gives every sound back its
      own volume and hotkey. */
  lemma LoadAfterSave(entries: map<string, Json>, settings: map<string, Setting>)
    ensures WellTyped(entries["sounds" := JObj(SavedSounds(settings))])
    ensures AppliedSettings(entries["sounds" := JObj(SavedSounds(settings))], settings) == settings
  {
    SavedSettingsOfSaved(entries["sounds" := JObj(SavedSounds(settings))], settings);
  }

  /** Reading back the entries written for `settings` gives `settings`. */
  lemma SavedSettingsOfSaved(e: map<string, Json>, settings: map<string, Setting>)
    requires "sounds" in e && e["sounds"] == JObj(SavedSounds(settings))
    ensures WellTyped(e) && SavedSettings(e) == settings
  {
    assert SavedMap(e) == SavedSounds(settings);
    var r := SavedSettings(e);
    forall n | n in settings ensures r[n] == settings[n] {
      var f := SavedSounds(settings)[n].fields;
      assert SavedVolume(f) == settings[n].volume;
      assert SavedHotkey(f) == settings[n].hotkey;
    }
    SameMap(r, settings);
  }

  /** The loop of `save_sound_settings` that builds the new "sounds" entry,
      one entry per name. */
  method SavedEntries(settings: map<string, Setting>, names: seq<string>) returns (saved: map<string, Json>)
    requires forall n :: n in names <==> n in settings
    ensures saved == SavedSounds(settings)
  {
    saved := map[];
    var i := 0;
    while i < |names|
      invariant 0 <= i <= |names|
      invariant forall j :: 0 <= j < i ==> names[j] in saved
      invariant forall n :: n in saved ==> n in settings && saved[n] == SettingJson(settings[n])
    {
      saved := saved[names[i] := SettingJson(settings[names[i]])];
      i := i + 1;
    }
    forall n | n in settings ensures n in saved {
      var j :| 0 <= j < |names| && names[j] == n;
    }
    SameMap(saved, SavedSounds(settings));
  }

  /** `save_sound_settings`: "sounds" is replaced by one entry per sound;
      the result is what `save_config` reports. */
  method SaveSoundSettings(config: Config, sounds: map<string, Sound>, names: seq<string>, saveOk: bool)
    returns (ok: bool)
    requires forall n :: n in names <==> n in sounds
    modifies config
    ensures config.entries == old(config.entries["sounds" := JObj(SavedSounds(SettingsOf(sounds)))])
    ensures ok == saveOk
  {
    var saved := SavedEntries(SettingsOf(sounds), names);
    config.entries := config.entries["sounds" := JObj(saved)];
    ok := saveOk;
  }

  lemma SameMap<K, V>(a: map<K, V>, b: map<K, V>)
    requires forall k :: k in a ==> k in b && a[k] == b[k]
    requires forall k :: k in b ==> k in a
    ensures a == b
  {
  }

  /** The fields of a record that loading the settings must not touch. */
  ghost function Untouched(s: Sound): (seq<real>, Option<seq<real>>, int, bool, Option<map<string, bool>>, Option<map<string, real>>)
    reads s
  {
    (s.data, s.originalData, s.pos, s.playing, s.effects, s.effectParams)
  }

  /** Sets the saved volume and hotkey of one record. */
  method ApplySetting(s: Sound, st: Setting)
    modifies s`volume, s`hotkey
    ensures s.volume == st.volume && s.hotkey == st.hotkey
  {
    s.volume := st.volume;
    s.hotkey := st.hotkey;
  }

  /** The loop of `load_sound_settings`: each record whose name is saved
      takes the saved setting. */
  method ApplySettings(sounds: map<string, Sound>, names: seq<string>, saved: map<string, Setting>)
    requires forall n :: n in names <==> n in sounds
    requires Distinct(sounds)
    modifies sounds.Values`volume, sounds.Values`hotkey
    ensures forall n :: n in sounds ==>
      Setting(sounds[n].volume, sounds[n].hotkey) == if n in saved then saved[n] else old(Setting(sounds[n].volume, sounds[n].hotkey))
  {
    ghost var done: set<string> := {};
    var i := 0;
    while i < |names|
      invariant 0 <= i <= |names|
      invariant forall j :: 0 <= j < i ==> names[j] in done
      invariant forall n :: n in sounds ==>
        Setting(sounds[n].volume, sounds[n].hotkey) ==
          if n in done && n in saved then saved[n] else old(Setting(sounds[n].volume, sounds[n].hotkey))
    {
      var name := names[i];
      if name in saved {
        ApplySetting(sounds[name], saved[name]);
      }
      done := done + {name};
      i := i + 1;
    }
    forall n | n in sounds ensures n in done {
      var j :| 0 <= j < |names| && names[j] == n;
    }
  }

  /** `load_sound_settings`: every sound whose name is saved takes the saved
      volume and hotkey; nothing else changes and no sound is added. */
  method LoadSoundSettings(config: Config, sounds: map<string, Sound>, names: seq<string>)
    requires forall n :: n in names <==> n in sounds
    requires Distinct(sounds)
    requires WellTyped(config.entries)
    modifies sounds.Values`volume, sounds.Values`hotkey
    ensures forall n :: n in sounds ==>
      Setting(sounds[n].volume, sounds[n].hotkey) == old(AppliedSettings(config.entries, SettingsOf(sounds)))[n]
    ensures forall n :: n in sounds ==> Untouched(sounds[n]) == old(Untouched(sounds[n]))
  {
    ApplySettings(sounds, names, SavedSettings(config.entries));
  }
}
