/** The sound registry of sound_manager.py: the `sounds` dictionary of sound
    records, the `registered_hotkeys` dictionary (hotkey string to sound
    name) and the shared configuration. The keyboard library, the decoder
    and the file system are outside the model: whether a call to them
    succeeds is a parameter. */
module SoundManager {
  import opened Common
  import opened SoundRecord
  import opened Configuration
  import opened Effects

  /** `SUPPORTED_EXTS`. */
  const SupportedExts: seq<string> := [".wav", ".mp3", ".ogg", ".flac"]

  /** `file.lower().endswith(SUPPORTED_EXTS)`. */
  predicate IsSupportedFile(file: string)
    ensures IsSupportedFile(file) ==> |file| >= 4
  {
    exists k :: 0 <= k < |SupportedExts| && EndsWith(Lower(file), SupportedExts[k])
  }

  /** `x / p` elementwise. */
  function Divide(x: seq<real>, p: real): (r: seq<real>)
    requires p != 0.0
    ensures |r| == |x|
    ensures forall i :: 0 <= i < |x| ==> r[i] == x[i] / p
  {
    seq(|x|, i requires 0 <= i < |x| => x[i] / p)
  }

  /** The samples `load_sounds` keeps for a decoded file: divided by their
      peak when it is positive; `None` for an empty buffer, where `np.max`
      raises and the file is skipped. */
  function LoadedSamples(decoded: seq<real>): (r: Option<seq<real>>)
    ensures r.Some? <==> |decoded| > 0
    ensures r.Some? ==> |r.value| == |decoded|
  {
    if |decoded| == 0 then None
    else
      var p := Peak(decoded);
      if p > 0.0 then Some(Divide(decoded, p)) else Some(decoded)
  }

  /** A loaded sound that is not silent has peak magnitude exactly 1; a
      silent one is kept as decoded. */
  lemma LoadedPeak(decoded: seq<real>)
    requires |decoded| > 0
    ensures Peak(decoded) > 0.0 ==> Peak(LoadedSamples(decoded).value) == 1.0
    ensures Peak(decoded) == 0.0 ==> LoadedSamples(decoded).value == decoded
  {
    var p := Peak(decoded);
    if p > 0.0 {
      PeakIsMax(decoded);
      DivideIsScale(decoded, p);
      ScaleToPeak(decoded, p, 1.0);
    }
  }

  lemma DivideIsScale(x: seq<real>, p: real)
    requires p != 0.0
    ensures Divide(x, p) == Scale(x, 1.0 / p)
  {
    forall i | 0 <= i < |x| ensures Divide(x, p)[i] == Scale(x, 1.0 / p)[i] {
      DivIsMulInverse(x[i], p);
    }
  }

  lemma DivIsMulInverse(a: real, p: real)
    requires p != 0.0
    ensures a / p == a * (1.0 / p)
  {
  }

  /** `order` without `name`. */
  function Without(order: seq<string>, name: string): (r: seq<string>)
    ensures forall n :: n in r <==> n in order && n != name
  {
    if order == [] then []
    else if order[0] == name then Without(order[1..], name)
    else [order[0]] + Without(order[1..], name)
  }

  /** The registry after `remove_hotkey` found hotkey `h` on the sound: the
      entry goes only when the hotkey is set, registered, and the keyboard
      library removed it. */
  function AfterRemove(reg: map<string, string>, h: Option<string>, removeOk: bool): (r: map<string, string>)
    ensures r.Keys <= reg.Keys
    ensures forall k :: k in r ==> r[k] == reg[k]
    ensures HotkeySet(h) && h.value in reg && removeOk ==> h.value !in r
    ensures forall k :: k in reg && !(HotkeySet(h) && k == h.value) ==> k in r
  {
    if HotkeySet(h) && h.value in reg && removeOk then reg - {h.value} else reg
  }

  /** The registry after `set_hotkey` for a known sound whose hotkey was
      `prev`: the old entry is removed first when the hotkey is set, then a
      non-blank string the keyboard library accepts is registered. */
  function HotkeyRegistry(reg: map<string, string>, prev: Option<string>, hotkey: string, name: string,
                          addOk: bool, removeOk: bool): (r: map<string, string>)
    ensures !IsBlank(hotkey) && addOk ==> hotkey in r && r[hotkey] == name
    ensures forall k :: k in r && !(k == hotkey && !IsBlank(hotkey) && addOk) ==> k in reg && r[k] == reg[k]
    ensures forall k :: k in reg && !(HotkeySet(prev) && k == prev.value) && !(k == hotkey && !IsBlank(hotkey) && addOk) ==>
      k in r && r[k] == reg[k]
  {
    var cleared := if HotkeySet(prev) then AfterRemove(reg, prev, removeOk) else reg;
    if !IsBlank(hotkey) && addOk then cleared[hotkey := name] else cleared
  }

  /** The configuration after `save_all_settings`: the sound settings are
      written only when a non-empty configuration is set. */
  function SavedConfig(entries: map<string, Json>, settings: map<string, Setting>): (r: map<string, Json>)
    ensures |entries| == 0 ==> r == entries
    ensures |entries| > 0 ==> r.Keys == entries.Keys + {"sounds"} && r["sounds"] == JObj(SavedSounds(settings))
    ensures forall k :: k in entries && k != "sounds" ==> r[k] == entries[k]
  {
    if |entries| > 0 then entries["sounds" := JObj(SavedSounds(settings))] else entries
  }

  class SoundBoard {
    /** `sounds`: file name to record. */
    var sounds: map<string, Sound>
    /** The dictionary's iteration order. */
    var order: seq<string>
    /** `registered_hotkeys`: hotkey string to sound name. */
    var registered: map<string, string>
    /** `config`, set by `set_config`; `null` until then. */
    var config: Config?

    /** Every listed name has a record and every record is listed; no two
        names share a record; every position lies within its samples. */
    ghost predicate Valid()
      reads this`sounds, this`order, sounds.Values`pos, sounds.Values`data
    {
      && (forall n :: n in order <==> n in sounds)
      && Distinct(sounds)
      && (forall n :: n in sounds ==> sounds[n].PosInRange())
    }

    constructor ()
      ensures sounds == map[] && order == [] && registered == map[] && config == null
      ensures Valid()
    {
      sounds := map[];
      order := [];
      registered := map[];
      config := null;
    }

    /** One file of the `load_sounds` loop. A supported file that decodes
        (`decoded` is `None` when the decoder raises) to a non-empty buffer
        gets a fresh record holding its peak-normalised samples; any other
        file is skipped. */
    method LoadFile(file: string, decoded: Option<seq<real>>)
      requires Valid()
      modifies this`sounds, this`order
      ensures Valid()
      ensures IsSupportedFile(file) && decoded.Some? && |decoded.value| > 0 ==>
        && file in sounds && fresh(sounds[file])
        && sounds[file].data == LoadedSamples(decoded.value).value
        && sounds[file].pos == 0 && !sounds[file].playing && sounds[file].volume == 1.0
        && sounds[file].hotkey == None && sounds[file].originalData == None
        && sounds[file].effects == None && sounds[file].effectParams == None
        && sounds == old(sounds)[file := sounds[file]]
        && order == if file in old(sounds) then old(order) else old(order) + [file]
      ensures !(IsSupportedFile(file) && decoded.Some? && |decoded.value| > 0) ==>
        sounds == old(sounds) && order == old(order)
    {
      if !IsSupportedFile(file) || decoded.None? {
        return;
      }
      var samples := LoadedSamples(decoded.value);
      if samples.None? {
        return;
      }
      var rec := new Sound(samples.value);
      if file !in sounds {
        order := order + [file];
      }
      sounds := sounds[file := rec];
    }

    /** `set_config`. */
    method SetConfig(cfg: Config?)
      modifies this`config
      ensures config == cfg
    {
      config := cfg;
    }

    /** `toggle_sound`: the named sound's `playing` flips and it restarts;
        an unknown name changes nothing. */
    method ToggleSound(name: string)
      requires Valid()
      modifies sounds.Values`playing, sounds.Values`pos
      ensures Valid()
      ensures name in sounds ==> sounds[name].playing == !old(sounds[name].playing) && sounds[name].pos == 0
      ensures forall n :: n in sounds && n != name ==>
        sounds[n].playing == old(sounds[n].playing) && sounds[n].pos == old(sounds[n].pos)
    {
      if name in sounds {
        var s := sounds[name];
        s.playing := !s.playing;
        s.pos := 0;
      }
    }

    /** Toggling twice restores `playing` and leaves the sound at its start. */
    method ToggleTwice(name: string)
      requires Valid()
      modifies sounds.Values`playing, sounds.Values`pos
      ensures Valid()
      ensures name in sounds ==> sounds[name].playing == old(sounds[name].playing) && sounds[name].pos == 0
    {
      ToggleSound(name);
      ToggleSound(name);
    }

    /** `stop_all_sounds`: every sound is stopped and rewound; the frame
        leaves every other field as it was. */
    method StopAllSounds()
      requires Valid()
      modifies sounds.Values`playing, sounds.Values`pos
      ensures Valid()
      ensures forall n :: n in sounds ==> !sounds[n].playing && sounds[n].pos == 0
    {
      ghost var done: set<string> := {};
      var i := 0;
      while i < |order|
        invariant 0 <= i <= |order|
        invariant forall j :: 0 <= j < i ==> order[j] in done
        invariant forall n :: n in done ==> n in sounds && !sounds[n].playing && sounds[n].pos == 0
        invariant Valid()
      {
        Stop(sounds[order[i]]);
        done := done + {order[i]};
        i := i + 1;
      }
      forall n | n in sounds ensures n in done {
        var j :| 0 <= j < |order| && order[j] == n;
      }
    }

    /** `save_all_settings`: the sound settings go into the configuration when
        one is set and it is not empty; `saveOk` is what writing the file
        reports, which the caller ignores. */
    method SaveAllSettings(saveOk: bool)
      requires Valid()
      modifies config
      ensures Valid()
      ensures config != null ==> config.entries == old(SavedConfig(config.entries, SettingsOf(sounds)))
      ensures SettingsOf(sounds) == old(SettingsOf(sounds))
    {
      if config != null && |config.entries| > 0 {
        var _ := SaveSoundSettings(config, sounds, order, saveOk);
      }
    }

    /** `set_sound_volume`: only the named sound's volume changes, and the
        settings are saved; an unknown name changes nothing. */
    method SetSoundVolume(name: string, volume: real, saveOk: bool)
      requires Valid()
      modifies sounds.Values`volume, config
      ensures Valid()
      ensures name in sounds ==> sounds[name].volume == volume
      ensures forall n :: n in sounds && n != name ==> sounds[n].volume == old(sounds[n].volume)
      ensures name !in sounds && config != null ==> config.entries == old(config.entries)
      ensures name in sounds && config != null ==>
        config.entries == SavedConfig(old(config.entries), SettingsOf(sounds))
    {
      if name in sounds {
        sounds[name].volume := volume;
        SaveAllSettings(saveOk);
      }
    }

    /** The body of `remove_hotkey` for a known name: its registry entry
        goes when the keyboard library removes it, and its hotkey is
        cleared. */
    method ClearHotkey(name: string, removeOk: bool)
      requires name in sounds
      requires Valid()
      modifies {sounds[name]}`hotkey, this`registered
      ensures Valid()
      ensures sounds[name].hotkey == None
      ensures registered == AfterRemove(old(registered), old(sounds[name].hotkey), removeOk)
    {
      var s := sounds[name];
      var h := s.hotkey;
      if HotkeySet(h) && h.value in registered {
        if removeOk {
          registered := registered - {h.value};
        }
      }
      s.hotkey := None;
    }

    /** `remove_hotkey`: an unknown name changes nothing; otherwise the hotkey
        is cleared and, when `save` is set, the settings are saved. */
    method RemoveHotkey(name: string, save: bool, removeOk: bool, saveOk: bool)
      requires Valid()
      modifies sounds.Values`hotkey, this`registered, config
      ensures Valid()
      ensures name in sounds ==> sounds[name].hotkey == None
      ensures name in sounds ==> registered == AfterRemove(old(registered), old(sounds[name].hotkey), removeOk)
      ensures name !in sounds ==> registered == old(registered)
      ensures forall n :: n in sounds && n != name ==> sounds[n].hotkey == old(sounds[n].hotkey)
      ensures config != null && !(save && name in sounds) ==> config.entries == old(config.entries)
      ensures config != null && save && name in sounds ==>
        config.entries == SavedConfig(old(config.entries), SettingsOf(sounds))
    {
      if name in sounds {
        ClearHotkey(name, removeOk);
        if save {
          SaveAllSettings(saveOk);
        }
      }
    }

    /** The part of `set_hotkey` after the old hotkey is gone: a blank string
        clears the hotkey; any other string is stored and registered when the
        keyboard library accepts it. */
    method StoreHotkey(name: string, hotkey: string, addOk: bool) returns (ok: bool)
      requires name in sounds
      requires Valid()
      modifies {sounds[name]}`hotkey, this`registered
      ensures Valid()
      ensures IsBlank(hotkey) ==> ok && sounds[name].hotkey == None && registered == old(registered)
      ensures !IsBlank(hotkey) ==> ok == addOk
      ensures !IsBlank(hotkey) && addOk ==>
        sounds[name].hotkey == Some(hotkey) && registered == old(registered)[hotkey := name]
      ensures !IsBlank(hotkey) && !addOk ==>
        sounds[name].hotkey == old(sounds[name].hotkey) && registered == old(registered)
    {
      if IsBlank(hotkey) {
        sounds[name].hotkey := None;
        return true;
      }
      if !addOk {
        return false;
      }
      sounds[name].hotkey := Some(hotkey);
      registered := registered[hotkey := name];
      ok := true;
    }

    /** `set_hotkey`. An unknown name gives `false` and changes nothing. An
        old hotkey is removed first. A blank string clears the hotkey and
        gives `true`. Otherwise the string is stored and registered when the
        keyboard library accepts it (`addOk`), and the result says whether
        it did; after a refused string the sound has no hotkey when it had
        one, since the old one was already removed. */
    method SetHotkey(name: string, hotkey: string, save: bool, addOk: bool, removeOk: bool, saveOk: bool)
      returns (ok: bool)
      requires Valid()
      modifies sounds.Values`hotkey, this`registered, config
      ensures Valid()
      ensures name !in sounds ==> !ok && registered == old(registered)
      ensures name in sounds && IsBlank(hotkey) ==> ok && sounds[name].hotkey == None
      ensures name in sounds && !IsBlank(hotkey) ==> ok == addOk
      ensures name in sounds && !IsBlank(hotkey) && addOk ==> sounds[name].hotkey == Some(hotkey)
      ensures name in sounds && !IsBlank(hotkey) && !addOk ==>
        sounds[name].hotkey == if HotkeySet(old(sounds[name].hotkey)) then None else old(sounds[name].hotkey)
      ensures name in sounds ==>
        registered == HotkeyRegistry(old(registered), old(sounds[name].hotkey), hotkey, name, addOk, removeOk)
      ensures forall n :: n in sounds && n != name ==> sounds[n].hotkey == old(sounds[n].hotkey)
      ensures config != null && !(save && ok) ==> config.entries == old(config.entries)
      ensures config != null && save && ok ==>
        config.entries == SavedConfig(old(config.entries), SettingsOf(sounds))
    {
      if name !in sounds {
        return false;
      }
      ok := SetKnownHotkey(name, hotkey, save, addOk, removeOk, saveOk);
    }

    /** `set_hotkey` for a name that has a record. */
    method SetKnownHotkey(name: string, hotkey: string, save: bool, addOk: bool, removeOk: bool, saveOk: bool)
      returns (ok: bool)
      requires Valid() && name in sounds
      modifies sounds.Values`hotkey, this`registered, config
      ensures Valid()
      ensures IsBlank(hotkey) ==> ok && sounds[name].hotkey == None
      ensures !IsBlank(hotkey) ==> ok == addOk
      ensures !IsBlank(hotkey) && addOk ==> sounds[name].hotkey == Some(hotkey)
      ensures !IsBlank(hotkey) && !addOk ==>
        sounds[name].hotkey == if HotkeySet(old(sounds[name].hotkey)) then None else old(sounds[name].hotkey)
      ensures registered == HotkeyRegistry(old(registered), old(sounds[name].hotkey), hotkey, name, addOk, removeOk)
      ensures forall n :: n in sounds && n != name ==> sounds[n].hotkey == old(sounds[n].hotkey)
      ensures config != null && !(save && ok) ==> config.entries == old(config.entries)
      ensures config != null && save && ok ==>
        config.entries == SavedConfig(old(config.entries), SettingsOf(sounds))
    {
      ok := AssignHotkey(name, hotkey, addOk, removeOk);
      if save && ok {
        SaveAllSettings(saveOk);
      }
    }

    /** `set_hotkey` up to saving: the old hotkey is removed when set, then
        the new one is stored. */
    method AssignHotkey(name: string, hotkey: string, addOk: bool, removeOk: bool) returns (ok: bool)
      requires Valid() && name in sounds
      modifies {sounds[name]}`hotkey, this`registered
      ensures IsBlank(hotkey) ==> ok && sounds[name].hotkey == None
      ensures !IsBlank(hotkey) ==> ok == addOk
      ensures !IsBlank(hotkey) && addOk ==> sounds[name].hotkey == Some(hotkey)
      ensures !IsBlank(hotkey) && !addOk ==>
        sounds[name].hotkey == if HotkeySet(old(sounds[name].hotkey)) then None else old(sounds[name].hotkey)
      ensures registered == HotkeyRegistry(old(registered), old(sounds[name].hotkey), hotkey, name, addOk, removeOk)
    {
      if HotkeySet(sounds[name].hotkey) {
        ClearHotkey(name, removeOk);
      }
      ok := StoreHotkey(name, hotkey, addOk);
    }

    /** `clear_all_hotkeys`: the registry empties when the keyboard library
        unhooks everything, and is kept otherwise. */
    method ClearAllHotkeys(unhookOk: bool)
      modifies this`registered
      ensures registered == if unhookOk then map[] else old(registered)
    {
      if unhookOk {
        registered := map[];
      }
    }

    /** `delete_sound`: the hotkey is removed first; then the file is deleted
        and, unless that raises (`fileOk` false), the name leaves the registry
        and the settings are saved. An unknown name changes nothing. */
    method DeleteSound(name: string, removeOk: bool, fileOk: bool, saveOk: bool)
      requires Valid()
      modifies this`sounds, this`order, sounds.Values`hotkey, this`registered, config
      ensures Valid()
      ensures name in old(sounds) ==> old(sounds[name]).hotkey == None
      ensures name in old(sounds) ==> registered == AfterRemove(old(registered), old(sounds[name].hotkey), removeOk)
      ensures name !in old(sounds) ==> registered == old(registered)
      ensures name in old(sounds) && fileOk ==> sounds == old(sounds) - {name} && order == Without(old(order), name)
      ensures !(name in old(sounds) && fileOk) ==> sounds == old(sounds) && order == old(order)
      ensures forall n :: n in sounds && n != name ==> sounds[n].hotkey == old(sounds[n].hotkey)
      ensures config != null && !(name in old(sounds) && fileOk) ==> config.entries == old(config.entries)
      ensures config != null && name in old(sounds) && fileOk ==>
        config.entries == SavedConfig(old(config.entries), SettingsOf(sounds))
    {
      if name in sounds {
        if !fileOk {
          ClearHotkey(name, removeOk);
          return;
        }
        Unregister(name, removeOk);
        SaveAllSettings(saveOk);
      }
    }

    /** The start of `load_sounds`: `sounds.clear()`, then
        `clear_all_hotkeys()`. */
    method ClearSounds(unhookOk: bool)
      modifies this`sounds, this`order, this`registered
      ensures Valid()
      ensures sounds == map[] && order == []
      ensures registered == if unhookOk then map[] else old(registered)
    {
      sounds := map[];
      order := [];
      ClearAllHotkeys(unhookOk);
    }

    /** `delete_sound` up to saving: the hotkey is removed, then
        `sounds.pop(name)`. */
    method Unregister(name: string, removeOk: bool)
      requires Valid() && name in sounds
      modifies this`sounds, this`order, {sounds[name]}`hotkey, this`registered
      ensures Valid()
      ensures sounds == old(sounds) - {name} && order == Without(old(order), name)
      ensures old(sounds[name]).hotkey == None
      ensures registered == AfterRemove(old(registered), old(sounds[name].hotkey), removeOk)
      ensures forall n :: n in sounds ==> sounds[n].hotkey == old(sounds[n].hotkey)
    {
      ClearHotkey(name, removeOk);
      sounds := sounds - {name};
      order := Without(order, name);
    }
  }

  /** One step of `stop_all_sounds`. */
  method Stop(s: Sound)
    modifies s`playing, s`pos
    ensures !s.playing && s.pos == 0
  {
    s.playing := false;
    s.pos := 0;
  }
}
