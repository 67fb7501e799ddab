# soundboard-pro core, modelled in Dafny

soundboard-pro is a desktop soundboard. It loads audio clips into a dictionary of sound records. It plays them into a virtual audio cable, mixed with the microphone. Optionally it also plays them into the user's headphones. Each clip has a global hotkey and a volume, both persisted in a JSON configuration file. A per-clip effects pipeline (normalize, compress, echo, speed change, fades, trim) rebuilds the playable samples from a clean copy of the original ones. The project models:

- **SoundRecord.** The record every module shares, as a class.
- **Effects.** The effects pipeline, specified by pure functions on sample sequences. It is run by in-place array methods proved equal to them. The record operations that toggle effects, set parameters, trim and reset.
- **AudioEngine.** The mixing step of the virtual-cable callback and the microphone callback.
- **SoundManager.** The sound registry and its hotkey registry (play/stop toggling, stop-all, volume, hotkeys, deletion, peak normalisation on load).
- **Configuration.** Merging in the default keys, and the save/load round trip of per-sound settings.
- **Updater.** The version comparison and the update decision.
- **SoundEditor.** The waveform canvas's pixel/seconds mapping, its drag state machine, and the trim guard.
- **Settings.** Parsing and validation in the settings dialog.
- **App.** The hotkey capture dialog, the "Hear Myself" switch and the drag-and-drop extension filter.
- **Themes.** Theme selection.
- **Common and PyInt.** Shared helpers: Python's `str.split`/`join`, the part of `lower` the program needs, and Python's `int()` on strings.

Samples and seconds are exact reals. The sample rate is a parameter `sr`: `effects._SR()` reads `sound_manager.TARGET_SR`, which sound_manager.py never defines, so at run time it falls back to 48000. Every call into a library the model cannot see becomes a boolean or optional parameter that says whether the call worked. This covers the keyboard hooks, the decoder, writing the config file and the stream write. The model does not narrow the outcome further.

Two facts about the code that the model keeps as written:

- The engine and the settings dialog read `mic_out`/`monitor_out`, which `DEFAULT_CONFIG` (config.py:21-29) does not define; it names "out" and "headphone_out" instead. `Configuration.DefaultKeys` lists the keys `DEFAULT_CONFIG` has.
- `np.interp` interpolates linearly between neighbouring samples (effects.py:103-110), and `Effects.Interp` does the same.

## Model

| member | source | states |
|---|---|---|
| Common.Trunc | effects.py:96 | Python `int()` of a float truncates toward zero: for x ≥ 0 the result is the largest integer not above x, for x < 0 the smallest not below it |
| Common.IsSpace | sound_manager.py:91 | a character `str.strip()` removes is never a sign or a decimal digit, so stripping never eats part of a number |
| Common.IsBlank | sound_manager.py:91 | the empty string counts as blank, as `not hotkey_str` does |
| Common.Lower | sound_manager.py:45 | lower-casing keeps the length and maps each character on its own |
| Common.Split | updater.py:52-53 | `str.split(sep)` yields at least one part and no part contains the separator |
| Common.Join | app.py:135 | joining no parts gives ""; its length is at least the number of parts minus one (`SplitJoin` shows that splitting it gives the parts back) |
| Common.JoinEndsWithLast | app.py:135 | a joined string ends with its last part |
| Common.SplitJoin | updater.py:52-53 | splitting the join of separator-free parts (at least one) gives the parts back |
| Common.SplitNoSep | ui/settings.py:175 | a string without the separator splits into itself alone |
| Common.SplitAppend | ui/settings.py:175 | text before the first separator is the first part; the rest splits on its own |
| PyInt.NatToStr | updater.py:45-46 | `str(n)` of a natural number is a non-empty run of decimal digits |
| PyInt.DigitChar | updater.py:45-46 | each digit value has a digit character with that value |
| PyInt.ParseInt | updater.py:52 | `int("")` raises (no value) |
| PyInt.StripBlank | sound_manager.py:91 | `s.strip() == ""` exactly when every character of `s` is white space |
| PyInt.BlankNotInt | updater.py:52 | `int()` of an empty or all-whitespace string raises |
| PyInt.IntToStr | ui/settings.py:103 | `str(i)` is never empty and starts with "-" exactly when i is negative |
| PyInt.ParseIntToStr | ui/settings.py:175 | Python `int()` reads back every integer's `str()`, including negatives: `int(str(i)) == i` |
| PyInt.ParseRun | updater.py:52 | `int()` of a digit run without surrounding white space is the run's decimal value |
| PyInt.ParseNegative | updater.py:52 | `int()` of "-" followed by digits is the negated value |
| Configuration.DefaultKeysCover | config.py:21-29 | the iteration list over `DEFAULT_CONFIG` names exactly its keys |
| Configuration.Merge | config.py:45-46 | the merged keys are the union; every key the data has keeps its value; every missing default key gets the default |
| Configuration.LoadedConfig | config.py:32-48 | `load_config` fails (the `setdefault` loop raises outside the `try`) exactly when the file parses to a JSON value that is not an object |
| Configuration.LoadedConfigKeys | config.py:32-48 | after a load that returns, every default key is present; a parsed object's keys keep the file's values; a missing or unreadable file gives exactly the defaults |
| Configuration.MergeIdempotent | config.py:44-46 | filling in defaults a second time changes nothing |
| Configuration.SetDefaults | config.py:45-46 | the `setdefault` loop over the default keys computes `Merge` |
| Configuration.LoadConfig | config.py:32-48 | `load_config` raises (no configuration) exactly when the file parses to a value that is not a JSON object; otherwise it returns a fresh configuration holding the defaults for a missing or unreadable file, or the file's object completed with the defaults |
| Configuration.SettingsOf | config.py:66-70 | one setting per sound, holding that record's volume and hotkey |
| Configuration.SavedSounds | config.py:64-70 | the saved "sounds" entry has exactly one entry per sound, holding its volume and hotkey (null when none) |
| Configuration.SavedSettings | config.py:77-82 | the settings read back have exactly the saved names |
| Configuration.SavedMap | config.py:77 | `config.get("sounds", {})`: empty without a "sounds" key, otherwise the saved dictionary |
| Configuration.SavedVolume | config.py:81 | `.get("volume", 1.0)`: 1.0 when the entry has no volume, otherwise the stored number |
| Configuration.SavedHotkey | config.py:82 | `.get("hotkey", None)`: no hotkey exactly when the entry has none or null, otherwise the stored string |
| Configuration.AppliedSettings | config.py:79-82 | loading keeps the set of sounds and leaves every sound without a saved entry as it was |
| Configuration.LoadAfterSave | config.py:62-82 | round trip: loading right after saving is well typed and gives every sound back its own volume and hotkey |
| Configuration.SavedSettingsOfSaved | config.py:62-82 | reading back what was saved for a settings map gives that map |
| Configuration.SavedEntries | config.py:66-70 | the saving loop over the sound names builds exactly `SavedSounds` |
| Configuration.SaveSoundSettings | config.py:62-72 | "sounds" is replaced by one entry per sound and no other key changes; the result is what writing the file reports |
| Configuration.ApplySetting | config.py:81-82 | one saved setting is copied into one record |
| Configuration.ApplySettings | config.py:79-82 | every record whose name is saved takes the saved setting; every other one keeps its own |
| Configuration.LoadSoundSettings | config.py:75-82 | `load_sound_settings` gives each sound its `AppliedSettings` value; samples, position, playing flag and effect fields are untouched; no sound is added |
| SoundRecord.Sound.constructor | sound_manager.py:53-59 | a new record holds the samples at position 0, not playing, volume 1.0, no hotkey and no effect fields |
| Effects.AllOff | effects.py:31 | the fresh flag dictionary has exactly the `EFFECTS` keys, all off |
| Effects.ActiveEffects | effects.py:43-45 | an effect is active exactly when the record has flags and that flag is on |
| Effects.Peak | effects.py:82 | the peak magnitude is never negative |
| Effects.PeakIsMax | effects.py:82 | the peak bounds every sample's magnitude and some sample of a non-empty buffer attains it |
| Effects.PeakScale | effects.py:84 | scaling by a non-negative factor scales the peak by it |
| Effects.Normalize | effects.py:81-84 | normalizing keeps the length and leaves a silent buffer unchanged |
| Effects.NormalizePeak | effects.py:81-84 | after normalizing a buffer that is not silent its peak is exactly 0.95 |
| Effects.CompressSample | effects.py:86-91 | samples with magnitude ≤ 0.5 are unchanged; louder ones get magnitude 0.5 + excess/4; the sign is kept and the magnitude never grows |
| Effects.Compress | effects.py:86-91 | compression keeps the length and compresses each sample on its own |
| Effects.CompressPeak | effects.py:86-91 | compression never raises the peak |
| Effects.Echo | effects.py:93-100 | the echo stage keeps the length; the tail past the original end is dropped |
| Effects.EchoBuffer | effects.py:97-99 | the working buffer of the echo stage is `d` samples longer than the input |
| Effects.EchoBufferStart | effects.py:97-98 | before any delayed sample is added the buffer is the input followed by `d` zeros |
| Effects.EchoIdentity | effects.py:93-100 | an echo with decay 0, or with a delay at least the buffer length, is the identity |
| Effects.CeilDivBelow | effects.py:103-104 | `k < ceil(a / b)` exactly when `k * b < a` |
| Effects.ResampleLen | effects.py:103-104 | the number of `np.arange(0, n, step)` points kept is the count of k with `k * step < n` |
| Effects.Interp | effects.py:105 | at or past the last sample point `np.interp` gives the last sample |
| Effects.InterpProperties | effects.py:105 | at a sample point `np.interp` gives that sample; between two sample points it lies between their values |
| Effects.Resample | effects.py:102-110 | the speed stage's output has `ResampleLen` samples and is never empty for a non-empty input |
| Effects.ResampleSample | effects.py:105 | output sample k reads the input at position `k * step` inside the buffer, and its magnitude is within the input's peak |
| Effects.SpeedUpEvenSamples | effects.py:102-105 | speeding up by 1.5 makes output sample 2m exactly input sample 3m |
| Effects.FadeIn | effects.py:112-114 | the fade-in keeps the length and leaves samples past the ramp unchanged |
| Effects.FadeOut | effects.py:116-118 | the fade-out keeps the length and leaves samples before the ramp unchanged |
| Effects.FadeLen | effects.py:113-117 | the ramp length never exceeds the buffer and, when shorter, is `int(fade_duration * SR)` |
| Effects.Linspace | effects.py:114-118 | `np.linspace(a, b, m)` starts at a and, with two or more points, ends at b |
| Effects.FadeInRamp | effects.py:113-114 | sample i of the ramp is scaled by i/(smp−1): the first is silenced and the last is kept |
| Effects.FadeOutMirrorsFadeIn | effects.py:112-118 | for ramps of at least two samples, the fade-out is the fade-in of the reversed buffer, reversed |
| Effects.FadeOutSingle | effects.py:113-118 | a one-sample fade-out keeps the buffer while a one-sample fade-in silences the first sample |
| Effects.Pipeline | effects.py:75-120 | the rebuilt length is the speed stage's length when speed-up (or else slow-down) is on, the original length otherwise |
| Effects.PipelineAllOff | effects.py:75-120 | with every flag off the rebuilt samples are the original ones |
| Effects.PipelineSpeedUpWins | effects.py:102-110 | with speed-up on, the slow-down flag has no effect |
| Effects.PipelineEchoZeroDecay | effects.py:93-100 | an echo with decay 0 rebuilds the same samples as the echo switched off |
| Effects.FadeInScenario | effects.py:112-114 | 2 s at 48 kHz with a 0.5 s fade-in ramps the first 24000 samples from 0 by i/23999 and keeps the remaining 72000 |
| Effects.NormalizeStage | effects.py:81-84 | the normalize stage keeps the length and is the identity with its flag off |
| Effects.CompressStage | effects.py:86-91 | the compress stage keeps the length and is the identity with its flag off |
| Effects.EchoStage | effects.py:93-100 | the echo stage keeps the length and is the identity with its flag off |
| Effects.SpeedStage | effects.py:102-110 | the speed stage keeps a non-empty buffer non-empty and is the identity with both speed flags off |
| Effects.FadeInStage | effects.py:112-114 | the fade-in stage keeps the length and is the identity with its flag off |
| Effects.FadeOutStage | effects.py:116-118 | the fade-out stage keeps the length and is the identity with its flag off |
| Effects.CopyOf | effects.py:78 | the working array is a fresh copy of the clean samples |
| Effects.PeakOf | effects.py:82 | the running maximum over the array is `Peak` |
| Effects.ScaleOf | effects.py:84 | `data * c` is a fresh array holding the scaled samples |
| Effects.CompressInPlace | effects.py:88-91 | the masked in-place update leaves the array equal to `Compress` of its old contents |
| Effects.EchoOf | effects.py:96-100 | the zero-padded buffer with the delayed copy added, cut to the input length, is `Echo` |
| Effects.AddDelayed | effects.py:99 | `out[d:] += data * decay` adds the scaled input at offset d |
| Effects.EchoBufferStep | effects.py:99 | adding one delayed sample extends the buffer by that sample |
| Effects.ResampleOf | effects.py:103-105 | the interpolated array is `Resample` of the input |
| Effects.FadeInInPlace | effects.py:114 | `data[:smp] *= linspace(0, 1, smp)` leaves the array equal to `FadeIn` of its old contents |
| Effects.FadeOutInPlace | effects.py:118 | `data[-smp:] *= linspace(1, 0, smp)` leaves the array equal to `FadeOut` of its old contents |
| Effects.NormalizeRun | effects.py:81-84 | the normalize step computes the normalize stage |
| Effects.CompressRun | effects.py:86-91 | the compress step computes the compress stage |
| Effects.EchoRun | effects.py:93-100 | the echo step computes the echo stage |
| Effects.SpeedRun | effects.py:102-110 | the speed step computes the speed stage, with speed-up before slow-down |
| Effects.FadeInRun | effects.py:112-114 | the fade-in step computes the fade-in stage |
| Effects.FadeOutRun | effects.py:116-118 | the fade-out step computes the fade-out stage |
| Effects.RebuildSamples | effects.py:78-118 | running the stages in order on a copy of the clean samples gives `Pipeline` of the clean samples, flags and parameters |
| Effects.InitSoundEffects | effects.py:28-40 | missing fields are added (all flags off, parameters 0.3/0.5/0.5, the clean copy from `data`); present fields and every other field are kept, so a second call changes nothing |
| Effects.Rebuild | effects.py:75-120 | `data` becomes `Pipeline` of the clean copy, flags and parameters; the clean copy is never changed; position, playing flag, volume and hotkey are kept |
| Effects.ToggleEffect | effects.py:48-56 | exactly one flag flips (a missing flag counts as off); the new value is returned; the record is rebuilt and rewound |
| Effects.SetEffect | effects.py:59-64 | the flag takes the given value; the record is rebuilt and rewound |
| Effects.SetEffectParam | effects.py:67-72 | the parameter takes the given value; the record is rebuilt and rewound |
| Effects.TrimStart | effects.py:131 | the trim start sample is never negative |
| Effects.TrimEnd | effects.py:132 | the trim end sample never exceeds the clean copy's length |
| Effects.TrimmedOriginal | effects.py:130-134 | a trim exists exactly when end > start; it has end − start samples, each the original sample at start + i |
| Effects.TrimWholeIsIdentity | effects.py:131-134 | a trim from 0 to the end of the buffer or beyond keeps every sample |
| Effects.TrimSound | effects.py:127-136 | an accepted trim replaces the clean copy by the slice, rebuilds and rewinds; a refused one only adds missing fields and leaves samples and position alone |
| Effects.ResetTrim | effects.py:139-143 | the clean copy becomes the backup, the record is rebuilt from it and rewound |
| AudioEngine.Clip | audio_engine.py:120 | every clipped sample lies in [−1, 1] and a sample already there is kept |
| AudioEngine.Chunk | audio_engine.py:106-108 | the chunk always has `frames` samples |
| AudioEngine.ChunkAt | audio_engine.py:106-108 | chunk sample k is the clip's sample at pos + k while there is one, and silence past the end |
| AudioEngine.Advance | audio_engine.py:101-112 | one block keeps `0 ≤ pos ≤ len(data)`, never changes samples or volume, and leaves a paused clip unchanged |
| AudioEngine.AdvanceCases | audio_engine.py:106-112 | a clip with fewer than `frames` samples left stops and rewinds, and at its very end plays one block of silence; a clip with a full block left keeps playing at pos + frames and plays exactly that block |
| AudioEngine.Mix | audio_engine.py:99-113 | the mix has `frames` samples, and is silence when no sound is playing |
| AudioEngine.MixStep | audio_engine.py:102-113 | one pass keeps the block length, and a paused sound leaves the mix as it was |
| AudioEngine.CableOut | audio_engine.py:116-120 | the virtual-cable block has the mix's length and every sample lies in [−1, 1] |
| AudioEngine.HeadphoneOut | audio_engine.py:124-129 | the headphone block has the mix's length and every sample lies in [−1, 1], with or without monitoring |
| AudioEngine.MixOfSilence | audio_engine.py:99-113 | when every clip is paused or silent the mix is silence |
| AudioEngine.MixSkipsPaused | audio_engine.py:101-103 | a paused clip contributes nothing to the mix |
| AudioEngine.MonitorMatchesCable | audio_engine.py:120-127 | at headphone volume 1 with monitoring on, the headphones get exactly the cable's block |
| AudioEngine.MonitorOffIgnoresMic | audio_engine.py:128-129 | with monitoring off, the headphone block does not depend on the microphone |
| AudioEngine.SilenceOut | audio_engine.py:116-129 | a silent mix with the microphone at gain 0 gives silence on both outputs |
| AudioEngine.Step | audio_engine.py:101-112 | one record of the loop moves as `Advance` says, and a playing record yields its padded chunk |
| AudioEngine.AddScaled | audio_engine.py:113 | `sound_mix += chunk * volume` adds the scaled chunk sample by sample |
| AudioEngine.MixOne | audio_engine.py:101-113 | one pass advances the record and adds its contribution to the mix |
| AudioEngine.MixBlock | audio_engine.py:99-113 | the locked loop returns `Mix` of the records as they were and advances each record by one block |
| AudioEngine.Engine.constructor | audio_engine.py:15-17 | the module starts with a silent microphone buffer of `BLOCK` samples and monitoring enabled |
| AudioEngine.Engine.SetMonitorEnabled | audio_engine.py:29-31 | the monitor flag takes the given value |
| AudioEngine.Engine.MicCallback | audio_engine.py:81-83 | only the first `frames` samples of the microphone buffer are overwritten, with the input; the rest is kept |
| AudioEngine.Engine.CableCallback | audio_engine.py:97-133 | every record advances one block; the cable gets clip(mix + mic·gain), which does not depend on the monitor flag; with a headphone stream the headphones get clip((mix + mic·gain)·hp) when monitoring, else clip(mix·hp); without one, nothing |
| AudioEngine.WriteBlock | audio_engine.py:121 | the output array receives the block |
| AudioEngine.RecordsOf | audio_engine.py:101 | the loop visits the record of each name in iteration order |
| AudioEngine.RecordsDistinct | audio_engine.py:101 | distinct names of a registry without shared records give distinct records |
| SoundManager.Divide | sound_manager.py:52 | `data /= peak` divides every sample and keeps the length |
| SoundManager.IsSupportedFile | sound_manager.py:45 | an accepted file name is at least as long as an extension |
| SoundManager.SavedConfig | sound_manager.py:73-77 | with an empty or missing configuration nothing is written; otherwise only "sounds" is replaced, by the saved settings, and every other key is kept |
| SoundManager.LoadedSamples | sound_manager.py:49-59 | a decoded file is kept exactly when it has samples, and keeps its length |
| SoundManager.LoadedPeak | sound_manager.py:50-52 | a loaded clip that is not silent has peak magnitude exactly 1; a silent one is kept as decoded |
| SoundManager.DivideIsScale | sound_manager.py:52 | dividing by the peak is scaling by its inverse |
| SoundManager.Without | sound_manager.py:185 | removing a name from the iteration order keeps exactly the other names |
| SoundManager.AfterRemove | sound_manager.py:115-122 | removing a hotkey deletes its registry entry only when it is set, registered and the library removed it, and touches no other entry |
| SoundManager.HotkeyRegistry | sound_manager.py:87-101 | after `set_hotkey`, an accepted non-blank string maps to the sound; every other entry comes from the old registry unchanged; every old entry is kept except the previous hotkey's and the new one |
| SoundManager.SoundBoard.constructor | sound_manager.py:26-28 | the registry starts with no sounds, no hotkeys and no configuration |
| SoundManager.SoundBoard.LoadFile | sound_manager.py:44-61 | a supported file that decodes to a non-empty buffer gets a fresh record of its peak-normalised samples; any other file changes nothing; the registry stays valid |
| SoundManager.SoundBoard.SetConfig | sound_manager.py:30-33 | the configuration reference is set |
| SoundManager.SoundBoard.ToggleSound | sound_manager.py:148-152 | the named sound's playing flag flips and it rewinds; every other sound and an unknown name are untouched |
| SoundManager.SoundBoard.ToggleTwice | sound_manager.py:148-152 | toggling twice restores the playing flag and leaves the sound at its start |
| SoundManager.SoundBoard.StopAllSounds | sound_manager.py:157-160 | every sound ends stopped at position 0; no other field changes |
| SoundManager.SoundBoard.SaveAllSettings | sound_manager.py:73-77 | the settings are written into a set, non-empty configuration, and the sounds' settings are unchanged |
| SoundManager.SoundBoard.SetSoundVolume | sound_manager.py:139-143 | only the named sound's volume changes and the settings are saved; an unknown name changes nothing |
| SoundManager.SoundBoard.ClearHotkey | sound_manager.py:115-122 | the sound's hotkey is cleared and its registry entry goes as `AfterRemove` says |
| SoundManager.SoundBoard.RemoveHotkey | sound_manager.py:110-125 | a known sound loses its hotkey and registry entry and, with `save`, the settings are saved; an unknown name changes nothing; other sounds keep their hotkeys |
| SoundManager.SoundBoard.StoreHotkey | sound_manager.py:91-105 | a blank string clears the hotkey and succeeds; an accepted one is stored and registered; a refused one changes nothing and the result is false |
| SoundManager.SoundBoard.SetHotkey | sound_manager.py:82-108 | an unknown name gives false and changes nothing; a blank string clears and gives true; otherwise the result is whether the library accepted the string, which is stored exactly then; after a refusal the sound has no hotkey when it had one (the old one was already removed) and keeps its unset value otherwise; the registry becomes `HotkeyRegistry`; other sounds keep their hotkeys; settings are saved when asked and successful |
| SoundManager.SoundBoard.SetKnownHotkey | sound_manager.py:87-108 | `set_hotkey` for a known sound, with the same outcomes, including the hotkey left after a refusal |
| SoundManager.SoundBoard.AssignHotkey | sound_manager.py:87-101 | the old hotkey is removed when set, then the new one is stored as `StoreHotkey` says; a refused string leaves no hotkey when one was set and the old unset value otherwise |
| SoundManager.SoundBoard.ClearAllHotkeys | sound_manager.py:127-134 | the registry empties when the library unhooks everything and is kept when it raises |
| SoundManager.SoundBoard.DeleteSound | sound_manager.py:179-186 | the hotkey is cleared and unregistered first; when deleting the file succeeds the name leaves the sounds and the iteration order and the settings are saved; when `os.remove` raises the sound stays, without its hotkey, and nothing is saved; an unknown name changes nothing |
| SoundManager.SoundBoard.ClearSounds | sound_manager.py:40-41 | the start of `load_sounds` empties the sounds, then empties the registry unless unhooking raises |
| SoundManager.SoundBoard.Unregister | sound_manager.py:181-185 | the hotkey is removed, then the name leaves the sounds and the iteration order |
| SoundManager.Stop | sound_manager.py:158-160 | one sound is stopped and rewound |
| Updater.ParseParts | updater.py:52-53 | parsing succeeds exactly when every part is an integer, and then gives each part's value in order |
| Updater.Padded | updater.py:56-59 | padding gives at least three parts, keeps the given ones as a prefix, adds only zeros, and changes nothing with three or more |
| Updater.PadToThree | updater.py:56-59 | the `while len < 3: append(0)` loop computes `Padded` |
| Updater.LexGreater | updater.py:61 | only a non-empty list is greater, and every non-empty list is greater than the empty one |
| Updater.LexIrreflexive | updater.py:61 | no part list is greater than itself |
| Updater.LexAsymmetric | updater.py:61 | of two part lists at most one is greater |
| Updater.LexTransitive | updater.py:61 | the list comparison is transitive |
| Updater.LexTotal | updater.py:61 | of two different part lists one is greater |
| Updater.IsNewerVersion | updater.py:40-64 | `_is_newer_version` computes `Newer`: false when a part is not an integer, otherwise the padded lists compared |
| Updater.Newer | updater.py:40-64 | a version string is never newer than itself |
| Updater.NewerIrreflexive | updater.py:40-64 | a version is never newer than itself |
| Updater.NewerAsymmetric | updater.py:40-64 | of two versions at most one is newer |
| Updater.MalformedNeverNewer | updater.py:51-64 | a version with a non-integer part is never newer, and nothing is newer than it |
| Updater.Texts | updater.py:52 | the text of each part is its decimal digits, so it holds no '.' |
| Updater.ReadDotted | updater.py:52-53 | reading the dotted text of a non-empty list of naturals gives the list back |
| Updater.ReadTexts | updater.py:52 | reading the texts of a list of naturals gives the list back |
| Updater.NewerDotted | updater.py:52-61 | on dotted lists of naturals `Newer` is the comparison of the padded lists |
| Updater.DocumentedExample | updater.py:45-46 | "3.0.0" is newer than "2.2.0" and not the other way round |
| Updater.LongerWins | updater.py:61 | with an equal prefix the longer list wins: "1.2.3.0" is newer than "1.2.3" |
| Updater.PaddingEquates | updater.py:55-59 | "1.2" and "1.2.0" are not newer in either direction |
| Updater.NumericParts | updater.py:52-61 | parts compare as numbers: "1.10" is newer than "1.9" |
| Updater.CheckForUpdates | updater.py:21-37 | the data comes back exactly when the download gave a dictionary whose version (default "0.0.0") is a string newer than the running version; otherwise the result is `None` |
| Updater.VersionOf | updater.py:27 | `data.get("version", "0.0.0")`: "0.0.0" when there is no version, otherwise the stored string |
| Updater.MissingVersionNoUpdate | updater.py:27-33 | data without a version never offers an update to a running version of natural-number parts |
| Updater.ZerosNotGreater | updater.py:61 | "0.0.0" is never greater than a list of non-negative parts at least as long |
| Settings.Pairs | ui/settings.py:62-65 | the offered pairs are exactly the (index, name) of the devices with input (or output) channels, in index order |
| Settings.OptionText | ui/settings.py:124-131 | a device entry `"{i}: {name}"` starts with a decimal digit |
| Settings.Options | ui/settings.py:124 | one dropdown entry per pair, each the `"{i}: {name}"` text |
| Settings.Dropdown | ui/settings.py:86-88 | no options shows the single "(no devices found)" entry; otherwise the options as given |
| Settings.SelectedIndex | ui/settings.py:175 | `int(v.split(":")[0])` of a text without ":" is `int()` of the whole text |
| Settings.SelectedIndexOfOption | ui/settings.py:175 | parsing the part before ':' of an entry gives back its device index |
| Settings.SavedIndex | ui/settings.py:103 | a saved id is an index exactly when it is a JSON number with no fractional part, and then it is that number |
| Settings.Restore | ui/settings.py:100-105 | a missing or `None` saved id leaves the selection alone; so does a saved id that is not an integral number or is out of range, since the exception is swallowed; an index in range selects `"{i}: {name}"` of that device, a negative one counting from the end |
| Settings.RestoreSelectsOffered | ui/settings.py:100-105 | restoring a saved index of an offered device selects an entry of the dropdown |
| Settings.RestoreIndex | ui/settings.py:103 | restoring a valid index selects `"{i}: {name}"` of that device |
| Settings.MonitorInitial | ui/settings.py:140-144 | no saved headphone device selects "None (disabled)"; a saved id that is not an index keeps the current entry; a saved index in range selects that device's entry |
| Settings.RevThemeInverse | ui/settings.py:108-113 | `REV_THEME` is the inverse of `THEME_LABELS` in both directions, and the labelled themes are exactly the themes |
| Settings.ThemeOfLabel | ui/settings.py:169 | an unknown label gives "dark"; the result always has a label |
| Settings.InitialThemeLabel | ui/settings.py:116-117 | the lookup raises exactly when the stored theme is a list or an object; otherwise the pre-selected label is a known label: the dark label when no theme is stored, and the stored theme's own label when it is a known theme |
| Settings.ThemeKeptWhenUntouched | ui/settings.py:116-117 | saving with the pre-selected label keeps a saved known theme |
| Settings.ThemeAlwaysWritten | ui/settings.py:168-170 | the theme chosen by label is written in every outcome, even when `_apply` stops early |
| Settings.WrittenTheme | ui/settings.py:170 | the theme entry holds the chosen theme |
| Settings.Written | ui/settings.py:165-197 | no key other than theme, mic, mic_out and monitor_out is touched or added; the run completes exactly when every reading parsed and a virtual-cable output was chosen; it stops at the missing device exactly when the mic reading did not fail and no output was chosen |
| Settings.ApplyResult | ui/settings.py:165-203 | a missing-device stop means no virtual-cable output was chosen; a completed run had a chosen output whose index parsed |
| Settings.MissingDeviceAborts | ui/settings.py:178-184 | with no virtual-cable output chosen `_apply` does not complete; `mic_out`, `monitor_out` and all other keys except theme and mic are left alone; the outcome is the missing-device warning unless the mic entry failed to parse first |
| Settings.MicKeptUnlessChosen | ui/settings.py:173-175 | `mic` is unchanged when the mic selection is empty or the placeholder |
| Settings.WrittenMicKept | ui/settings.py:173-175 | with no mic reading the stored `mic` entry is unchanged |
| Settings.MonitorEntry | ui/settings.py:188-192 | on success, a monitor selection starting with "None" stores null; any other stores its parsed index |
| Settings.ApplyChosenEntries | ui/settings.py:165-197 | choosing offered devices writes theme, mic, mic_out and monitor_out exactly and completes |
| Settings.OptionChosen | ui/settings.py:174 | every dropdown entry counts as chosen and never as the disabled monitor |
| Settings.DisabledEntryStoresNull | ui/settings.py:138 | the "None (disabled)" entry is the one that stores null |
| Settings.Apply | ui/settings.py:165-203 | the configuration and outcome are `ApplyResult`; only a completed apply switches the theme, and a failed one leaves it as it was |
| SoundEditor.SecToX | ui/sound_editor.py:61-65 | the column is 0 on a canvas narrower than 2 pixels or for a non-positive duration |
| SoundEditor.XToSec | ui/sound_editor.py:67-71 | the time is 0 on a canvas narrower than 2 pixels, otherwise within [0, total] |
| SoundEditor.SecToXOnCanvas | ui/sound_editor.py:61-65 | a time within the clip maps to a column within the canvas |
| SoundEditor.RoundTrip | ui/sound_editor.py:61-71 | mapping a time to its column and back never moves it later and loses less than one column's worth of time |
| SoundEditor.ColumnTime | ui/sound_editor.py:65 | a column's time is at most the time it was taken from and less than one column before it |
| SoundEditor.Grab | ui/sound_editor.py:133-142 | a press within 14 pixels of the left handle grabs it (winning ties), else within 14 of the right grabs that, else nothing |
| SoundEditor.DraggedStart | ui/sound_editor.py:149 | a left drag never goes past the drag position and keeps the selection at least 0.05 s long, touching that bound only when it clamps |
| SoundEditor.DraggedEnd | ui/sound_editor.py:151 | a right drag never stays before the drag position and keeps the selection at least 0.05 s long, touching that bound only when it clamps |
| SoundEditor.Duration | ui/sound_editor.py:50 | the shown duration is at least 0.001 s and is the clip's length in seconds when that is longer |
| SoundEditor.WaveformCanvas.constructor | ui/sound_editor.py:40-53 | a new canvas has no drag and its handles at 0 and at the duration |
| SoundEditor.WaveformCanvas.Press | ui/sound_editor.py:133-142 | the drag is the handle `Grab` picks at the handles' columns |
| SoundEditor.WaveformCanvas.Motion | ui/sound_editor.py:144-152 | without a drag nothing moves; a left drag moves only the start, a right drag only the end, and either leaves the selection at least 0.05 s long |
| SoundEditor.WaveformCanvas.Release | ui/sound_editor.py:154-155 | releasing ends the drag |
| SoundEditor.WaveformCanvas.ResetHandles | ui/sound_editor.py:157-162 | the duration is read again and the handles go back to both ends |
| SoundEditor.WaveformCanvas.GetTrim | ui/sound_editor.py:164-165 | the selection's start and end |
| SoundEditor.ApplyTrim | ui/sound_editor.py:234-241 | a selection shorter than 0.05 s is refused and nothing changes; otherwise the clean copy is trimmed to the selection, the handles are reset, and the record is rebuilt as `trim_sound` does: the effect flags and parameters are filled in, the samples are the pipeline over the trimmed copy, and the playing flag, volume and hotkey are kept |
| Themes.Chosen | themes.py:75-76 | the applied theme is the given name when it is a theme, "dark" otherwise |
| Themes.DarkNames | themes.py:7-59 | the dark theme defines exactly the fifteen colour names |
| Themes.ThemesShareNames | themes.py:7-59 | there are three themes and all define the same colour names |
| Themes.ThemeState.constructor | themes.py:70-86 | the module starts on "dark" with the dark colours |
| Themes.ThemeState.SetTheme | themes.py:73-78 | `_current` becomes the chosen name and its colours are written over the globals, which then equal that theme's colours |
| Themes.ThemeState.GetTheme | themes.py:81-82 | `get_theme` is the name last applied after fallback |
| Themes.SwitchReplacesAll | themes.py:78 | writing a theme over colours that use only the shared names leaves exactly that theme's colours |
| App.ModsFrom | app.py:131-134 | at most one modifier per table entry, each named by the table |
| App.ModsListed | app.py:131-134 | "shift", "ctrl" and "alt" appear exactly when bits 0x1, 0x4 and 0x8 are set, nothing else appears, and they keep that order |
| App.Mods | app.py:131-134 | at most three modifiers, each "shift", "ctrl" or "alt" |
| App.Hotkey | app.py:135 | the captured string ends with the lower-cased key |
| App.BareKey | app.py:135 | with no modifier bits the hotkey is the lower-cased key alone |
| App.HotkeyParts | app.py:135 | the hotkey splits on '+' into the modifiers followed by the lower-cased key |
| App.HotkeyDialog.constructor | app.py:125-127 | nothing is captured and the label shows "—" |
| App.HotkeyDialog.Key | app.py:129-136 | a bare Shift, Control or Alt key changes nothing; any other key captures and shows the hotkey string |
| App.HotkeyDialog.Save | app.py:141-144 | with nothing captured nothing changes; otherwise the captured string goes to `set_hotkey` with saving and the dialog closes: the sound's hotkey, the registry and the configuration follow `SetHotkey` (including a refused string and an unknown name), and other sounds keep their hotkeys |
| App.MonLabel | app.py:280 | the label is "Hear Myself: ON" exactly when monitoring is on |
| App.Truthy | app.py:280 | a stored boolean is read as itself and null as false |
| App.MonitorSetting | app.py:279 | `config.get("monitor_enabled", True)`: on when the entry is absent, and a stored boolean is read as itself |
| App.MonitorOnByDefault | app.py:279 | a configuration without the entry, and the defaults, start with monitoring on |
| App.MonitorSwitch.constructor | app.py:279 | the switch starts from the truthiness of the stored entry (on when absent) |
| App.MonitorSwitch.Label | app.py:280 | the label says "Hear Myself: ON" exactly when the switch is on |
| App.MonitorSwitch.Toggle | app.py:288-293 | the switch flips; the configuration stores the new value; a running engine gets the same value and nothing else of it changes |
| App.MonitorSwitch.ToggleTwice | app.py:288-293 | two toggles give switch, engine and stored entry the original value |
| App.DropMatchesLoad | app.py:79 | a dropped file is accepted exactly when the loader supports it: .mp3, .wav, .ogg or .flac in any case |
| App.Droppable | app.py:79 | an accepted dropped path is at least as long as an extension |
| App.Imported | app.py:77-84 | no more files are imported than were dropped |
| App.ImportedExactly | app.py:77-84 | every imported file is a dropped file with an accepted extension whose copy succeeded, and every such file is imported |
| App.CountImported | app.py:77-83 | the counting loop gives the number of imported files |
| App.ImportedStep | app.py:79-83 | one more path adds one import exactly when it is accepted and copied |
| App.NothingAcceptedNothingImported | app.py:79-85 | when no dropped file has an accepted extension nothing is imported |

## Left out

- Stream lifecycle (`start`/`stop` in audio_engine.py), device queries and sample-rate detection are operating-system audio I/O. The model takes whether the headphone stream opened as a constructor parameter, the device list as a parameter, and the sample rate as `sr`.
- Locks and threads (`_lock`, `_mic_buf_lock`, the update-check thread). Each callback is one atomic sequential call.
- Writing to the headphone stream and its swallowed exception: `CableCallback` returns the block that would be written.
- Decoding (`librosa.load`), `os.remove` in `delete_sound` and the drop's `shutil.copy2` become parameters saying whether they worked. The directory scan of `load_sounds` is not modelled: `ClearSounds` models its first two lines and `LoadFile` models one file of its loop. The settings reload and the hotkey re-registration at its end are not modelled as one operation; `LoadSoundSettings` and `SetHotkey` are. `add_sound` (a file dialog, a move or copy, then `load_sounds`) is not modelled.
- `remove_sound` is an alias of `delete_sound` and has no member of its own.
- The keyboard library (`add_hotkey`, `remove_hotkey`, `unhook_all_hotkeys`) is a boolean parameter saying whether the call raised.
- JSON file I/O (`json.load`, `json.dump`, `save_config`): the file state is a `ConfigFile` parameter and the outcome of saving is a boolean.
- The network, the browser and the message boxes of updater.py, app.py and the dialogs. The running version that version.py supplies is the `current` parameter.
- Tk widgets, drawing (`_draw`), colours of buttons and `style_button`. The pixel width is a parameter. Key-event state is a natural number.
- The drop handler's follow-up after import (reloading the sounds, refreshing the UI and the message) is left out. So are `_save`'s callback and `dlg.destroy()`, and the button restyling of `_toggle_mon`.
- IEEE and float32 arithmetic, including `astype("float32")` and any rounding in `np.arange`. Samples and seconds are exact reals.
- Effects.PipelineDefined: the inputs on which numpy raises are preconditions, not an error path. These are the peak or interpolation of an empty buffer, a negative echo delay or fade length, and a zero-length fade-out of a non-empty buffer. `toggle_effect` and its siblings therefore require the new flags to be defined.
- Configuration.WellTyped: `load_sound_settings` is modelled only for a "sounds" entry that is a dictionary of dictionaries with numeric volumes and string or null hotkeys. Other JSON shapes, on which Python would raise or behave loosely, are excluded.
- Settings.Restore: a saved device id is read as an index when it is a number without a fractional part. JSON numbers are not split into int and float, so a saved `1.0` selects device 1, where Python raises and keeps the current entry. A saved boolean keeps the current entry, where Python indexes with it as 0 or 1.
- Configuration.LoadConfig: a file that parses to a list, number, string, boolean or null makes `load_config` raise; the model gives `None` and does not model what the caller does with the exception.
- PyInt.ParseInt: only ASCII digits are accepted. Python's `int()` also accepts the other Unicode decimal digits; the program only parses the text it wrote itself and version strings.
- AudioEngine.GainSetting: the mic and headphone gains must be numbers; `float()` of another JSON value is not modelled.
- AudioEngine.MixBlock: the records are required to be distinct, which a dictionary's values are when no two names share a record (`RecordsDistinct`).
- Common.Lower: ASCII case folding only. This is exact for the extension filter and for Tk keysyms, which are ASCII.
- Configuration.DefaultKeys: the defaults are the code's keys ("out", "headphone_out"), not the "mic_out"/"monitor_out" that the audio engine and the settings dialog read.
