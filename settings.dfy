/** The rules of the settings dialog in ui/settings.py: which audio devices
    are offered, the text of a dropdown entry and how a saved device is
    pre-selected, the theme labels, and how `_apply` writes the chosen
    theme and devices into the configuration, stopping early when no
    virtual-cable output is chosen. The device query is a parameter; the
    widgets and the dialogs are outside the model. */
module Settings {
  import opened Common
  import opened PyInt
  import opened Configuration
  import opened Themes

  /** The fields of a `sd.query_devices()` entry the dialog reads. */
  datatype Device = Device(name: string, maxInputChannels: int, maxOutputChannels: int)

  predicate Offers(d: Device, input: bool)
  {
    if input then d.maxInputChannels > 0 else d.maxOutputChannels > 0
  }

  /** `[(i, d["name"]) for i, d in enumerate(devices) if …]`: the input
      devices (`input`) or the output devices, with their indices. */
  function Pairs(devices: seq<Device>, input: bool): (r: seq<(nat, string)>)
    ensures forall p :: p in r <==> p.0 < |devices| && Offers(devices[p.0], input) && p.1 == devices[p.0].name
    ensures forall a, b :: 0 <= a < b < |r| ==> r[a].0 < r[b].0
    ensures forall a :: 0 <= a < |r| ==> r[a].0 < |devices|
  {
    if devices == [] then []
    else
      var n := |devices| - 1;
      var pre := Pairs(devices[..n], input);
      assert forall p :: p in pre ==> p.0 < n && devices[p.0] == devices[..n][p.0];
      if Offers(devices[n], input) then pre + [(n, devices[n].name)] else pre
  }

  /** `f"{i}: {n}"` */
  function OptionText(p: (nat, string)): (t: string)
    ensures |t| >= 1 && IsDigit(t[0])
  {
    NatToStr(p.0) + ": " + p.1
  }

  /** The dropdown entries for a device list. */
  function Options(pairs: seq<(nat, string)>): (r: seq<string>)
    ensures |r| == |pairs|
    ensures forall k :: 0 <= k < |pairs| ==> r[k] == OptionText(pairs[k])
  {
    seq(|pairs|, k requires 0 <= k < |pairs| => OptionText(pairs[k]))
  }

  const NoDevices: string := "(no devices found)"

  /** The entries `_dropdown` shows: the options, or the placeholder alone
      when there are none. */
  function Dropdown(options: seq<string>): (r: seq<string>)
    ensures options == [] ==> r == [NoDevices]
    ensures options != [] ==> r == options
  {
    if options == [] then [NoDevices] else options
  }

  /** `int(v.split(":")[0])`, `None` for the `ValueError`. */
  function SelectedIndex(v: string): (r: Option<int>)
    ensures ':' !in v ==> r == ParseInt(v)
  {
    if ':' !in v then SplitNoSep(v, ':'); ParseInt(Split(v, ':')[0]) else
    ParseInt(Split(v, ':')[0])
  }

  /** Reading an entry back gives the device index it was made from,
      whatever the device's name. */
  lemma SelectedIndexOfOption(p: (nat, string))
    ensures SelectedIndex(OptionText(p)) == Some(p.0 as int)
  {
    var digits := NatToStr(p.0);
    assert ':' !in digits;
    assert OptionText(p) == digits + [':'] + (" " + p.1);
    SplitAppend(digits, " " + p.1, ':');
    ParseIntToStr(p.0);
  }

  /** The list index a saved device id denotes: a JSON number without a
      fractional part. */
  function SavedIndex(saved: Option<Json>): (r: Option<int>)
    ensures r.Some? <==> saved.Some? && saved.value.JNum? && saved.value.n.Floor as real == saved.value.n
    ensures r.Some? ==> r.value as real == saved.value.n
  {
    if saved.Some? && saved.value.JNum? && saved.value.n.Floor as real == saved.value.n
    then Some(saved.value.n.Floor) else None
  }

  /** `_restore(var, saved_id)`: the entry text for a saved device index,
      `current` when nothing is saved or the index does not select a device
      (the exception is swallowed). Negative indices count from the end, as
      Python's list indexing does. */
  function Restore(current: string, saved: Option<Json>, devices: seq<Device>): (r: string)
    ensures saved.None? || saved.value.JNull? ==> r == current
    ensures SavedIndex(saved).None? ==> r == current
    ensures SavedIndex(saved).Some? && !(-|devices| <= SavedIndex(saved).value < |devices|) ==> r == current
    ensures SavedIndex(saved).Some? && 0 <= SavedIndex(saved).value < |devices| ==>
      r == IntToStr(SavedIndex(saved).value) + ": " + devices[SavedIndex(saved).value].name
    ensures SavedIndex(saved).Some? && -|devices| <= SavedIndex(saved).value < 0 ==>
      r == IntToStr(SavedIndex(saved).value) + ": " + devices[|devices| + SavedIndex(saved).value].name
  {
    var idx := SavedIndex(saved);
    if idx.None? then current
    else
      var k := idx.value;
      var m := |devices|;
      if 0 <= k < m then IntToStr(k) + ": " + devices[k].name
      else if -m <= k < 0 then IntToStr(k) + ": " + devices[m + k].name
      else current
  }

  /** A saved index of a device the dropdown offers pre-selects exactly
      that device's entry. */
  lemma RestoreSelectsOffered(current: string, i: nat, devices: seq<Device>, input: bool)
    requires i < |devices| && Offers(devices[i], input)
    ensures Restore(current, Some(JNum(i as real)), devices) in Options(Pairs(devices, input))
  {
    var p := (i, devices[i].name);
    RestoreIndex(current, i, devices);
    assert p in Pairs(devices, input);
    var k :| 0 <= k < |Pairs(devices, input)| && Pairs(devices, input)[k] == p;
    assert Options(Pairs(devices, input))[k] == OptionText(p);
  }

  /** A saved index within the list restores that device's entry text. */
  lemma RestoreIndex(current: string, i: nat, devices: seq<Device>)
    requires i < |devices|
    ensures Restore(current, Some(JNum(i as real)), devices) == OptionText((i, devices[i].name))
  {
    assert (i as real).Floor == i;
  }

  /** The headphone dropdown's first entry. */
  const MonitorOff: string := "None (disabled)"

  /** The headphone selection at opening: the saved device, or the
      "disabled" entry when none is saved. */
  function MonitorInitial(current: string, saved: Option<Json>, devices: seq<Device>): (r: string)
    ensures saved.None? || saved.value.JNull? ==> r == MonitorOff
    ensures saved.Some? && !saved.value.JNull? && SavedIndex(saved).None? ==> r == current
    ensures SavedIndex(saved).Some? && 0 <= SavedIndex(saved).value < |devices| ==>
      r == OptionText((SavedIndex(saved).value as nat, devices[SavedIndex(saved).value].name))
  {
    if saved.Some? && !saved.value.JNull? then Restore(current, saved, devices) else MonitorOff
  }

  const DarkLabel: string := "\U{1F311}  Dark Mode"

  /** `THEME_LABELS` */
  const ThemeLabels: map<string, string> := map[
    "dark" := DarkLabel,
    "light" := "\U{2600}\U{FE0F}   Light Mode",
    "purple" := "\U{1F49C}  Purple Dream"]

  /** `REV_THEME`, written out. */
  const RevTheme: map<string, string> := map[
    DarkLabel := "dark",
    "\U{2600}\U{FE0F}   Light Mode" := "light",
    "\U{1F49C}  Purple Dream" := "purple"]

  /** `REV_THEME` is the inverse of `THEME_LABELS`, and both cover exactly
      the themes of the theme table. */
  lemma RevThemeInverse()
    ensures forall t :: t in ThemeLabels ==> ThemeLabels[t] in RevTheme && RevTheme[ThemeLabels[t]] == t
    ensures forall l :: l in RevTheme ==> RevTheme[l] in ThemeLabels && ThemeLabels[RevTheme[l]] == l
    ensures ThemeLabels.Keys == Table.Keys
  {
    assert Table.Keys == {"dark", "light", "purple"};
  }

  /** `REV_THEME.get(shown, "dark")`. */
  function ThemeOfLabel(shown: string): (t: string)
    ensures shown !in RevTheme ==> t == "dark"
    ensures t in ThemeLabels
  {
    RevThemeInverse();
    if shown in RevTheme then RevTheme[shown] else "dark"
  }

  /** The theme entry at opening: `THEME_LABELS.get(config.get("theme",
      "dark"), "🌑  Dark Mode")`. A stored list or object is unhashable, so
      the lookup raises and the dialog does not open (`None`). */
  function InitialThemeLabel(entries: map<string, Json>): (shown: Option<string>)
    ensures shown.None? <==> "theme" in entries && (entries["theme"].JArr? || entries["theme"].JObj?)
    ensures shown.Some? ==> shown.value in RevTheme
    ensures "theme" !in entries ==> shown == Some(ThemeLabels["dark"])
    ensures "theme" in entries && entries["theme"].JStr? && entries["theme"].s in ThemeLabels ==>
      shown == Some(ThemeLabels[entries["theme"].s])
  {
    RevThemeInverse();
    if "theme" !in entries then Some(ThemeLabels["dark"])
    else if entries["theme"].JArr? || entries["theme"].JObj? then None
    else if entries["theme"].JStr? && entries["theme"].s in ThemeLabels then Some(ThemeLabels[entries["theme"].s])
    else Some(DarkLabel)
  }

  /** Opening the dialog and saving without touching the theme keeps the
      configured theme when it is a known one. */
  lemma ThemeKeptWhenUntouched(entries: map<string, Json>, t: string)
    requires "theme" in entries && entries["theme"] == JStr(t) && t in ThemeLabels
    ensures InitialThemeLabel(entries).Some? && ThemeOfLabel(InitialThemeLabel(entries).value) == t
  {
    RevThemeInverse();
  }

  /** A selection names a device: it is not empty and not the placeholder. */
  predicate DeviceChosen(v: string)
  {
    v != "" && !StartsWith(v, "(no")
  }

  /** The four dropdowns' values when "Save" is pressed. */
  datatype Selections = Selections(theme: string, mic: string, micOut: string, monitor: string)

  /** How `_apply` ends: it reached `on_apply`; it stopped at the missing
      virtual-cable output; or `int()` raised and the error was shown. */
  datatype Outcome = Applied | MissingDevice | Failed

  function IndexJson(i: int): Json { JNum(i as real) }

  /** What a device dropdown contributes: nothing when no device is chosen,
      otherwise the result of reading its index (`Some(None)` when `int()`
      raises). */
  function Reading(v: string): Option<Option<int>>
  {
    if DeviceChosen(v) then Some(SelectedIndex(v)) else None
  }

  /** The headphone dropdown: nothing for the "None …" entry, otherwise the
      result of reading its index. */
  function MonitorReading(v: string): Option<Option<int>>
  {
    if StartsWith(v, "None") then None else Some(SelectedIndex(v))
  }

  /** The writes of `_apply` in order, given what each dropdown read;
      every write before the point where it stops stays in place. */
  function Written(entries: map<string, Json>, theme: string, mic: Option<Option<int>>,
                   out: Option<Option<int>>, mon: Option<Option<int>>): (r: (map<string, Json>, Outcome))
    ensures forall k :: k in entries && k != "theme" && k != "mic" && k != "mic_out" && k != "monitor_out" ==>
      k in r.0 && r.0[k] == entries[k]
    ensures forall k :: k in r.0 ==> k in entries || k == "theme" || k == "mic" || k == "mic_out" || k == "monitor_out"
    ensures r.1 == Applied <==> mic != Some(None) && out.Some? && out.value.Some? && !(mon.Some? && mon.value.None?)
    ensures r.1 == MissingDevice <==> mic != Some(None) && out.None?
  {
    var e1 := entries["theme" := JStr(theme)];
    if mic == Some(None) then (e1, Failed)
    else
      var e2 := if mic.Some? then e1["mic" := IndexJson(mic.value.value)] else e1;
      if out.None? then (e2, MissingDevice)
      else if out.value.None? then (e2, Failed)
      else
        var e3 := e2["mic_out" := IndexJson(out.value.value)];
        if mon.None? then (e3["monitor_out" := JNull], Applied)
        else if mon.value.None? then (e3, Failed)
        else (e3["monitor_out" := IndexJson(mon.value.value)], Applied)
  }

  /** The configuration `_apply` leaves and how it ends. */
  function ApplyResult(entries: map<string, Json>, sel: Selections): (r: (map<string, Json>, Outcome))
    ensures r.1 == MissingDevice ==> !DeviceChosen(sel.micOut)
    ensures r.1 == Applied ==> DeviceChosen(sel.micOut) && SelectedIndex(sel.micOut).Some?
  {
    Written(entries, ThemeOfLabel(sel.theme), Reading(sel.mic), Reading(sel.micOut), MonitorReading(sel.monitor))
  }

  /** The theme is written whatever happens next. */
  lemma ThemeAlwaysWritten(entries: map<string, Json>, sel: Selections)
    ensures ApplyResult(entries, sel).0["theme"] == JStr(ThemeOfLabel(sel.theme))
  {
    WrittenTheme(entries, ThemeOfLabel(sel.theme), Reading(sel.mic), Reading(sel.micOut), MonitorReading(sel.monitor));
  }

  lemma WrittenTheme(entries: map<string, Json>, theme: string, mic: Option<Option<int>>,
                     out: Option<Option<int>>, mon: Option<Option<int>>)
    ensures "theme" in Written(entries, theme, mic, out, mon).0
    ensures Written(entries, theme, mic, out, mon).0["theme"] == JStr(theme)
  {
  }

  lemma WrittenMicKept(entries: map<string, Json>, theme: string, mic: Option<Option<int>>,
                       out: Option<Option<int>>, mon: Option<Option<int>>)
    requires mic.None?
    ensures var e := Written(entries, theme, mic, out, mon).0;
      ("mic" in e <==> "mic" in entries) && ("mic" in e ==> e["mic"] == entries["mic"])
  {
  }

  /** Without a virtual-cable output the dialog stops: "mic_out" and
      "monitor_out" and every other key except "theme" and "mic" are as they
      were, and `on_apply` is not reached. */
  lemma MissingDeviceAborts(entries: map<string, Json>, sel: Selections)
    requires !DeviceChosen(sel.micOut)
    ensures ApplyResult(entries, sel).1 != Applied
    ensures var e := ApplyResult(entries, sel).0;
      forall k :: k != "theme" && k != "mic" ==> (k in e <==> k in entries) && (k in e ==> e[k] == entries[k])
    ensures !(DeviceChosen(sel.mic) && SelectedIndex(sel.mic).None?) ==> ApplyResult(entries, sel).1 == MissingDevice
  {
  }

  /** An empty or placeholder microphone selection leaves "mic" alone. */
  lemma MicKeptUnlessChosen(entries: map<string, Json>, sel: Selections)
    requires !DeviceChosen(sel.mic)
    ensures var e := ApplyResult(entries, sel).0;
      ("mic" in e <==> "mic" in entries) && ("mic" in e ==> e["mic"] == entries["mic"])
  {
    WrittenMicKept(entries, ThemeOfLabel(sel.theme), Reading(sel.mic), Reading(sel.micOut), MonitorReading(sel.monitor));
  }

  /** A headphone selection starting with "None" stores null; any other
      complete run stores the parsed index. */
  lemma MonitorEntry(entries: map<string, Json>, sel: Selections)
    requires ApplyResult(entries, sel).1 == Applied
    ensures StartsWith(sel.monitor, "None") ==> ApplyResult(entries, sel).0["monitor_out"] == JNull
    ensures !StartsWith(sel.monitor, "None") ==>
      SelectedIndex(sel.monitor).Some? &&
      ApplyResult(entries, sel).0["monitor_out"] == IndexJson(SelectedIndex(sel.monitor).value)
  {
  }

  /** Choosing a theme label and three device entries stores exactly the
      chosen theme and device indices and reaches `on_apply`. */
  lemma ApplyChosenEntries(entries: map<string, Json>, t: string, mic: (nat, string), out: (nat, string), mon: (nat, string))
    requires t in ThemeLabels
    ensures var sel := Selections(ThemeLabels[t], OptionText(mic), OptionText(out), OptionText(mon));
      ApplyResult(entries, sel) ==
        (entries["theme" := JStr(t)]["mic" := IndexJson(mic.0)]["mic_out" := IndexJson(out.0)]["monitor_out" := IndexJson(mon.0)],
         Applied)
  {
    RevThemeInverse();
    SelectedIndexOfOption(mic);
    SelectedIndexOfOption(out);
    SelectedIndexOfOption(mon);
    OptionChosen(mic);
    OptionChosen(out);
    OptionChosen(mon);
  }

  /** A device entry is a real choice and is not the "disabled" entry. */
  lemma OptionChosen(p: (nat, string))
    ensures DeviceChosen(OptionText(p)) && !StartsWith(OptionText(p), "None")
  {
    var t := OptionText(p);
    assert t[0] == NatToStr(p.0)[0];
    assert IsDigit(t[0]);
  }

  /** The "disabled" entry stores null for the headphones. */
  lemma DisabledEntryStoresNull()
    ensures StartsWith(MonitorOff, "None")
  {
  }

  /** `_apply` on the shared configuration and theme state: the keys are
      written one after another and the theme is switched only when the run
      reaches `on_apply`. */
  method Apply(config: Config, theme: ThemeState, sel: Selections) returns (outcome: Outcome)
    modifies config, theme
    ensures (config.entries, outcome) == ApplyResult(old(config.entries), sel)
    ensures outcome == Applied ==>
      theme.current == ThemeOfLabel(sel.theme) && theme.colours == old(theme.colours) + Table[theme.current]
    ensures outcome != Applied ==> theme.current == old(theme.current) && theme.colours == old(theme.colours)
  {
    var newTheme := ThemeOfLabel(sel.theme);
    config.entries := config.entries["theme" := JStr(newTheme)];

    if DeviceChosen(sel.mic) {
      var mic := SelectedIndex(sel.mic);
      if mic.None? {
        return Failed;
      }
      config.entries := config.entries["mic" := IndexJson(mic.value)];
    }

    if !DeviceChosen(sel.micOut) {
      return MissingDevice;
    }
    var out := SelectedIndex(sel.micOut);
    if out.None? {
      return Failed;
    }
    config.entries := config.entries["mic_out" := IndexJson(out.value)];

    if StartsWith(sel.monitor, "None") {
      config.entries := config.entries["monitor_out" := JNull];
    } else {
      var mon := SelectedIndex(sel.monitor);
      if mon.None? {
        return Failed;
      }
      config.entries := config.entries["monitor_out" := IndexJson(mon.value)];
    }

    theme.SetTheme(newTheme);
    outcome := Applied;
  }
}
