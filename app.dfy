/** The rules of app.py that are not drawing: the hotkey dialog's key
    capture and save, the "Hear Myself" switch of the master controls, and
    the extension filter of drag-and-drop import. Tk events arrive as their
    `keysym` and `state`; copying files, `save_config`, the dialogs and the
    rebuilt window are outside the model. */
module App {
  import opened Common
  import opened Configuration
  import opened SoundManager
  import opened AudioEngine
  import opened SoundRecord

  // ----- hotkey dialog -----

  /** The keysyms of a bare modifier key, which `_key` ignores. */
  const ModifierKeys: seq<string> := ["Shift_L", "Shift_R", "Control_L", "Control_R", "Alt_L", "Alt_R"]

  /** The modifier names and the `state` bit each one is read from, in the
      order the captured string lists them. */
  const ModifierTable: seq<(string, nat)> := [("shift", 0x1), ("ctrl", 0x4), ("alt", 0x8)]

  /** `state & mask` is non-zero, for a single-bit `mask`. */
  predicate HasBit(state: nat, mask: nat)
    requires mask > 0
  {
    (state / mask) % 2 == 1
  }

  /** The names of `table` whose bit is set in `state`, in table order. */
  function ModsFrom(table: seq<(string, nat)>, state: nat): (r: seq<string>)
    requires forall k :: 0 <= k < |table| ==> table[k].1 > 0
    ensures |r| <= |table|
    ensures forall n :: n in r ==> exists k :: 0 <= k < |table| && table[k].0 == n
  {
    if table == [] then []
    else
      var rest := ModsFrom(table[1..], state);
      assert forall n :: n in rest ==> exists k :: 0 <= k < |table| && table[k].0 == n by {
        forall n | n in rest
          ensures exists k :: 0 <= k < |table| && table[k].0 == n
        {
          var j :| 0 <= j < |table[1..]| && table[1..][j].0 == n;
          assert table[j + 1].0 == n;
        }
      }
      (if HasBit(state, table[0].1) then [table[0].0] else []) + rest
  }

  /** The modifiers held during a key event. */
  function Mods(state: nat): (r: seq<string>)
    ensures |r| <= 3
    ensures forall n :: n in r ==> n == "shift" || n == "ctrl" || n == "alt"
  {
    ModsFrom(ModifierTable, state)
  }

  /** The captured string of a key event: the modifiers and the lower-cased
      keysym, joined by "+". */
  function Hotkey(keysym: string, state: nat): (r: string)
    ensures EndsWith(r, Lower(keysym))
  {
    JoinEndsWithLast(Mods(state) + [Lower(keysym)], '+');
    Join(Mods(state) + [Lower(keysym)], '+')
  }

  /** Where a modifier name stands in the fixed order. */
  function Rank(n: string): nat
  {
    if n == "shift" then 0 else if n == "ctrl" then 1 else 2
  }

  /** A modifier name is listed exactly when its bit is set, the names come
      in the order shift, ctrl, alt, and none is listed twice. */
  lemma ModsListed(state: nat)
    ensures "shift" in Mods(state) <==> HasBit(state, 0x1)
    ensures "ctrl" in Mods(state) <==> HasBit(state, 0x4)
    ensures "alt" in Mods(state) <==> HasBit(state, 0x8)
    ensures forall n :: n in Mods(state) ==> n == "shift" || n == "ctrl" || n == "alt"
    ensures forall i, j :: 0 <= i < j < |Mods(state)| ==> Rank(Mods(state)[i]) < Rank(Mods(state)[j])
  {
    ModsUnrolled(state);
  }

  /** `Mods` written out for the three modifiers. */
  lemma ModsUnrolled(state: nat)
    ensures Mods(state) ==
      (if HasBit(state, 0x1) then ["shift"] else []) +
      (if HasBit(state, 0x4) then ["ctrl"] else []) +
      (if HasBit(state, 0x8) then ["alt"] else [])
  {
    var t2 := ModsFrom(ModifierTable[2..], state);
    var t1 := ModsFrom(ModifierTable[1..], state);
    assert ModifierTable[1..][1..] == ModifierTable[2..];
    assert ModifierTable[2..][1..] == [];
    assert t2 == (if HasBit(state, 0x8) then ["alt"] else []);
    assert t1 == (if HasBit(state, 0x4) then ["ctrl"] else []) + t2;
  }

  /** A key event without Shift, Control or Alt captures the key alone. */
  lemma BareKey(keysym: string, state: nat)
    requires !HasBit(state, 0x1) && !HasBit(state, 0x4) && !HasBit(state, 0x8)
    ensures Hotkey(keysym, state) == Lower(keysym)
  {
    ModsUnrolled(state);
    assert Mods(state) + [Lower(keysym)] == [Lower(keysym)];
  }

  /** Splitting a captured string on "+" gives the modifiers followed by the
      key: the key always comes last. */
  lemma HotkeyParts(keysym: string, state: nat)
    requires '+' !in keysym
    ensures Split(Hotkey(keysym, state), '+') == Mods(state) + [Lower(keysym)]
  {
    var parts := Mods(state) + [Lower(keysym)];
    ModsListed(state);
    assert '+' !in Lower(keysym) by {
      forall i | 0 <= i < |keysym|
        ensures Lower(keysym)[i] != '+'
      {
        assert keysym[i] != '+';
      }
    }
    forall k | 0 <= k < |parts|
      ensures '+' !in parts[k]
    {
      if k < |Mods(state)| {
        assert Mods(state)[k] in Mods(state);
      }
    }
    SplitJoin(parts, '+');
  }

  /** The hotkey dialog: `captured[0]` and the text of the result label. */
  class HotkeyDialog {
    var captured: Option<string>
    var shown: string

    constructor ()
      ensures captured == None && shown == "—"
    {
      captured := None;
      shown := "—";
    }

    /** `_key`: a bare modifier key changes nothing; any other key captures
        the modifiers and the key and shows them. */
    method Key(keysym: string, state: nat)
      modifies this
      ensures keysym in ModifierKeys ==> captured == old(captured) && shown == old(shown)
      ensures keysym !in ModifierKeys ==>
        captured == Some(Hotkey(keysym, state)) && shown == Hotkey(keysym, state)
    {
      if keysym in ModifierKeys {
        return;
      }
      var mods: seq<string> := [];
      if HasBit(state, 0x1) {
        mods := mods + ["shift"];
      }
      if HasBit(state, 0x4) {
        mods := mods + ["ctrl"];
      }
      if HasBit(state, 0x8) {
        mods := mods + ["alt"];
      }
      ModsUnrolled(state);
      assert mods == Mods(state);
      var text := Join(mods + [Lower(keysym)], '+');
      captured := Some(text);
      shown := text;
    }

    /** Whether `_save` goes ahead: something non-empty was captured. */
    predicate Ready()
      reads this`captured
    {
      captured.Some? && captured.value != ""
    }

    /** `_save`: with nothing captured nothing happens; otherwise the
        captured string goes to `set_hotkey` (saving the settings) and the
        dialog closes, whether or not the hotkey library accepted it. */
    method Save(board: SoundBoard, name: string, addOk: bool, removeOk: bool, saveOk: bool)
      returns (closed: bool)
      requires board.Valid()
      modifies board.sounds.Values`hotkey, board`registered, board.config
      ensures board.Valid()
      ensures closed <==> old(Ready())
      ensures !closed ==> board.registered == old(board.registered)
      ensures !closed ==> forall n :: n in board.sounds ==> board.sounds[n].hotkey == old(board.sounds[n].hotkey)
      ensures !closed && board.config != null ==> board.config.entries == old(board.config.entries)
      ensures closed && name in board.sounds && !IsBlank(captured.value) && addOk ==>
        board.sounds[name].hotkey == Some(captured.value)
      ensures closed && name in board.sounds && !IsBlank(captured.value) && !addOk ==>
        board.sounds[name].hotkey == if HotkeySet(old(board.sounds[name].hotkey)) then None else old(board.sounds[name].hotkey)
      ensures closed && name in board.sounds && IsBlank(captured.value) ==> board.sounds[name].hotkey == None
      ensures closed && name in board.sounds ==>
        board.registered == HotkeyRegistry(old(board.registered), old(board.sounds[name].hotkey),
                                           captured.value, name, addOk, removeOk)
      ensures closed && name !in board.sounds ==> board.registered == old(board.registered)
      ensures closed ==> forall n :: n in board.sounds && n != name ==> board.sounds[n].hotkey == old(board.sounds[n].hotkey)
      ensures closed && board.config != null ==>
        board.config.entries ==
          if name in board.sounds && (IsBlank(captured.value) || addOk)
          then SavedConfig(old(board.config.entries), SettingsOf(board.sounds))
          else old(board.config.entries)
    {
      if !Ready() {
        return false;
      }
      var _ := board.SetHotkey(name, captured.value, true, addOk, removeOk, saveOk);
      closed := true;
    }
  }

  // ----- "Hear Myself" switch -----

  const MonitorKey: string := "monitor_enabled"

  /** Python's truth value of a JSON value. */
  predicate Truthy(j: Json)
    ensures j.JBool? ==> (Truthy(j) <==> j.b)
    ensures j.JNull? ==> !Truthy(j)
  {
    match j
    case JNull => false
    case JBool(b) => b
    case JNum(n) => n != 0.0
    case JStr(s) => s != ""
    case JArr(items) => items != []
    case JObj(fields) => fields != map[]
  }

  /** `config.get("monitor_enabled", True)`, as the switch reads it. */
  predicate MonitorSetting(entries: map<string, Json>)
    ensures MonitorKey !in entries ==> MonitorSetting(entries)
    ensures MonitorKey in entries && entries[MonitorKey].JBool? ==> (MonitorSetting(entries) <==> entries[MonitorKey].b)
  {
    MonitorKey !in entries || Truthy(entries[MonitorKey])
  }

  /** `_mon_lbl` */
  function MonLabel(on: bool): (text: string)
    ensures text == "Hear Myself: ON" <==> on
  {
    if on then "Hear Myself: ON" else "Sounds Only"
  }

  /** Monitoring starts on for the default configuration and for one that
      does not mention it. */
  lemma MonitorOnByDefault(entries: map<string, Json>)
    requires MonitorKey !in entries
    ensures MonitorSetting(entries) && MonitorSetting(DefaultConfig)
    ensures MonLabel(MonitorSetting(entries)) == "Hear Myself: ON"
  {
  }

  /** The master controls' `mon[0]`. */
  class MonitorSwitch {
    var on: bool

    constructor (entries: map<string, Json>)
      ensures on == MonitorSetting(entries)
    {
      on := MonitorSetting(entries);
    }

    function Label(): (text: string)
      reads this`on
      ensures text == "Hear Myself: ON" <==> on
    {
      MonLabel(on)
    }

    /** `_toggle_mon`: the switch flips, the configuration stores the new
        value as a boolean, and a running engine follows it. */
    method Toggle(config: Config, engine: Engine?)
      modifies this`on, config`entries, engine
      ensures on == !old(on)
      ensures config.entries == old(config.entries)[MonitorKey := JBool(on)]
      ensures MonitorSetting(config.entries) == on
      ensures engine != null ==> engine.monitorEnabled == on && unchanged(engine`micBuf, engine`monitorOpen)
    {
      on := !on;
      config.entries := config.entries[MonitorKey := JBool(on)];
      if engine != null {
        engine.SetMonitorEnabled(on);
      }
    }

    /** Two presses give the switch, the engine and the stored entry the
        value the switch had before. */
    method ToggleTwice(config: Config, engine: Engine?)
      modifies this`on, config`entries, engine
      ensures on == old(on)
      ensures config.entries == old(config.entries)[MonitorKey := JBool(on)]
      ensures engine != null ==> engine.monitorEnabled == on
    {
      Toggle(config, engine);
      Toggle(config, engine);
    }
  }

  // ----- drag-and-drop import -----

  /** The extensions `_drop` accepts. */
  const DropExts: seq<string> := [".mp3", ".wav", ".ogg", ".flac"]

  /** `fp.lower().endswith((".mp3", ".wav", ".ogg", ".flac"))` */
  predicate Droppable(fp: string)
    ensures Droppable(fp) ==> |fp| >= 4
  {
    exists k :: 0 <= k < |DropExts| && EndsWith(Lower(fp), DropExts[k])
  }

  /** A dropped file is accepted exactly when the sound loader would read
      it: the two extension lists name the same extensions. */
  lemma DropMatchesLoad(fp: string)
    ensures Droppable(fp) <==> IsSupportedFile(fp)
  {
    var l := Lower(fp);
    assert DropExts[0] == SupportedExts[1] && DropExts[1] == SupportedExts[0];
    assert DropExts[2] == SupportedExts[2] && DropExts[3] == SupportedExts[3];
    if Droppable(fp) {
      var k :| 0 <= k < |DropExts| && EndsWith(l, DropExts[k]);
      var j := if k == 0 then 1 else if k == 1 then 0 else k;
      assert EndsWith(l, SupportedExts[j]);
    }
    if IsSupportedFile(fp) {
      var k :| 0 <= k < |SupportedExts| && EndsWith(l, SupportedExts[k]);
      var j := if k == 0 then 1 else if k == 1 then 0 else k;
      assert EndsWith(l, DropExts[j]);
    }
  }

  /** The dropped paths that end up in the sounds folder: the accepted ones
      whose copy succeeded (`copied[k]`), in drop order. */
  function Imported(paths: seq<string>, copied: seq<bool>): (r: seq<string>)
    requires |copied| == |paths|
    ensures |r| <= |paths|
  {
    if paths == [] then []
    else
      var n := |paths| - 1;
      Imported(paths[..n], copied[..n]) + (if Droppable(paths[n]) && copied[n] then [paths[n]] else [])
  }

  /** The imported paths are exactly the dropped paths that were accepted
      and copied. */
  lemma {:induction false} ImportedExactly(paths: seq<string>, copied: seq<bool>)
    requires |copied| == |paths|
    ensures forall p :: p in Imported(paths, copied) ==>
      exists k :: 0 <= k < |paths| && paths[k] == p && Droppable(p) && copied[k]
    ensures forall k :: 0 <= k < |paths| && Droppable(paths[k]) && copied[k] ==> paths[k] in Imported(paths, copied)
  {
    if paths != [] {
      var n := |paths| - 1;
      ImportedExactly(paths[..n], copied[..n]);
      assert forall k :: 0 <= k < n ==> paths[..n][k] == paths[k] && copied[..n][k] == copied[k];
    }
  }

  /** The counting loop of `_drop`. */
  method CountImported(paths: seq<string>, copied: seq<bool>) returns (imported: nat)
    requires |copied| == |paths|
    ensures imported == |Imported(paths, copied)|
  {
    imported := 0;
    var i := 0;
    while i < |paths|
      invariant 0 <= i <= |paths|
      invariant imported == |Imported(paths[..i], copied[..i])|
    {
      ImportedStep(paths, copied, i);
      if Droppable(paths[i]) && copied[i] {
        imported := imported + 1;
      }
      i := i + 1;
    }
    assert paths[..i] == paths && copied[..i] == copied;
  }

  /** One more path of the loop adds it when it was accepted and copied. */
  lemma ImportedStep(paths: seq<string>, copied: seq<bool>, i: nat)
    requires |copied| == |paths| && i < |paths|
    ensures |Imported(paths[..i + 1], copied[..i + 1])| ==
      |Imported(paths[..i], copied[..i])| + (if Droppable(paths[i]) && copied[i] then 1 else 0)
  {
    assert paths[..i + 1][..i] == paths[..i] && copied[..i + 1][..i] == copied[..i];
  }

  /** Without an accepted extension nothing is imported, whatever the
      copies would have done. */
  lemma NothingAcceptedNothingImported(paths: seq<string>, copied: seq<bool>)
    requires |copied| == |paths|
    requires forall k :: 0 <= k < |paths| ==> !Droppable(paths[k])
    ensures Imported(paths, copied) == []
  {
    ImportedExactly(paths, copied);
  }
}
