/** The per-sound record that every module of the program shares: the sound
    manager creates it, the effects pipeline rebuilds its samples, the mixer
    advances its position and the config module persists its volume and
    hotkey. A key the program may leave out of the dictionary is an `Option`
    field. */
module SoundRecord {
  import opened Common

  class Sound {
    /** `data`: the playable samples the mixer reads. */
    var data: seq<real>
    /** `original_data`: the clean copy every rebuild starts from. */
    var originalData: Option<seq<real>>
    /** `pos`: index of the next sample to play. */
    var pos: int
    var playing: bool
    var volume: real
    var hotkey: Option<string>
    /** `effects`: effect key to on/off flag. */
    var effects: Option<map<string, bool>>
    /** `effect_params`: parameter name to value. */
    var effectParams: Option<map<string, real>>

    /** The record `load_sounds` creates for a decoded file. */
    constructor (samples: seq<real>)
      ensures data == samples && pos == 0 && !playing && volume == 1.0 && hotkey == None
      ensures originalData == None && effects == None && effectParams == None
    {
      data := samples;
      originalData := None;
      pos := 0;
      playing := false;
      volume := 1.0;
      hotkey := None;
      effects := None;
      effectParams := None;
    }

    /** The position invariant the mixer keeps. */
    ghost predicate PosInRange()
      reads this`pos, this`data
    {
      0 <= pos <= |data|
    }
  }

  /** Python truthiness of a stored hotkey: `None` and `""` are false. */
  predicate HotkeySet(h: Option<string>)
  {
    h.Some? && h.value != ""
  }

  /** No two names share one record. */
  ghost predicate Distinct(m: map<string, Sound>)
  {
    forall a, b :: a in m && b in m && a != b ==> m[a] != m[b]
  }
}
