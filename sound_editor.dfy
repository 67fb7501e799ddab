/** The trim handles of ui/sound_editor.py: the `WaveformCanvas` mapping
    between seconds and pixels, its drag state machine, and the guard of
    the editor's "Apply Trim" button. The canvas width (`winfo_width`) and
    the pointer position are parameters; drawing is outside the model. */
module SoundEditor {
  import opened Common
  import opened SoundRecord
  import opened Effects

  /** `HANDLE_W`: half-width of a handle's grip. */
  const HandleW: int := 10
  /** A press this close (in pixels) to a handle grabs it. */
  const GrabZone: int := HandleW + 4
  /** The shortest selection a drag keeps and a trim accepts (seconds). */
  const MinSelection: real := 0.05
  /** The duration a canvas shows at least (seconds). */
  const MinTotal: real := 0.001

  function AbsInt(x: int): int { if x < 0 then -x else x }

  /** `_sec_to_x`: the pixel column of a time, 0 on a canvas too narrow to
      draw on or for a non-positive duration. */
  function SecToX(sec: real, total: real, w: int): (x: int)
    ensures w < 2 || total <= 0.0 ==> x == 0
  {
    if w < 2 || total <= 0.0 then 0 else Trunc((sec / total) * w as real)
  }

  /** `_x_to_sec`: the time under a pixel column, clamped to the clip; 0 on
      a canvas too narrow to draw on. */
  function XToSec(x: int, total: real, w: int): (sec: real)
    ensures w < 2 ==> sec == 0.0
    ensures w >= 2 && total >= 0.0 ==> 0.0 <= sec <= total
  {
    if w < 2 then 0.0 else MaxReal(0.0, MinReal(total, (x as real / w as real) * total))
  }

  /** A time within the clip maps to a column within the canvas. */
  lemma SecToXOnCanvas(sec: real, total: real, w: int)
    requires w >= 2 && total > 0.0 && 0.0 <= sec <= total
    ensures 0 <= SecToX(sec, total, w) <= w
  {
    var q := sec / total;
    assert 0.0 <= q <= 1.0 by {
      DivBounds(sec, total);
    }
    MulUnit(q, w as real);
    var x := Trunc(q * w as real);
    assert x as real <= w as real;
  }

  /** Mapping a time to its column and back loses less than one column's
      worth of time, and never moves the time later. */
  lemma RoundTrip(sec: real, total: real, w: int)
    requires w >= 2 && total > 0.0 && 0.0 <= sec <= total
    ensures XToSec(SecToX(sec, total, w), total, w) <= sec
    ensures sec - XToSec(SecToX(sec, total, w), total, w) < total / w as real
  {
    var wr := w as real;
    var q := (sec / total) * wr;
    var x := SecToX(sec, total, w);
    assert x == Trunc(q);
    DivBounds(sec, total);
    MulUnit(sec / total, wr);
    var back := (x as real / wr) * total;
    ColumnTime(sec, total, wr, q, x as real, back);
    ColumnClamp(x, total, w, back);
  }

  /** Column `x`'s time needs no clamping when it lies within the clip. */
  lemma ColumnClamp(x: int, total: real, w: int, back: real)
    requires w >= 2 && back == (x as real / w as real) * total && 0.0 <= back <= total
    ensures XToSec(x, total, w) == back
  {
  }

  /** The time of column `x` is at most `sec` and less than one column
      before it, when `x <= q < x + 1` for `q = sec / total * w`. */
  lemma ColumnTime(sec: real, total: real, w: real, q: real, x: real, back: real)
    requires w > 0.0 && total > 0.0 && q == (sec / total) * w
    requires 0.0 <= x <= q < x + 1.0 && back == (x / w) * total
    ensures 0.0 <= back <= sec && sec - back < total / w
  {
    assert sec == (q / w) * total;
    assert sec - back == ((q - x) / w) * total;
    assert (q - x) / w < 1.0 / w;
    assert ((q - x) / w) * total < (1.0 / w) * total;
  }

  lemma DivBounds(a: real, b: real)
    requires b > 0.0 && 0.0 <= a <= b
    ensures 0.0 <= a / b <= 1.0
  {
  }

  lemma MulUnit(q: real, w: real)
    requires 0.0 <= q <= 1.0 && w >= 0.0
    ensures 0.0 <= q * w <= w
  {
  }

  datatype Handle = Left | Right

  /** The handle `_press` grabs at column `x` with the handles at `lx` and
      `rx`: the left one when close enough (it wins when both are), else the
      right one when close enough, else none. */
  function Grab(x: int, lx: int, rx: int): (h: Option<Handle>)
    ensures h == Some(Left) <==> AbsInt(x - lx) <= GrabZone
    ensures h == Some(Right) <==> AbsInt(x - lx) > GrabZone && AbsInt(x - rx) <= GrabZone
    ensures h == None <==> AbsInt(x - lx) > GrabZone && AbsInt(x - rx) > GrabZone
  {
    if AbsInt(x - lx) <= GrabZone then Some(Left)
    else if AbsInt(x - rx) <= GrabZone then Some(Right)
    else None
  }

  /** The new start of a left drag to `sec`: the drag position, but never
      closer than `MinSelection` to the end. */
  function DraggedStart(sec: real, end: real): (start: real)
    ensures start <= sec && end - start >= MinSelection
    ensures start == sec || end - start == MinSelection
  {
    MinReal(sec, end - MinSelection)
  }

  /** The new end of a right drag to `sec`: the drag position, but never
      closer than `MinSelection` to the start. */
  function DraggedEnd(sec: real, start: real): (end: real)
    ensures end >= sec && end - start >= MinSelection
    ensures end == sec || end - start == MinSelection
  {
    MaxReal(sec, start + MinSelection)
  }

  /** The duration a canvas shows for a buffer of `n` samples. */
  function Duration(n: nat, sr: real): (total: real)
    requires sr > 0.0
    ensures total >= MinTotal
    ensures n as real / sr >= MinTotal ==> total == n as real / sr
  {
    MaxReal(n as real / sr, MinTotal)
  }

  /** `len(sound.get("original_data", sound["data"]))`. */
  function SourceLength(s: Sound): nat
    reads s`originalData, s`data
  {
    |OriginalOf(s.originalData, s.data)|
  }

  class WaveformCanvas {
    const sound: Sound
    /** `_drag` */
    var drag: Option<Handle>
    /** `_total`: the clip's duration in seconds. */
    var total: real
    /** `_trim_start` and `_trim_end`, in seconds. */
    var trimStart: real
    var trimEnd: real

    /** A canvas for `sound`: no drag, the handles at both ends. */
    constructor (sound: Sound, sr: real)
      requires sr > 0.0
      ensures this.sound == sound && drag == None
      ensures total == Duration(SourceLength(sound), sr)
      ensures trimStart == 0.0 && trimEnd == total
    {
      this.sound := sound;
      drag := None;
      var t := Duration(SourceLength(sound), sr);
      total := t;
      trimStart := 0.0;
      trimEnd := t;
    }

    /** `_press` at column `x` on a canvas `w` pixels wide. */
    method Press(x: int, w: int)
      modifies this`drag
      ensures drag == Grab(x, SecToX(trimStart, total, w), SecToX(trimEnd, total, w))
    {
      var lx := SecToX(trimStart, total, w);
      var rx := SecToX(trimEnd, total, w);
      if AbsInt(x - lx) <= GrabZone {
        drag := Some(Left);
      } else if AbsInt(x - rx) <= GrabZone {
        drag := Some(Right);
      } else {
        drag := None;
      }
    }

    /** `_motion` to column `x`: without a drag nothing changes; a left drag
        moves only the start, a right drag only the end, and either leaves
        the selection at least `MinSelection` long. */
    method Motion(x: int, w: int)
      modifies this`trimStart, this`trimEnd
      ensures drag == None ==> trimStart == old(trimStart) && trimEnd == old(trimEnd)
      ensures drag == Some(Left) ==>
        trimStart == DraggedStart(XToSec(x, total, w), old(trimEnd)) && trimEnd == old(trimEnd)
      ensures drag == Some(Right) ==>
        trimEnd == DraggedEnd(XToSec(x, total, w), old(trimStart)) && trimStart == old(trimStart)
      ensures drag != None ==> trimEnd - trimStart >= MinSelection
    {
      if drag == None {
        return;
      }
      var sec := XToSec(x, total, w);
      if drag == Some(Left) {
        trimStart := MinReal(sec, trimEnd - MinSelection);
      } else {
        trimEnd := MaxReal(sec, trimStart + MinSelection);
      }
    }

    /** `_release` */
    method Release()
      modifies this`drag
      ensures drag == None
    {
      drag := None;
    }

    /** `reset_handles`: the duration is read again from the record and the
        handles go back to both ends. */
    method ResetHandles(sr: real)
      requires sr > 0.0
      modifies this`total, this`trimStart, this`trimEnd
      ensures total == Duration(SourceLength(sound), sr)
      ensures trimStart == 0.0 && trimEnd == total
    {
      var t := Duration(SourceLength(sound), sr);
      total := t;
      trimStart := 0.0;
      trimEnd := t;
    }

    /** `get_trim` */
    function GetTrim(): (r: (real, real))
      reads this`trimStart, this`trimEnd
      ensures r.0 == trimStart && r.1 == trimEnd
    {
      (trimStart, trimEnd)
    }
  }

  /** `_apply_trim`: a selection shorter than `MinSelection` is refused and
      nothing changes; otherwise the record is trimmed to the selection and
      the handles are reset. */
  method ApplyTrim(canvas: WaveformCanvas, sr: real) returns (applied: bool)
    requires sr > 0.0
    requires var t := TrimmedOriginal(OriginalOf(canvas.sound.originalData, canvas.sound.data),
                                      canvas.trimStart, canvas.trimEnd, sr);
             t.Some? ==> PipelineDefined(t.value, EffectsOf(canvas.sound.effects), ParamsOf(canvas.sound.effectParams), sr)
    modifies canvas.sound, canvas`total, canvas`trimStart, canvas`trimEnd
    ensures applied <==> old(canvas.trimEnd - canvas.trimStart) >= MinSelection
    ensures !applied ==> unchanged(canvas.sound) && unchanged(canvas)
    ensures applied ==>
      var t := TrimmedOriginal(OriginalOf(old(canvas.sound.originalData), old(canvas.sound.data)),
                               old(canvas.trimStart), old(canvas.trimEnd), sr);
      && canvas.sound.effects == Some(EffectsOf(old(canvas.sound.effects)))
      && canvas.sound.effectParams == Some(ParamsOf(old(canvas.sound.effectParams)))
      && (t.Some? ==>
            && canvas.sound.originalData == t && canvas.sound.pos == 0
            && canvas.sound.data ==
                 Pipeline(t.value, EffectsOf(old(canvas.sound.effects)), ParamsOf(old(canvas.sound.effectParams)), sr))
      && (t.None? ==>
            && canvas.sound.originalData == Some(OriginalOf(old(canvas.sound.originalData), old(canvas.sound.data)))
            && canvas.sound.data == old(canvas.sound.data) && canvas.sound.pos == old(canvas.sound.pos))
      && canvas.sound.playing == old(canvas.sound.playing)
      && canvas.sound.volume == old(canvas.sound.volume) && canvas.sound.hotkey == old(canvas.sound.hotkey)
      && canvas.total == Duration(SourceLength(canvas.sound), sr)
      && canvas.trimStart == 0.0 && canvas.trimEnd == canvas.total
  {
    var (s, e) := canvas.GetTrim();
    if e - s < MinSelection {
      return false;
    }
    TrimSound(canvas.sound, s, e, sr);
    canvas.ResetHandles(sr);
    applied := true;
  }
}
