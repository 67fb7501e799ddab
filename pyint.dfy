/** Python's `int(s)` on a string (base 10) and `str(i)` on an integer, as the
    updater and the settings dialog use them to read numbers out of text. */
module PyInt {
  import opened Common

  predicate IsDigit(c: char) { '0' <= c <= '9' }

  function DigitValue(c: char): nat
    requires IsDigit(c)
  {
    c as int - '0' as int
  }

  function DigitChar(d: nat): (c: char)
    requires d < 10
    ensures IsDigit(c) && DigitValue(c) == d
  {
    ('0' as int + d) as char
  }

  predicate DigitsOrUnderscores(s: string)
  {
    forall i :: 0 <= i < |s| ==> IsDigit(s[i]) || s[i] == '_'
  }

  /** The body `int()` accepts in base 10: digits, with single underscores
      allowed between two digits. */
  predicate IsDigitRun(s: string)
  {
    && |s| >= 1
    && IsDigit(s[0]) && IsDigit(s[|s| - 1])
    && DigitsOrUnderscores(s)
    && forall i :: 0 <= i < |s| - 1 ==> !(s[i] == '_' && s[i + 1] == '_')
  }

  /** The value of a digit run; underscores are skipped. */
  function RunValue(s: string): nat
    requires DigitsOrUnderscores(s)
  {
    if s == [] then 0
    else
      var last := s[|s| - 1];
      if last == '_' then RunValue(s[..|s| - 1])
      else RunValue(s[..|s| - 1]) * 10 + DigitValue(last)
  }

  function StripLeft(s: string): string
  {
    if s != [] && IsSpace(s[0]) then StripLeft(s[1..]) else s
  }

  function StripRight(s: string): string
  {
    if s != [] && IsSpace(s[|s| - 1]) then StripRight(s[..|s| - 1]) else s
  }

  /** `int(s)`: surrounding whitespace is ignored, one optional sign, then a
      digit run. Anything else is a `ValueError`, modelled as `None`. */
  function ParseInt(s: string): (r: Option<int>)
    ensures s == "" ==> r.None?
  {
    var t := StripRight(StripLeft(s));
    if |t| == 0 then None
    else if t[0] == '+' || t[0] == '-' then
      var body := t[1..];
      if IsDigitRun(body) then Some(if t[0] == '-' then 0 - RunValue(body) as int else RunValue(body))
      else None
    else if IsDigitRun(t) then Some(RunValue(t))
    else None
  }

  /** `str(n)` for a natural number: decimal digits without leading zeros. */
  function NatToStr(n: nat): (s: string)
    ensures |s| >= 1
    ensures forall i :: 0 <= i < |s| ==> IsDigit(s[i])
  {
    if n < 10 then [DigitChar(n)] else NatToStr(n / 10) + [DigitChar(n % 10)]
  }

  /** `str(i)` for any integer. */
  function IntToStr(i: int): (s: string)
    ensures |s| >= 1
    ensures s[0] == '-' <==> i < 0
  {
    if i < 0 then "-" + NatToStr(-i) else NatToStr(i)
  }

  /** `s.strip() == ""` exactly when `s` is blank. */
  lemma {:induction false} StripBlank(s: string)
    ensures StripLeft(s) == "" <==> IsBlank(s)
    ensures IsBlank(s) ==> StripRight(StripLeft(s)) == ""
  {
    if s != [] {
      StripBlank(s[1..]);
      if IsSpace(s[0]) {
        assert IsBlank(s) <==> IsBlank(s[1..]) by {
          assert forall i :: 1 <= i < |s| ==> s[i] == s[1..][i - 1];
        }
      } else {
        assert !IsBlank(s);
      }
    }
  }

  /** `int()` of an empty or all-whitespace string raises. */
  lemma BlankNotInt(s: string)
    requires IsBlank(s)
    ensures ParseInt(s).None?
  {
    StripBlank(s);
  }

  lemma {:induction false} NatToStrValue(n: nat)
    ensures DigitsOrUnderscores(NatToStr(n)) && RunValue(NatToStr(n)) == n
  {
    var s := NatToStr(n);
    if n < 10 {
      assert s[..|s| - 1] == [];
    } else {
      NatToStrValue(n / 10);
      assert s[..|s| - 1] == NatToStr(n / 10);
    }
  }

  /** `int(str(i)) == i`: printing an integer and parsing it back is the
      identity, for negative numbers too. */
  lemma ParseIntToStr(i: int)
    ensures ParseInt(IntToStr(i)) == Some(i)
  {
    var n: nat := if i < 0 then -i else i;
    NatToStrValue(n);
    DigitsRun(NatToStr(n));
    if i < 0 {
      ParseNegative(NatToStr(n));
    } else {
      ParseRun(NatToStr(n));
    }
  }

  /** Digits alone form a digit run. */
  lemma DigitsRun(d: string)
    requires |d| >= 1 && forall k :: 0 <= k < |d| ==> IsDigit(d[k])
    ensures IsDigitRun(d) && !IsSpace(d[0]) && !IsSpace(d[|d| - 1])
  {
  }

  /** `int()` of a digit run without surrounding whitespace is its value. */
  lemma ParseRun(d: string)
    requires IsDigitRun(d) && !IsSpace(d[0]) && !IsSpace(d[|d| - 1])
    ensures ParseInt(d) == Some(RunValue(d))
  {
    Unstripped(d);
  }

  /** `int()` of a minus sign and a digit run is minus its value. */
  lemma ParseNegative(d: string)
    requires IsDigitRun(d) && !IsSpace(d[|d| - 1])
    ensures ParseInt("-" + d) == Some(0 - RunValue(d) as int)
  {
    var s := "-" + d;
    assert s[1..] == d && s[|s| - 1] == d[|d| - 1];
    Unstripped(s);
    ParseSigned(s);
  }

  /** `int()` of an unstripped minus sign followed by a digit run. */
  lemma ParseSigned(t: string)
    requires StripRight(StripLeft(t)) == t && |t| >= 1 && t[0] == '-' && IsDigitRun(t[1..])
    ensures ParseInt(t) == Some(0 - RunValue(t[1..]) as int)
  {
  }

  /** A string that neither starts nor ends with whitespace is not
      stripped. */
  lemma Unstripped(s: string)
    requires |s| >= 1 && !IsSpace(s[0]) && !IsSpace(s[|s| - 1])
    ensures StripRight(StripLeft(s)) == s
  {
    assert StripLeft(s) == s;
  }
}
