/** The version comparison of updater.py and the decision of the update
    check. Fetching `version.json` is outside the model: what the download
    and `json.loads` produced is a parameter (`None` when either raised), and
    so is the running version, which version.py supplies. */
module Updater {
  import opened Common
  import opened PyInt
  import opened Configuration

  /** `[int(x) for x in parts]`; `None` when some part is not an integer
      (the `ValueError` the comparison catches). */
  function ParseParts(parts: seq<string>): (r: Option<seq<int>>)
    ensures r.Some? ==> |r.value| == |parts|
    ensures r.Some? ==> forall k :: 0 <= k < |parts| ==> ParseInt(parts[k]) == Some(r.value[k])
    ensures r.None? <==> exists k :: 0 <= k < |parts| && ParseInt(parts[k]).None?
  {
    if parts == [] then Some([])
    else
      var head := ParseInt(parts[0]);
      var tail := ParseParts(parts[1..]);
      if head.None? then
        assert ParseInt(parts[0]).None?;
        None
      else if tail.None? then
        var k :| 0 <= k < |parts[1..]| && ParseInt(parts[1..][k]).None?;
        assert ParseInt(parts[k + 1]).None?;
        None
      else
        assert forall k :: 1 <= k < |parts| ==> parts[k] == parts[1..][k - 1];
        Some([head.value] + tail.value)
  }

  /** `parts` with zeros appended until it has at least three entries. */
  function Padded(parts: seq<int>): (r: seq<int>)
    ensures |r| >= 3 && |r| >= |parts|
    ensures r[..|parts|] == parts
    ensures forall k :: |parts| <= k < |r| ==> r[k] == 0
    ensures |parts| >= 3 ==> r == parts
  {
    if |parts| >= 3 then parts else parts + seq(3 - |parts|, _ => 0)
  }

  /** One of the `while len(parts) < 3: parts.append(0)` loops. */
  method PadToThree(parts: seq<int>) returns (r: seq<int>)
    ensures r == Padded(parts)
  {
    r := parts;
    while |r| < 3
      invariant |parts| <= |r| && r[..|parts|] == parts
      invariant |parts| < 3 ==> |r| <= 3
      invariant |parts| >= 3 ==> r == parts
      invariant forall k :: |parts| <= k < |r| ==> r[k] == 0
      decreases 3 - |r|
    {
      r := r + [0];
    }
  }

  /** Python's `a > b` on lists: the first differing entry decides, and a
      proper prefix is smaller. */
  function LexGreater(a: seq<int>, b: seq<int>): (r: bool)
    ensures r ==> a != []
    ensures b == [] ==> (r <==> a != [])
  {
    if a == [] then false
    else if b == [] then true
    else if a[0] != b[0] then a[0] > b[0]
    else LexGreater(a[1..], b[1..])
  }

  /** No list is greater than itself. */
  lemma {:induction false} LexIrreflexive(a: seq<int>)
    ensures !LexGreater(a, a)
  {
    if a != [] {
      LexIrreflexive(a[1..]);
    }
  }

  /** At most one of two lists is greater than the other. */
  lemma {:induction false} LexAsymmetric(a: seq<int>, b: seq<int>)
    ensures !(LexGreater(a, b) && LexGreater(b, a))
  {
    if a != [] && b != [] && a[0] == b[0] {
      LexAsymmetric(a[1..], b[1..]);
    }
  }

  /** The comparison is transitive. */
  lemma {:induction false} LexTransitive(a: seq<int>, b: seq<int>, c: seq<int>)
    requires LexGreater(a, b) && LexGreater(b, c)
    ensures LexGreater(a, c)
  {
    if c != [] && a[0] == b[0] && b[0] == c[0] {
      LexTransitive(a[1..], b[1..], c[1..]);
    }
  }

  /** Two different lists are ordered one way or the other. */
  lemma {:induction false} LexTotal(a: seq<int>, b: seq<int>)
    requires a != b
    ensures LexGreater(a, b) || LexGreater(b, a)
  {
    if a != [] && b != [] && a[0] == b[0] {
      assert a == [a[0]] + a[1..] && b == [b[0]] + b[1..];
      LexTotal(a[1..], b[1..]);
    }
  }

  /** `_is_newer_version(latest, current)`: both strings split on '.' and
      read as integers, padded to three parts and compared as lists; a part
      that is not an integer makes the answer false. */
  function Newer(latest: string, current: string): (r: bool)
    ensures r ==> latest != current
  {
    var l := ParseParts(Split(latest, '.'));
    var c := ParseParts(Split(current, '.'));
    if l.Some? && c.Some? then
      LexIrreflexive(Padded(l.value));
      LexGreater(Padded(l.value), Padded(c.value))
    else false
  }

  /** `_is_newer_version`, with its padding loops. */
  method IsNewerVersion(latest: string, current: string) returns (newer: bool)
    ensures newer == Newer(latest, current)
  {
    var l := ParseParts(Split(latest, '.'));
    var c := ParseParts(Split(current, '.'));
    if l.None? || c.None? {
      return false;
    }
    var lp := PadToThree(l.value);
    var cp := PadToThree(c.value);
    newer := LexGreater(lp, cp);
  }

  /** A version is never newer than itself. */
  lemma NewerIrreflexive(v: string)
    ensures !Newer(v, v)
  {
    var p := ParseParts(Split(v, '.'));
    if p.Some? {
      LexIrreflexive(Padded(p.value));
    }
  }

  /** Of two versions at most one is newer. */
  lemma NewerAsymmetric(a: string, b: string)
    ensures !(Newer(a, b) && Newer(b, a))
  {
    var pa := ParseParts(Split(a, '.'));
    var pb := ParseParts(Split(b, '.'));
    if pa.Some? && pb.Some? {
      LexAsymmetric(Padded(pa.value), Padded(pb.value));
    }
  }

  /** A version with a part that is not an integer never counts as newer,
      and nothing counts as newer than it. */
  lemma MalformedNeverNewer(bad: string, other: string)
    requires exists k :: 0 <= k < |Split(bad, '.')| && ParseInt(Split(bad, '.')[k]).None?
    ensures !Newer(bad, other) && !Newer(other, bad)
  {
  }

  /** The dotted text of a list of natural numbers, as `str` prints them. */
  function Dotted(ns: seq<nat>): string
  {
    Join(Texts(ns), '.')
  }

  function Texts(ns: seq<nat>): (r: seq<string>)
    ensures |r| == |ns|
    ensures forall k :: 0 <= k < |ns| ==> r[k] == NatToStr(ns[k]) && '.' !in r[k]
  {
    seq(|ns|, k requires 0 <= k < |ns| => NatToStr(ns[k]))
  }

  /** Reading the dotted text of a non-empty list gives the list back. */
  lemma ReadDotted(ns: seq<nat>)
    requires |ns| >= 1
    ensures ParseParts(Split(Dotted(ns), '.')) == Some(ns)
  {
    SplitJoin(Texts(ns), '.');
    ReadTexts(ns);
  }

  lemma {:induction false} ReadTexts(ns: seq<nat>)
    ensures ParseParts(Texts(ns)) == Some(ns)
  {
    if ns != [] {
      ParseIntToStr(ns[0]);
      assert Texts(ns)[1..] == Texts(ns[1..]);
      ReadTexts(ns[1..]);
      assert ns == [ns[0]] + ns[1..];
    }
  }

  /** On dotted lists of natural numbers `Newer` is the list comparison of
      the padded lists. */
  lemma NewerDotted(a: seq<nat>, b: seq<nat>)
    requires |a| >= 1 && |b| >= 1
    ensures Newer(Dotted(a), Dotted(b)) == LexGreater(Padded(a), Padded(b))
  {
    ReadDotted(a);
    ReadDotted(b);
  }

  /** The documented example: "3.0.0" is newer than "2.2.0". */
  lemma DocumentedExample()
    ensures Newer("3.0.0", "2.2.0") && !Newer("2.2.0", "3.0.0")
  {
    assert Dotted([3, 0, 0]) == "3.0.0";
    assert Dotted([2, 2, 0]) == "2.2.0";
    NewerDotted([3, 0, 0], [2, 2, 0]);
    NewerDotted([2, 2, 0], [3, 0, 0]);
  }

  /** With equal leading parts the longer list wins: "1.2.3.0" is newer
      than "1.2.3". */
  lemma LongerWins()
    ensures Newer("1.2.3.0", "1.2.3")
  {
    LongerTexts();
    NewerDotted([1, 2, 3, 0], [1, 2, 3]);
  }

  lemma LongerTexts()
    ensures Dotted([1, 2, 3, 0]) == "1.2.3.0" && Dotted([1, 2, 3]) == "1.2.3"
  {
  }

  /** Padding makes "1.2" and "1.2.0" equal: neither is newer. */
  lemma PaddingEquates()
    ensures !Newer("1.2", "1.2.0") && !Newer("1.2.0", "1.2")
  {
    assert Dotted([1, 2]) == "1.2";
    assert Dotted([1, 2, 0]) == "1.2.0";
    NewerDotted([1, 2], [1, 2, 0]);
    NewerDotted([1, 2, 0], [1, 2]);
    assert Padded([1, 2]) == [1, 2, 0];
    LexIrreflexive([1, 2, 0]);
  }

  /** Parts compare as numbers, not as text: "1.10" is newer than "1.9". */
  lemma NumericParts()
    ensures Newer("1.10", "1.9")
  {
    assert NatToStr(10) == "10";
    assert Dotted([1, 10]) == "1.10";
    assert Dotted([1, 9]) == "1.9";
    NewerDotted([1, 10], [1, 9]);
  }

  /** `check_for_updates`: `fetched` is what `json.loads` produced, `None`
      when the download or the parse raised. The data comes back only when
      it is a dictionary whose "version" (default "0.0.0") is a string newer
      than `current`; anything else gives `None`. */
  function CheckForUpdates(fetched: Option<Json>, current: string): (r: Option<map<string, Json>>)
    ensures r.Some? <==>
      && fetched.Some? && fetched.value.JObj?
      && Newer(VersionOf(fetched.value.fields), current)
      && ("version" in fetched.value.fields ==> fetched.value.fields["version"].JStr?)
    ensures r.Some? ==> r.value == fetched.value.fields
  {
    if fetched.None? || !fetched.value.JObj? then None
    else
      var data := fetched.value.fields;
      var latest := if "version" in data then data["version"] else JStr("0.0.0");
      if latest.JStr? && Newer(latest.s, current) then Some(data) else None
  }

  /** The version string a dictionary announces, "0.0.0" when it has none. */
  function VersionOf(data: map<string, Json>): (v: string)
    ensures "version" !in data ==> v == "0.0.0"
    ensures "version" in data && data["version"].JStr? ==> v == data["version"].s
  {
    if "version" in data && data["version"].JStr? then data["version"].s else "0.0.0"
  }

  /** Data without a "version" never offers an update to a running
      version of natural-number parts. */
  lemma MissingVersionNoUpdate(data: map<string, Json>, current: seq<nat>)
    requires "version" !in data && |current| >= 1
    ensures CheckForUpdates(Some(JObj(data)), Dotted(current)) == None
  {
    assert Dotted([0, 0, 0]) == "0.0.0";
    NewerDotted([0, 0, 0], current);
    assert Padded([0, 0, 0]) == seq(3, _ => 0);
    ZerosNotGreater(3, Padded(current));
  }

  /** A list of zeros is not greater than a list at least as long with no
      negative entry. */
  lemma {:induction false} ZerosNotGreater(n: nat, c: seq<int>)
    requires |c| >= n && forall k :: 0 <= k < |c| ==> c[k] >= 0
    ensures !LexGreater(seq(n, _ => 0), c)
  {
    if n > 0 {
      var z := seq(n, _ => 0);
      assert z[1..] == seq(n - 1, _ => 0);
      ZerosNotGreater(n - 1, c[1..]);
    }
  }
}
