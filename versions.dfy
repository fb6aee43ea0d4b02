/** compare_versions: dotted version strings are split at '.', every part is
    read as an integer, the shorter list is padded with zeros, and the two
    lists are compared in lexicographic order. */
module Versions {
  import opened Common

  /** str.split(sep): the pieces between the separators, in order; a string
      without the separator is one piece, and "" is [""]. */
  function Split(s: string, sep: char): (parts: seq<string>)
    ensures |parts| >= 1
    ensures forall i :: 0 <= i < |parts| ==> sep !in parts[i]
    decreases |s|
  {
    if |s| == 0 then [""]
    else if s[0] == sep then [""] + Split(s[1..], sep)
    else
      var rest := Split(s[1..], sep);
      [[s[0]] + rest[0]] + rest[1..]
  }

  /** sep.join(parts). */
  function Join(parts: seq<string>, sep: char): string
    requires |parts| >= 1
    decreases |parts|
  {
    if |parts| == 1 then parts[0] else parts[0] + [sep] + Join(parts[1..], sep)
  }

  /** Joining the pieces of a split gives the string back. */
  lemma {:induction false} JoinSplit(s: string, sep: char)
    ensures Join(Split(s, sep), sep) == s
    decreases |s|
  {
    if |s| > 0 {
      JoinSplit(s[1..], sep);
      var rest := Split(s[1..], sep);
      if s[0] == sep {
        assert Split(s, sep)[1..] == rest;
      } else if |rest| == 1 {
        assert Join(Split(s, sep), sep) == [s[0]] + rest[0];
      } else {
        assert Split(s, sep)[1..] == rest[1..];
        assert Join(rest, sep) == rest[0] + [sep] + Join(rest[1..], sep);
      }
    }
  }

  /** Appending a separator and a piece without separators adds one piece. */
  lemma {:induction false} SplitAppend(s: string, sep: char, t: string)
    requires sep !in t
    ensures Split(s + [sep] + t, sep) == Split(s, sep) + [t]
    decreases |s|
  {
    if |s| == 0 {
      assert [sep] + t == s + [sep] + t;
      SplitWithout(t, sep);
      assert ([sep] + t)[1..] == t;
    } else {
      assert (s + [sep] + t)[1..] == s[1..] + [sep] + t;
      SplitAppend(s[1..], sep, t);
    }
  }

  /** A string without the separator splits into itself. */
  lemma {:induction false} SplitWithout(t: string, sep: char)
    requires sep !in t
    ensures Split(t, sep) == [t]
    decreases |t|
  {
    if |t| > 0 {
      SplitWithout(t[1..], sep);
      assert [t[0]] + t[1..] == t;
    }
  }

  predicate IsDigit(c: char) {
    '0' <= c <= '9'
  }

  predicate AllDigits(s: string) {
    forall i :: 0 <= i < |s| ==> IsDigit(s[i])
  }

  /** The value of a string of decimal digits (0 for ""). */
  function DigitsValue(s: string): nat
    requires AllDigits(s)
    decreases |s|
  {
    if |s| == 0 then 0
    else DigitsValue(s[..|s| - 1]) * 10 + (s[|s| - 1] as int - '0' as int)
  }

  /** int(p): an optional sign followed by at least one decimal digit;
      anything else is refused. */
  function ParseInt(p: string): Option<int> {
    if |p| > 1 && (p[0] == '+' || p[0] == '-') && AllDigits(p[1..]) then
      Some(if p[0] == '-' then -(DigitsValue(p[1..]) as int) else DigitsValue(p[1..]))
    else if |p| > 0 && AllDigits(p) then Some(DigitsValue(p))
    else None
  }

  /** The decimal rendering of a natural number, without sign or leading zeros. */
  function ShowNat(n: nat): (s: string)
    ensures |s| >= 1 && AllDigits(s)
  {
    if n < 10 then [('0' as int + n) as char]
    else ShowNat(n / 10) + [('0' as int + n % 10) as char]
  }

  /** Reading back a rendered natural number gives the number. */
  lemma {:induction false} ParseShowNat(n: nat)
    ensures DigitsValue(ShowNat(n)) == n
    ensures ParseInt(ShowNat(n)) == Some(n)
  {
    var s := ShowNat(n);
    if n >= 10 {
      ParseShowNat(n / 10);
      assert s[..|s| - 1] == ShowNat(n / 10);
    } else {
      assert s[..|s| - 1] == [];
    }
  }

  /** [int(p) for p in parts], raising when any part is not an integer. */
  function ParseParts(parts: seq<string>): (r: Result<seq<int>>)
    ensures r.Ok? ==> (|r.value| == |parts| &&
      forall i :: 0 <= i < |parts| ==> ParseInt(parts[i]) == Some(r.value[i]))
    ensures r.Err? <==> exists i :: 0 <= i < |parts| && ParseInt(parts[i]).None?
    ensures r.Err? ==> r.error == VersionNotNumeric
    decreases |parts|
  {
    if |parts| == 0 then Ok([])
    else
      var head, tail := ParseInt(parts[0]), ParseParts(parts[1..]);
      if head.Some? && tail.Ok? then Ok([head.value] + tail.value) else Err(VersionNotNumeric)
  }

  /** xs followed by zeros up to length n. */
  function Pad(xs: seq<int>, n: nat): (r: seq<int>)
    ensures |r| == if n > |xs| then n else |xs|
    ensures r[..|xs|] == xs
    ensures forall i :: |xs| <= i < |r| ==> r[i] == 0
  {
    if n > |xs| then xs + seq(n - |xs|, _ => 0) else xs
  }

  /** Python's comparison of two lists of integers: -1, 0 or 1. */
  function LexCompare(a: seq<int>, b: seq<int>): (c: int)
    ensures c == -1 || c == 0 || c == 1
    decreases |a|
  {
    if |a| == 0 && |b| == 0 then 0
    else if |a| == 0 then -1
    else if |b| == 0 then 1
    else if a[0] < b[0] then -1
    else if a[0] > b[0] then 1
    else LexCompare(a[1..], b[1..])
  }

  /** compare_versions: -1 when v1 is older, 0 when the same, 1 when newer. */
  function CompareVersions(v1: string, v2: string): (r: Result<int>)
    ensures r.Ok? ==> r.value == -1 || r.value == 0 || r.value == 1
  {
    match (ParseParts(Split(v1, '.')), ParseParts(Split(v2, '.')))
    case (Ok(p1), Ok(p2)) =>
      var n := if |p1| > |p2| then |p1| else |p2|;
      Ok(LexCompare(Pad(p1, n), Pad(p2, n)))
    case (_, _) => Err(VersionNotNumeric)
  }

  /** Swapping the lists negates the comparison. */
  lemma {:induction false} LexCompareAntisymmetric(a: seq<int>, b: seq<int>)
    ensures LexCompare(b, a) == -LexCompare(a, b)
    decreases |a|
  {
    if |a| > 0 && |b| > 0 && a[0] == b[0] {
      LexCompareAntisymmetric(a[1..], b[1..]);
    }
  }

  /** Two lists compare equal exactly when they are the same list. */
  lemma {:induction false} LexCompareZeroIff(a: seq<int>, b: seq<int>)
    ensures LexCompare(a, b) == 0 <==> a == b
    decreases |a|
  {
    if |a| > 0 && |b| > 0 && a[0] == b[0] {
      LexCompareZeroIff(a[1..], b[1..]);
      if a[1..] == b[1..] {
        assert a == [a[0]] + a[1..] && b == [b[0]] + b[1..];
      }
    }
  }

  /** Of two lists of the same length, the one that is smaller at the first
      position where they differ compares lower. */
  lemma {:induction false} LexCompareFirstDifference(a: seq<int>, b: seq<int>, k: nat)
    requires |a| == |b| && k < |a| && a[..k] == b[..k] && a[k] < b[k]
    ensures LexCompare(a, b) == -1
    decreases k
  {
    if k > 0 {
      assert a[0] == a[..k][0] && b[0] == b[..k][0];
      assert a[1..][..k - 1] == a[1..k] == b[1..k] == b[1..][..k - 1];
      LexCompareFirstDifference(a[1..], b[1..], k - 1);
    }
  }

  /** compare_versions is antisymmetric: swapping the arguments negates an
      answer, and one order raises exactly when the other does. */
  lemma CompareVersionsAntisymmetric(v1: string, v2: string)
    ensures CompareVersions(v1, v2).Ok? <==> CompareVersions(v2, v1).Ok?
    ensures CompareVersions(v1, v2).Ok? ==>
      CompareVersions(v2, v1).value == -CompareVersions(v1, v2).value
  {
    var r1, r2 := ParseParts(Split(v1, '.')), ParseParts(Split(v2, '.'));
    if r1.Ok? && r2.Ok? {
      var n := if |r1.value| > |r2.value| then |r1.value| else |r2.value|;
      LexCompareAntisymmetric(Pad(r1.value, n), Pad(r2.value, n));
    }
  }

  /** compare_versions raises exactly when some part of either version is
      not an integer. */
  lemma CompareVersionsRaises(v1: string, v2: string)
    ensures CompareVersions(v1, v2).Err? <==>
      (exists i :: 0 <= i < |Split(v1, '.')| && ParseInt(Split(v1, '.')[i]).None?) ||
      (exists i :: 0 <= i < |Split(v2, '.')| && ParseInt(Split(v2, '.')[i]).None?)
  {
    assert CompareVersions(v1, v2).Err? <==>
      ParseParts(Split(v1, '.')).Err? || ParseParts(Split(v2, '.')).Err?;
  }

  /** A version compares equal to itself with a ".0" part appended. */
  lemma ZeroPadding(v: string)
    requires ParseParts(Split(v, '.')).Ok?
    ensures CompareVersions(v, v + ".0") == Ok(0)
  {
    SplitAppend(v, '.', "0");
    assert v + ".0" == v + ['.'] + "0";
    ParseShowNat(0);
    var p1 := ParseParts(Split(v, '.')).value;
    var p2 := ParseParts(Split(v + ".0", '.')).value;
    assert p2 == p1 + [0] by {
      assert |p2| == |p1| + 1;
      forall i | 0 <= i < |p2|
        ensures p2[i] == (p1 + [0])[i]
      {
        if i < |p1| {
          assert Split(v + ".0", '.')[i] == Split(v, '.')[i];
        } else {
          assert Split(v + ".0", '.')[i] == "0";
        }
      }
    }
    assert Pad(p1, |p2|) == p2;
    LexCompareZeroIff(p2, p2);
  }

  /** The pieces of a dotted string whose pieces hold no dot. */
  lemma {:induction false} SplitDotted(parts: seq<string>)
    requires |parts| >= 1 && forall i :: 0 <= i < |parts| ==> '.' !in parts[i]
    ensures Split(Join(parts, '.'), '.') == parts
    decreases |parts|
  {
    if |parts| == 1 {
      SplitWithout(parts[0], '.');
    } else {
      var init := parts[..|parts| - 1];
      SplitDotted(init);
      JoinLast(parts, '.');
      SplitAppend(Join(init, '.'), '.', parts[|parts| - 1]);
      assert init + [parts[|parts| - 1]] == parts;
    }
  }

  /** Joining splits off the last piece. */
  lemma {:induction false} JoinLast(parts: seq<string>, sep: char)
    requires |parts| >= 2
    ensures Join(parts, sep) == Join(parts[..|parts| - 1], sep) + [sep] + parts[|parts| - 1]
    decreases |parts|
  {
    if |parts| > 2 {
      JoinLast(parts[1..], sep);
      assert parts[1..][..|parts| - 2] == parts[..|parts| - 1][1..];
    }
  }

  /** Reading a two-part version. */
  lemma PartsOfTwo(a: string, b: string, m: int, n: int)
    requires ParseInt(a) == Some(m) && ParseInt(b) == Some(n)
    ensures ParseParts([a, b]) == Ok([m, n])
  {
    assert [a, b][1..] == [b];
    assert [b][1..] == [];
    assert ParseParts([]) == Ok([]);
    assert [n] + [] == [n];
    assert ParseParts([b]) == Ok([n]);
    assert [m] + [n] == [m, n];
  }

  /** "1.2" and "1.2.0" are the same version. */
  lemma SameVersionPadded()
    ensures CompareVersions("1.2", "1.2.0") == Ok(0)
  {
    SplitDotted(["1", "2"]);
    assert Join(["1", "2"], '.') == "1.2";
    assert ParseInt("1") == Some(1) && ParseInt("2") == Some(2);
    ZeroPadding("1.2");
    assert "1.2" + ".0" == "1.2.0";
  }

  /** "1.3" is newer than "1.2.9". */
  lemma NewerVersion()
    ensures CompareVersions("1.3", "1.2.9") == Ok(1)
  {
    SplitDotted(["1", "3"]);
    assert Join(["1", "3"], '.') == "1.3";
    SplitDotted(["1", "2", "9"]);
    assert Join(["1", "2", "9"], '.') == "1.2.9";
    PartsOfTwo("1", "3", 1, 3);
    PartsOfTwo("2", "9", 2, 9);
    assert ["1", "2", "9"][1..] == ["2", "9"];
    assert [1] + [2, 9] == [1, 2, 9];
    assert ParseParts(["1", "2", "9"]) == Ok([1, 2, 9]);
    assert Pad([1, 3], 3) == [1, 3, 0];
    assert Pad([1, 2, 9], 3) == [1, 2, 9];
    LexCompareFirstDifference([1, 2, 9], [1, 3, 0], 1);
    LexCompareAntisymmetric([1, 2, 9], [1, 3, 0]);
  }

  /** "1.1" is older than "1.2". */
  lemma OlderVersion()
    ensures CompareVersions("1.1", "1.2") == Ok(-1)
  {
    SplitDotted(["1", "1"]);
    assert Join(["1", "1"], '.') == "1.1";
    SplitDotted(["1", "2"]);
    assert Join(["1", "2"], '.') == "1.2";
    PartsOfTwo("1", "1", 1, 1);
    PartsOfTwo("1", "2", 1, 2);
    LexCompareFirstDifference([1, 1], [1, 2], 1);
  }

  /** A part that is not an integer is refused. */
  lemma NotNumericRefused()
    ensures CompareVersions("1.x", "1.2") == Err(VersionNotNumeric)
  {
    SplitDotted(["1", "x"]);
    assert Join(["1", "x"], '.') == "1.x";
    CompareVersionsRaises("1.x", "1.2");
    assert ParseInt("x").None?;
  }
}
