/**
 * The boat-name rule of the upload loop: the uploaded file name with every
 * "data_" removed, then every ".csv" removed, then surrounding whitespace
 * trimmed, following Python's `str.replace(old, "")` and `str.strip()`.
 */
module BoatNames {

  const Prefix: string := "data_"
  const Extension: string := ".csv"

  /** `p` occurs in `s` starting at index `i`. */
  predicate MatchAt(s: string, p: string, i: int)
  {
    0 <= i && i + |p| <= |s| && s[i..i + |p|] == p
  }

  predicate Contains(s: string, p: string)
  {
    exists i | 0 <= i <= |s| :: MatchAt(s, p, i)
  }

  /**
   * Python's `s.replace(p, "")`: occurrences of `p` are found from left to
   * right, without overlap, and deleted.
   */
  function RemoveAll(s: string, p: string): (r: string)
    requires p != []
    ensures |r| <= |s|
    decreases |s|
  {
    if |s| < |p| then s
    else if s[..|p|] == p then RemoveAll(s[|p|..], p)
    else [s[0]] + RemoveAll(s[1..], p)
  }

  /** Python's `str.isspace` for one character. */
  predicate IsSpace(c: char)
  {
    var n := c as int;
    (0x09 <= n <= 0x0D) || (0x1C <= n <= 0x20) || n == 0x85 || n == 0xA0 || n == 0x1680 ||
    (0x2000 <= n <= 0x200A) || n == 0x2028 || n == 0x2029 || n == 0x202F || n == 0x205F ||
    n == 0x3000
  }

  /** `s` neither starts nor ends with whitespace. */
  predicate Trimmed(s: string)
  {
    s == [] || (!IsSpace(s[0]) && !IsSpace(s[|s| - 1]))
  }

  /** How many whitespace characters `s` starts with. */
  function LeadingSpaces(s: string): (n: nat)
    ensures n <= |s|
  {
    if s != [] && IsSpace(s[0]) then 1 + LeadingSpaces(s[1..]) else 0
  }

  /** How many whitespace characters `s` ends with. */
  function TrailingSpaces(s: string): (n: nat)
    ensures n <= |s|
  {
    if s != [] && IsSpace(s[|s| - 1]) then 1 + TrailingSpaces(s[..|s| - 1]) else 0
  }

  /** Python's `s.strip()`: leading and then trailing whitespace removed. */
  function Strip(s: string): string
  {
    var t := s[LeadingSpaces(s)..];
    t[..|t| - TrailingSpaces(t)]
  }

  /** The leading run is all whitespace and is followed by a non-space or the end. */
  lemma {:induction false} LeadingSpacesSpec(s: string)
    ensures forall k :: 0 <= k < LeadingSpaces(s) ==> IsSpace(s[k])
    ensures LeadingSpaces(s) < |s| ==> !IsSpace(s[LeadingSpaces(s)])
  {
    if s != [] && IsSpace(s[0]) {
      LeadingSpacesSpec(s[1..]);
      assert forall k :: 1 <= k < LeadingSpaces(s) ==> s[k] == s[1..][k - 1];
    }
  }

  /** The trailing run is all whitespace and is preceded by a non-space or the start. */
  lemma {:induction false} TrailingSpacesSpec(s: string)
    ensures forall k :: |s| - TrailingSpaces(s) <= k < |s| ==> IsSpace(s[k])
    ensures TrailingSpaces(s) < |s| ==> !IsSpace(s[|s| - 1 - TrailingSpaces(s)])
  {
    if s != [] && IsSpace(s[|s| - 1]) {
      TrailingSpacesSpec(s[..|s| - 1]);
    }
  }

  /**
   * The stripped string has no whitespace at its ends, and it is the slice
   * s[i..j] such that everything outside it is whitespace.
   */
  lemma StripSpec(s: string)
    ensures Trimmed(Strip(s))
    ensures exists i, j :: (0 <= i <= j <= |s| && Strip(s) == s[i..j] &&
      (forall k :: 0 <= k < i ==> IsSpace(s[k])) && (forall k :: j <= k < |s| ==> IsSpace(s[k])))
  {
    LeadingSpacesSpec(s);
    var i := LeadingSpaces(s);
    var t := s[i..];
    TrailingSpacesSpec(t);
    var n := TrailingSpaces(t);
    var j := |s| - n;
    assert Strip(s) == s[i..j];
    assert forall k :: j <= k < |s| ==> s[k] == t[k - i];
    if i < j {
      assert Strip(s)[0] == s[i];
      assert Strip(s)[j - i - 1] == t[|t| - 1 - n];
    }
  }

  /** dashboard.py:53 */
  function BoatName(fileName: string): string
  {
    Strip(RemoveAll(RemoveAll(fileName, Prefix), Extension))
  }

  /** A string in which `p` does not occur is left as it is by RemoveAll. */
  lemma {:induction false} RemoveAllAbsent(s: string, p: string)
    requires p != []
    requires forall i :: !MatchAt(s, p, i)
    ensures RemoveAll(s, p) == s
  {
    if |s| >= |p| {
      assert !MatchAt(s, p, 0);
      forall i ensures !MatchAt(s[1..], p, i) {
        if MatchAt(s[1..], p, i) {
          assert s[1..][i..i + |p|] == s[i + 1..i + 1 + |p|];
          assert MatchAt(s, p, i + 1);
        }
      }
      RemoveAllAbsent(s[1..], p);
    }
  }

  /**
   * When the only occurrence of `p` in `s + p` that starts inside `s` is
   * none at all, RemoveAll deletes exactly the trailing `p`.
   */
  lemma {:induction false} RemoveAllTrailing(s: string, p: string)
    requires p != []
    requires forall i :: 0 <= i < |s| ==> !MatchAt(s + p, p, i)
    ensures RemoveAll(s + p, p) == s
  {
    if s == [] {
      assert (s + p)[..|p|] == p && (s + p)[|p|..] == [];
    } else {
      assert !MatchAt(s + p, p, 0);
      assert (s + p)[1..] == s[1..] + p;
      forall i | 0 <= i < |s[1..]| ensures !MatchAt(s[1..] + p, p, i) {
        if MatchAt(s[1..] + p, p, i) {
          assert (s[1..] + p)[i..i + |p|] == (s + p)[i + 1..i + 1 + |p|];
          assert MatchAt(s + p, p, i + 1);
        }
      }
      RemoveAllTrailing(s[1..], p);
    }
  }

  /** A string with no whitespace at its ends is its own strip. */
  lemma StripTrimmed(s: string)
    requires Trimmed(s)
    ensures Strip(s) == s
  {
    assert s[0..] == s;
  }

  /** Stripping twice is stripping once. */
  lemma StripIdempotent(s: string)
    ensures Strip(Strip(s)) == Strip(s)
  {
    StripSpec(s);
    StripTrimmed(Strip(s));
  }

  /** "data_" cannot reach into ".csv": no character of ".csv" occurs in "data_". */
  lemma PrefixAbsentBeforeExtension(name: string)
    requires !Contains(name, Prefix)
    ensures forall i :: !MatchAt(name + Extension, Prefix, i)
  {
    var s := name + Extension;
    forall i | 0 <= i && i + |Prefix| <= |s| ensures !MatchAt(s, Prefix, i) {
      if i + |Prefix| <= |name| {
        assert s[i..i + |Prefix|] == name[i..i + |Prefix|];
        assert !MatchAt(name, Prefix, i);
      } else {
        var k := |name| - i;
        assert s[i..i + |Prefix|][k] == '.';
        assert Prefix[k] != '.';
      }
    }
  }

  /** ".csv" has no proper prefix that is also a suffix, so it cannot straddle the join. */
  lemma ExtensionOnlyAtEnd(name: string)
    requires !Contains(name, Extension)
    ensures forall i :: 0 <= i < |name| ==> !MatchAt(name + Extension, Extension, i)
  {
    var s := name + Extension;
    forall i | 0 <= i < |name| ensures !MatchAt(s, Extension, i) {
      if i + |Extension| <= |name| {
        assert s[i..i + |Extension|] == name[i..i + |Extension|];
        assert !MatchAt(name, Extension, i);
      } else if i + |Extension| <= |s| {
        var k := |name| - i;
        assert s[i..i + |Extension|][k] == '.';
        assert Extension[k] != '.';
      }
    }
  }

  /**
   * The naming convention round-trips: a boat called `name` uploaded as
   * "data_<name>.csv" is recognised as `name`, provided the name itself
   * contains neither token and has no surrounding whitespace.
   */
  lemma BoatNameOfConventionalFile(name: string)
    requires !Contains(name, Prefix) && !Contains(name, Extension) && Trimmed(name)
    ensures BoatName(Prefix + name + Extension) == name
  {
    var f := Prefix + name + Extension;
    assert f[..|Prefix|] == Prefix && f[|Prefix|..] == name + Extension;
    assert RemoveAll(f, Prefix) == RemoveAll(name + Extension, Prefix);
    PrefixAbsentBeforeExtension(name);
    RemoveAllAbsent(name + Extension, Prefix);
    ExtensionOnlyAtEnd(name);
    RemoveAllTrailing(name, Extension);
    StripTrimmed(name);
  }

  /** A file name without either token and without edge whitespace is the boat name. */
  lemma BoatNameUnchanged(name: string)
    requires !Contains(name, Prefix) && !Contains(name, Extension) && Trimmed(name)
    ensures BoatName(name) == name
  {
    RemoveAllAbsent(name, Prefix);
    RemoveAllAbsent(name, Extension);
    StripTrimmed(name);
  }

  /** A file named by the upload convention: `data_Alpha.csv` gives `Alpha`. */
  lemma BoatNameAlpha()
    ensures BoatName("data_Alpha.csv") == "Alpha"
  {
    assert "data_Alpha.csv" == Prefix + "Alpha" + Extension;
    forall i | 0 <= i <= |"Alpha"| ensures !MatchAt("Alpha", Prefix, i) && !MatchAt("Alpha", Extension, i) {
      if i + |Prefix| <= 5 {
        assert "Alpha"[i..i + |Prefix|][0] == 'A' != Prefix[0];
      }
      if i + |Extension| <= 5 {
        assert "Alpha"[i..i + |Extension|][0] == "Alpha"[i] != Extension[0];
      }
    }
    BoatNameOfConventionalFile("Alpha");
  }
}
