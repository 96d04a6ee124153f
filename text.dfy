/**
 * The JavaScript string operations the components rely on: `toLowerCase`,
 * `trim` and `includes`, over a restricted ASCII alphabet (case folding of
 * A-Z only; white space is the space and the control characters 9 to 13).
 */
module Text {

  predicate IsUpper(c: char) { 'A' <= c <= 'Z' }

  predicate IsSpace(c: char) { c == ' ' || '\t' <= c <= '\r' }

  /** `c.toLowerCase()` for one character. */
  function LowerChar(c: char): (r: char)
    ensures !IsUpper(r)
    ensures IsUpper(c) ==> r as int == c as int + 32
    ensures !IsUpper(c) ==> r == c
    ensures IsSpace(r) <==> IsSpace(c)
  {
    if IsUpper(c) then (c as int + 32) as char else c
  }

  /** `s.toLowerCase()`: the same length, every character folded. */
  function Lower(s: string): (r: string)
    ensures |r| == |s|
    ensures forall i :: 0 <= i < |s| ==> r[i] == LowerChar(s[i])
  {
    if s == [] then [] else [LowerChar(s[0])] + Lower(s[1..])
  }

  predicate AllSpace(s: string) { forall i :: 0 <= i < |s| ==> IsSpace(s[i]) }

  /** No white space at either end. */
  predicate IsTrimmed(s: string) { s == [] || (!IsSpace(s[0]) && !IsSpace(s[|s| - 1])) }

  /** `trimStart`: drops the leading white space. */
  function TrimStart(s: string): (r: string)
    ensures |r| <= |s|
    decreases |s|
  {
    if s != [] && IsSpace(s[0]) then TrimStart(s[1..]) else s
  }

  /** `trimEnd`: drops the trailing white space. */
  function TrimEnd(s: string): (r: string)
    ensures |r| <= |s|
    decreases |s|
  {
    if s != [] && IsSpace(s[|s| - 1]) then TrimEnd(s[..|s| - 1]) else s
  }

  /** `s.trim()`: never longer than `s`; `TrimSpec` states the rest. */
  function Trim(s: string): (r: string)
    ensures |r| <= |s|
  {
    TrimEnd(TrimStart(s))
  }

  /** `TrimStart` removes a blank prefix, and only that: what is left starts with a non-blank. */
  lemma {:induction false} TrimStartSpec(s: string)
    ensures |TrimStart(s)| <= |s| && TrimStart(s) == s[|s| - |TrimStart(s)|..]
    ensures AllSpace(s[..|s| - |TrimStart(s)|])
    ensures TrimStart(s) == [] || !IsSpace(TrimStart(s)[0])
    decreases |s|
  {
    if s != [] && IsSpace(s[0]) {
      TrimStartSpec(s[1..]);
      var k := |s| - |TrimStart(s)|;
      assert s[..k] == [s[0]] + s[1..][..k - 1];
      assert s[k..] == s[1..][k - 1..];
    }
  }

  /** `TrimEnd` removes a blank suffix, and only that: what is left ends with a non-blank. */
  lemma {:induction false} TrimEndSpec(s: string)
    ensures |TrimEnd(s)| <= |s| && TrimEnd(s) == s[..|TrimEnd(s)|]
    ensures AllSpace(s[|TrimEnd(s)|..])
    ensures TrimEnd(s) == [] || !IsSpace(TrimEnd(s)[|TrimEnd(s)| - 1])
    decreases |s|
  {
    if s != [] && IsSpace(s[|s| - 1]) {
      var p := s[..|s| - 1];
      TrimEndSpec(p);
      var n := |TrimEnd(s)|;
      assert s[n..] == p[n..] + [s[|s| - 1]];
      assert s[..n] == p[..n];
    }
  }

  /** `Trim` leaves a string without white space at either end; nothing iff all blank. */
  lemma TrimSpec(s: string)
    ensures |Trim(s)| <= |s|
    ensures IsTrimmed(Trim(s))
    ensures Trim(s) == [] <==> AllSpace(s)
  {
    TrimStartSpec(s);
    TrimEndSpec(TrimStart(s));
    TrimBlank(s);
    var t := TrimStart(s);
    assert Trim(s) != [] ==> Trim(s)[0] == t[0];
  }

  /** Trimming leaves nothing exactly when the string is all white space. */
  lemma TrimBlank(s: string)
    ensures Trim(s) == [] <==> AllSpace(s)
  {
    TrimStartSpec(s);
    var t := TrimStart(s);
    TrimEndSpec(t);
    var k := |s| - |t|;
    if TrimEnd(t) == [] {
      assert AllSpace(t);
      if t != [] {
        assert false;
      }
      assert s == s[..k];
    }
    if AllSpace(s) && t != [] {
      assert false;
    }
  }

  /** `Trim` keeps a contiguous slice of its argument. */
  lemma TrimIsSlice(s: string)
    ensures var k := |s| - |TrimStart(s)|;
            k + |Trim(s)| <= |s| && Trim(s) == s[k..k + |Trim(s)|]
  {
    TrimStartSpec(s);
    var t := TrimStart(s);
    TrimEndSpec(t);
    var k := |s| - |t|;
    var r := Trim(s);
    assert r == t[..|r|];
    assert t == s[k..];
  }

  /** `Trim` leaves an already trimmed string alone. */
  lemma TrimTrimmed(s: string)
    requires IsTrimmed(s)
    ensures Trim(s) == s
  {
    if s != [] {
      assert TrimStart(s) == s;
      assert TrimEnd(s) == s;
    }
  }

  /** `TrimStart` stops at the first character that is not white space. */
  lemma TrimStartAt(s: string, lo: nat)
    requires lo <= |s| && AllSpace(s[..lo])
    requires lo == |s| || !IsSpace(s[lo])
    ensures TrimStart(s) == s[lo..]
  {
    TrimStartSpec(s);
    var k := |s| - |TrimStart(s)|;
    assert forall j :: 0 <= j < k ==> IsSpace(s[j]) by {
      forall j | 0 <= j < k ensures IsSpace(s[j]) {
        assert s[..k][j] == s[j];
      }
    }
    assert forall j :: 0 <= j < lo ==> IsSpace(s[j]) by {
      forall j | 0 <= j < lo ensures IsSpace(s[j]) {
        assert s[..lo][j] == s[j];
      }
    }
    assert TrimStart(s) == [] || TrimStart(s)[0] == s[k];
    if lo < k {
      assert false;
    }
    if k < lo {
      assert false;
    }
  }

  /** `TrimEnd` stops after the last character that is not white space. */
  lemma TrimEndAt(t: string, n: nat)
    requires n <= |t| && AllSpace(t[n..])
    requires n == 0 || !IsSpace(t[n - 1])
    ensures TrimEnd(t) == t[..n]
  {
    TrimEndSpec(t);
    var r := TrimEnd(t);
    assert forall j :: n <= j < |t| ==> IsSpace(t[j]) by {
      forall j | n <= j < |t| ensures IsSpace(t[j]) {
        assert t[n..][j - n] == t[j];
      }
    }
    if |r| < n {
      assert false;
    }
    if n < |r| {
      assert false;
    }
  }

  /** `Trim` of a string whose first and last non-blank characters are at `lo` and `hi - 1`. */
  lemma TrimBetween(s: string, lo: nat, hi: nat)
    requires lo < hi <= |s|
    requires AllSpace(s[..lo]) && AllSpace(s[hi..])
    requires !IsSpace(s[lo]) && !IsSpace(s[hi - 1])
    ensures Trim(s) == s[lo..hi]
  {
    TrimStartAt(s, lo);
    var t := s[lo..];
    assert t[hi - lo..] == s[hi..];
    TrimEndAt(t, hi - lo);
    assert t[..hi - lo] == s[lo..hi];
  }

  predicate NoUpper(s: string) { forall i :: 0 <= i < |s| ==> !IsUpper(s[i]) }

  lemma SliceNoUpper(s: string, lo: nat, hi: nat)
    requires NoUpper(s) && lo <= hi <= |s|
    ensures NoUpper(s[lo..hi])
  {
  }

  /** Lower-casing leaves no capital letter. */
  lemma LowerHasNoUpper(s: string)
    ensures NoUpper(Lower(s))
  {
  }

  /** Trimming a string without capitals leaves none. */
  lemma TrimKeepsNoUpper(l: string)
    requires NoUpper(l)
    ensures NoUpper(Trim(l))
  {
    var k := |l| - |TrimStart(l)|;
    TrimIsSlice(l);
    SliceNoUpper(l, k, k + |Trim(l)|);
  }

  /** The normalisation both command matchers apply: `s.toLowerCase().trim()`. */
  function Normalize(s: string): (r: string)
    ensures |r| <= |s|
  {
    Trim(Lower(s))
  }

  /** A normalised string has no capital letter and no white space at either end. */
  lemma NormalizeIsNormal(s: string)
    ensures IsTrimmed(Normalize(s)) && NoUpper(Normalize(s))
  {
    TrimSpec(Lower(s));
    LowerHasNoUpper(s);
    TrimKeepsNoUpper(Lower(s));
  }

  /** Normalising leaves nothing exactly when the input is all white space. */
  lemma NormalizeBlank(s: string)
    ensures Normalize(s) == [] <==> AllSpace(s)
  {
    TrimBlank(Lower(s));
    LowerKeepsSpaces(s);
  }

  /** A string that is already lower-case and trimmed is its own normal form. */
  lemma NormalOf(s: string)
    requires IsTrimmed(s) && NoUpper(s)
    ensures Normalize(s) == s
  {
    LowerNoUpper(s);
    TrimTrimmed(s);
  }

  lemma LowerKeepsSpaces(s: string)
    ensures AllSpace(Lower(s)) <==> AllSpace(s)
  {
    if !AllSpace(s) {
      var i :| 0 <= i < |s| && !IsSpace(s[i]);
      assert !IsSpace(Lower(s)[i]);
    }
  }

  /** Lower-casing a string with no capital letter changes nothing. */
  lemma LowerNoUpper(s: string)
    requires NoUpper(s)
    ensures Lower(s) == s
  {
  }

  /** A normalised string is its own normalisation. */
  lemma {:induction false} NormalizeIdempotent(s: string)
    ensures Normalize(Normalize(s)) == Normalize(s)
  {
    NormalizeIsNormal(s);
    NormalOf(Normalize(s));
  }

  /** `needle` occurs in `hay` starting at offset `i`. */
  predicate OccursAt(hay: string, needle: string, i: nat)
  {
    i + |needle| <= |hay| && hay[i..i + |needle|] == needle
  }

  /** `hay.includes(needle)`: `needle` occurs in `hay` at some offset. */
  predicate Contains(hay: string, needle: string)
    ensures Contains(hay, needle) ==> |needle| <= |hay|
  {
    exists i :: 0 <= i <= |hay| && OccursAt(hay, needle, i)
  }

  /** Every character of a contained needle is a character of the haystack. */
  lemma ContainedCharsOccur(hay: string, needle: string)
    ensures Contains(hay, needle) ==> forall c :: c in needle ==> c in hay
  {
    if Contains(hay, needle) {
      var i :| 0 <= i <= |hay| && OccursAt(hay, needle, i);
      forall c | c in needle
        ensures c in hay
      {
        var k :| 0 <= k < |needle| && needle[k] == c;
        assert hay[i + k] == hay[i..i + |needle|][k];
      }
    }
  }

  /** A needle with a character the haystack lacks is not contained in it. */
  lemma MissingChar(hay: string, needle: string, c: char)
    requires c in needle && c !in hay
    ensures !Contains(hay, needle)
  {
    ContainedCharsOccur(hay, needle);
  }

  /** A needle at the very start of the haystack is contained in it. */
  lemma PrefixContained(hay: string, needle: string)
    requires needle <= hay
    ensures Contains(hay, needle)
  {
    assert OccursAt(hay, needle, 0);
  }

  /** A needle at the very end of the haystack is contained in it. */
  lemma SuffixContained(front: string, needle: string)
    ensures Contains(front + needle, needle)
  {
    var hay := front + needle;
    assert hay[|front|..|front| + |needle|] == needle;
    assert OccursAt(hay, needle, |front|);
  }
}
