/**
 * The string primitives the handlers rely on: `String.prototype.includes`,
 * `String.prototype.trim`, and the decimal text of a non-negative integer
 * (`Number.prototype.toString` on a clock reading).
 */
module Text {

  // ---------------------------------------------------------------- includes

  /** `needle` occurs in `haystack` starting at index `i`. */
  ghost predicate OccursAt(haystack: string, needle: string, i: int)
  {
    0 <= i && i + |needle| <= |haystack| && haystack[i..i + |needle|] == needle
  }

  /** `haystack.includes(needle)`: try every starting position from the left. */
  function Includes(haystack: string, needle: string): (r: bool)
    ensures needle <= haystack ==> r
    ensures r ==> |needle| <= |haystack|
    decreases |haystack|
  {
    if needle <= haystack then true
    else if haystack == [] then false
    else Includes(haystack[1..], needle)
  }

  /** A successful search has found an actual occurrence. */
  lemma {:induction false} IncludesFindsOccurrence(haystack: string, needle: string) returns (i: nat)
    requires Includes(haystack, needle)
    ensures OccursAt(haystack, needle, i)
    decreases |haystack|
  {
    if needle <= haystack {
      i := 0;
    } else {
      var j := IncludesFindsOccurrence(haystack[1..], needle);
      i := j + 1;
      assert haystack[i..i + |needle|] == haystack[1..][j..j + |needle|];
    }
  }

  /** The search does not miss an occurrence. */
  lemma {:induction false} OccurrenceIsIncluded(haystack: string, needle: string, i: nat)
    requires OccursAt(haystack, needle, i)
    ensures Includes(haystack, needle)
    decreases i
  {
    if i == 0 {
      assert haystack[..|needle|] == needle;
    } else if !(needle <= haystack) {
      assert haystack[1..][i - 1..i - 1 + |needle|] == haystack[i..i + |needle|];
      OccurrenceIsIncluded(haystack[1..], needle, i - 1);
    }
  }

  /** The search succeeds exactly when the needle occurs somewhere. */
  lemma IncludesIffOccurs(haystack: string, needle: string)
    ensures Includes(haystack, needle) <==> exists i :: OccursAt(haystack, needle, i)
  {
    if Includes(haystack, needle) {
      var i := IncludesFindsOccurrence(haystack, needle);
    }
    forall i | OccursAt(haystack, needle, i) ensures Includes(haystack, needle) {
      OccurrenceIsIncluded(haystack, needle, i);
    }
  }

  /** The empty string is included in every string. */
  lemma IncludesEmpty(haystack: string)
    ensures Includes(haystack, [])
  {
  }

  // -------------------------------------------------------------------- trim

  /** ECMAScript WhiteSpace and LineTerminator code points: what `trim` strips. */
  function IsJsSpace(c: char): (r: bool)
    ensures c == ' ' || c == '\t' || c == '\n' || c == '\r' ==> r
    ensures IsDigit(c) || ('a' <= c <= 'z') || ('A' <= c <= 'Z') ==> !r
  {
    c == '\t' || c == '\U{000B}' || c == '\U{000C}' || c == ' ' || c == '\U{00A0}' || c == '\U{FEFF}'
    || c == '\n' || c == '\r' || c == '\U{2028}' || c == '\U{2029}'
    || c == '\U{1680}' || ('\U{2000}' <= c <= '\U{200A}') || c == '\U{202F}' || c == '\U{205F}'
    || c == '\U{3000}'
  }

  ghost predicate AllSpace(s: string)
  {
    forall i :: 0 <= i < |s| ==> IsJsSpace(s[i])
  }

  /** A white-space run after a leading white-space character is a longer run. */
  lemma SpacePrefixGrows(s: string, k: int)
    requires 0 <= k < |s| && IsJsSpace(s[0]) && AllSpace(s[1..][..k])
    ensures AllSpace(s[..k + 1])
  {
    forall i | 0 <= i <= k ensures IsJsSpace(s[i]) {
      if i > 0 { assert s[i] == s[1..][..k][i - 1]; }
    }
  }

  /** A white-space run before a trailing white-space character is a longer run. */
  lemma SpaceSuffixGrows(s: string, k: int)
    requires 0 <= k < |s| && IsJsSpace(s[|s| - 1]) && AllSpace(s[..|s| - 1][k..])
    ensures AllSpace(s[k..])
  {
    forall i | k <= i < |s| ensures IsJsSpace(s[i]) {
      if i < |s| - 1 { assert s[i] == s[..|s| - 1][k..][i - k]; }
    }
  }

  /** Drops leading white space; what is left is a suffix of `s` that does not start with white space. */
  function TrimStart(s: string): (r: string)
    ensures |r| <= |s| && r == s[|s| - |r|..]
    ensures AllSpace(s[..|s| - |r|])
    ensures r != [] ==> !IsJsSpace(r[0])
  {
    if s != [] && IsJsSpace(s[0]) then
      var r := TrimStart(s[1..]);
      assert s[1..][|s| - 1 - |r|..] == s[|s| - |r|..];
      SpacePrefixGrows(s, |s| - 1 - |r|);
      r
    else s
  }

  /** Drops trailing white space; what is left is a prefix of `s` that does not end with white space. */
  function TrimEnd(s: string): (r: string)
    ensures |r| <= |s| && r == s[..|r|]
    ensures AllSpace(s[|r|..])
    ensures r != [] ==> !IsJsSpace(r[|r| - 1])
  {
    if s != [] && IsJsSpace(s[|s| - 1]) then
      var r := TrimEnd(s[..|s| - 1]);
      SpaceSuffixGrows(s, |r|);
      r
    else s
  }

  lemma {:induction false} TrimStartEmptyIffBlank(s: string)
    ensures TrimStart(s) == [] <==> AllSpace(s)
  {
    if s != [] && IsJsSpace(s[0]) {
      TrimStartEmptyIffBlank(s[1..]);
      assert AllSpace(s[1..]) ==> AllSpace(s) by {
        if AllSpace(s[1..]) {
          forall i | 0 <= i < |s| ensures IsJsSpace(s[i]) {
            if i > 0 { assert s[i] == s[1..][i - 1]; }
          }
        }
      }
    }
  }

  /** A string whose first character is not white space keeps that character through TrimEnd. */
  lemma {:induction false} TrimEndKeepsFirst(s: string)
    requires s != [] && !IsJsSpace(s[0])
    ensures TrimEnd(s) != []
    decreases |s|
  {
    if IsJsSpace(s[|s| - 1]) {
      TrimEndKeepsFirst(s[..|s| - 1]);
    }
  }

  /** `r` is the stretch `s[i..j]` of `s`, and only white space lies outside it. */
  ghost predicate InnerStretch(s: string, r: string, i: int, j: int)
  {
    0 <= i <= j <= |s| && r == s[i..j] && AllSpace(s[..i]) && AllSpace(s[j..])
  }

  /** Trimming both ends leaves a stretch of `s` with only white space outside it. */
  lemma TrimBothEnds(s: string)
    ensures exists i, j :: InnerStretch(s, TrimEnd(TrimStart(s)), i, j)
  {
    var t := TrimStart(s);
    var r := TrimEnd(t);
    var i, j := |s| - |t|, |s| - |t| + |r|;
    assert s[j..] == t[|r|..];
    assert r == s[i..j];
    assert InnerStretch(s, r, i, j);
  }

  /**
   * `s.trim()`: the stretch of `s` left after dropping white space at both ends. Nothing is left
   * exactly when `s` is made only of white space (the empty string included), and what is left
   * neither starts nor ends with white space.
   */
  function Trim(s: string): (r: string)
    ensures exists i, j :: InnerStretch(s, r, i, j)
    ensures r == [] <==> AllSpace(s)
    ensures |r| <= |s|
    ensures r != [] ==> !IsJsSpace(r[0]) && !IsJsSpace(r[|r| - 1])
  {
    TrimStartEmptyIffBlank(s);
    var t := TrimStart(s);
    assert t != [] ==> TrimEnd(t) != [] by {
      if t != [] {
        TrimEndKeepsFirst(t);
      }
    }
    TrimBothEnds(s);
    TrimEnd(t)
  }

  // ------------------------------------------------------------ decimal text

  predicate IsDigit(c: char)
  {
    '0' <= c <= '9'
  }

  predicate AllDigits(s: string)
  {
    forall i :: 0 <= i < |s| ==> IsDigit(s[i])
  }

  function DigitChar(d: nat): (c: char)
    requires d < 10
    ensures IsDigit(c) && c as int - '0' as int == d
  {
    ('0' as int + d) as char
  }

  /** The decimal text of `n`, most significant digit first, without leading zeros. */
  function Decimal(n: nat): (s: string)
    ensures s != [] && AllDigits(s)
    ensures |s| > 1 ==> s[0] != '0'
    decreases n
  {
    if n < 10 then [DigitChar(n)] else Decimal(n / 10) + [DigitChar(n % 10)]
  }

  /** Reads decimal digits back into a number. */
  function ParseDecimal(s: string): int
  {
    if s == [] then 0 else ParseDecimal(s[..|s| - 1]) * 10 + (s[|s| - 1] as int - '0' as int)
  }

  /** Reading back the decimal text of `n` gives `n`. */
  lemma {:induction false} DecimalRound(n: nat)
    ensures ParseDecimal(Decimal(n)) == n
    decreases n
  {
    var s := Decimal(n);
    if n < 10 {
      assert s[..|s| - 1] == [];
    } else {
      DecimalRound(n / 10);
      assert s[..|s| - 1] == Decimal(n / 10);
    }
  }
}
