/**
 * The few Python `str` operations the guardrails and the configuration code rely on:
 * `strip()` (with Python's own set of whitespace characters), ASCII `lower()` and the
 * substring test `p in s`.
 */
module PyText {

  /** The characters for which Python's `str.isspace()` holds; `str.strip()` removes exactly these. */
  predicate IsSpace(c: char) {
    || c == ' '
    || ('\t' <= c <= '\r')                    // \t \n \x0b \x0c \r
    || ('\U{1C}' <= c <= '\U{1F}')            // file, group, record and unit separators
    || c == '\U{85}' || c == '\U{A0}' || c == '\U{1680}'
    || ('\U{2000}' <= c <= '\U{200A}')
    || c == '\U{2028}' || c == '\U{2029}' || c == '\U{202F}' || c == '\U{205F}' || c == '\U{3000}'
  }

  /** Every character of `s` is whitespace (vacuously true of ""). */
  predicate AllSpace(s: string) {
    forall k :: 0 <= k < |s| ==> IsSpace(s[k])
  }

  /** `s` neither starts nor ends with whitespace. */
  predicate NoEdgeSpace(s: string) {
    s == [] || (!IsSpace(s[0]) && !IsSpace(s[|s| - 1]))
  }

  /** The index of the first non-whitespace character of `s` at or after `i`, or `|s|`. */
  function SkipSpace(s: string, i: nat): (e: nat)
    requires i <= |s|
    ensures i <= e <= |s|
    ensures forall k :: i <= k < e ==> IsSpace(s[k])
    ensures e == |s| || !IsSpace(s[e])
    decreases |s| - i
  {
    if i < |s| && IsSpace(s[i]) then SkipSpace(s, i + 1) else i
  }

  /** The index just past the last non-whitespace character of `s` before `j`, or 0. */
  function SkipSpaceBack(s: string, j: nat): (e: nat)
    requires j <= |s|
    ensures e <= j
    ensures forall k :: e <= k < j ==> IsSpace(s[k])
    ensures e == 0 || !IsSpace(s[e - 1])
  {
    if j > 0 && IsSpace(s[j - 1]) then SkipSpaceBack(s, j - 1) else j
  }

  /** The whitespace run that starts at `i` ends at exactly one index. */
  lemma SkipSpaceUnique(s: string, i: nat, e: nat)
    requires i <= e <= |s|
    requires forall k :: i <= k < e ==> IsSpace(s[k])
    requires e == |s| || !IsSpace(s[e])
    ensures SkipSpace(s, i) == e
  {
  }

  /** The whitespace run that ends at `j` starts at exactly one index. */
  lemma SkipSpaceBackUnique(s: string, j: nat, e: nat)
    requires e <= j <= |s|
    requires forall k :: e <= k < j ==> IsSpace(s[k])
    requires e == 0 || !IsSpace(s[e - 1])
    ensures SkipSpaceBack(s, j) == e
  {
  }

  /** `s.lstrip()`: the suffix of `s` left once the leading whitespace is removed. */
  function LStrip(s: string): (r: string)
    ensures |r| <= |s| && r == s[|s| - |r|..]
    ensures AllSpace(s[..|s| - |r|])
    ensures r == [] || !IsSpace(r[0])
  {
    s[SkipSpace(s, 0)..]
  }

  /** `s.rstrip()`: the prefix of `s` left once the trailing whitespace is removed. */
  function RStrip(s: string): (r: string)
    ensures |r| <= |s| && r == s[..|r|]
    ensures AllSpace(s[|r|..])
    ensures r == [] || !IsSpace(r[|r| - 1])
  {
    s[..SkipSpaceBack(s, |s|)]
  }

  /** `s.strip()`: `s` without its leading and trailing whitespace. */
  function Strip(s: string): (r: string)
    ensures NoEdgeSpace(r)
    ensures |r| <= |s|
  {
    RStrip(LStrip(s))
  }

  /** Python's `not s.strip()`: the stripped text is empty exactly when `s` is all whitespace. */
  lemma {:induction false} StripEmptyIffAllSpace(s: string)
    ensures Strip(s) == [] <==> AllSpace(s)
  {
    var l := LStrip(s);
    if l == [] {
      assert s[..|s| - |l|] == s;
    } else {
      assert !IsSpace(s[|s| - |l|]);
      assert RStrip(l) != [];
    }
  }

  /** A text without edge whitespace is its own strip. */
  lemma StripOfNoEdgeSpace(s: string)
    requires NoEdgeSpace(s)
    ensures Strip(s) == s
  {
  }

  /** Stripping twice is stripping once. */
  lemma StripIdempotent(s: string)
    ensures Strip(Strip(s)) == Strip(s)
  {
    StripOfNoEdgeSpace(Strip(s));
  }

  lemma LStripSpacePrefix(a: string, x: string)
    requires AllSpace(a)
    ensures LStrip(a + x) == LStrip(x)
  {
    var s := a + x;
    var e := SkipSpace(x, 0);
    forall k | 0 <= k < |a| + e ensures IsSpace(s[k]) {
      if k < |a| { assert s[k] == a[k]; } else { assert s[k] == x[k - |a|]; }
    }
    assert |a| + e == |s| || s[|a| + e] == x[e];
    SkipSpaceUnique(s, 0, |a| + e);
    assert s[|a| + e..] == x[e..];
  }

  lemma RStripSpaceSuffix(x: string, b: string)
    requires AllSpace(b)
    ensures RStrip(x + b) == RStrip(x)
  {
    var s := x + b;
    var e := SkipSpaceBack(x, |x|);
    forall k | e <= k < |s| ensures IsSpace(s[k]) {
      if k < |x| { assert s[k] == x[k]; } else { assert s[k] == b[k - |x|]; }
    }
    assert e == 0 || s[e - 1] == x[e - 1];
    SkipSpaceBackUnique(s, |s|, e);
    assert s[..e] == x[..e];
  }

  lemma LStripAppend(x: string, b: string)
    requires LStrip(x) != []
    ensures LStrip(x + b) == LStrip(x) + b
  {
    var s := x + b;
    var e := SkipSpace(x, 0);
    forall k | 0 <= k < e ensures IsSpace(s[k]) {
      assert s[k] == x[k];
    }
    assert s[e] == x[e];
    SkipSpaceUnique(s, 0, e);
    assert s[e..] == x[e..] + b;
  }

  /** Whitespace around a text does not change what `strip()` returns. */
  lemma {:induction false} StripIgnoresSurroundingSpace(a: string, m: string, b: string)
    requires AllSpace(a) && AllSpace(b)
    ensures Strip(a + m + b) == Strip(m)
  {
    assert a + m + b == a + (m + b);
    LStripSpacePrefix(a, m + b);
    if LStrip(m) == [] {
      assert AllSpace(m) by {
        assert m[..|m| - |LStrip(m)|] == m;
      }
      assert AllSpace(m + b) by {
        forall k | 0 <= k < |m + b| ensures IsSpace((m + b)[k]) {
          if k < |m| { assert (m + b)[k] == m[k]; } else { assert (m + b)[k] == b[k - |m|]; }
        }
      }
      LStripSpacePrefix(m + b, []);
      assert m + b + [] == m + b;
      assert LStrip([]) == [];
    } else {
      LStripAppend(m, b);
      RStripSpaceSuffix(LStrip(m), b);
    }
  }

  /** ASCII case folding of one character, the part of `str.lower()` this model keeps. */
  function LowerChar(c: char): char {
    if 'A' <= c <= 'Z' then (c as int + 32) as char else c
  }

  /** `s.lower()` restricted to ASCII letters. */
  function Lower(s: string): (r: string)
    ensures |r| == |s|
    ensures forall k :: 0 <= k < |s| ==> r[k] == LowerChar(s[k])
  {
    seq(|s|, k requires 0 <= k < |s| => LowerChar(s[k]))
  }

  /** Lowercasing a slice is slicing the lowercased text. */
  lemma LowerSlice(s: string, i: nat, j: nat)
    requires i <= j <= |s|
    ensures Lower(s[i..j]) == Lower(s)[i..j]
  {
  }

  /** Python's `p in s` for strings: `p` occurs in `s` as a contiguous substring ("" occurs in every text). */
  predicate Contains(s: string, p: string) {
    exists i | 0 <= i <= |s| - |p| :: OccursAt(s, p, i)
  }

  /** `p` occurs in `s` starting at index `i`. */
  predicate OccursAt(s: string, p: string, i: nat) {
    i + |p| <= |s| && s[i..i + |p|] == p
  }
}
