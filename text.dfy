/** String primitives with Python's meaning: `str.isspace` / regex `\s`,
    `str.strip`, substring search (`in`, `str.find`) and `str.replace`. */
module Text {
  import opened JsonValues

  /** Python's whitespace set (`str.isspace`, and `\s` in a `str` pattern). */
  predicate IsSpace(c: char) {
    c == ' ' || ('\t' <= c <= '\r') || ('\U{1c}' <= c <= '\U{1f}')
    || c == '\U{85}' || c == '\U{a0}' || c == '\U{1680}'
    || ('\U{2000}' <= c <= '\U{200a}') || c == '\U{2028}' || c == '\U{2029}'
    || c == '\U{202f}' || c == '\U{205f}' || c == '\U{3000}'
  }

  /** Regex `\w`, restricted to ASCII letters, digits and underscore. */
  predicate IsWordChar(c: char) {
    ('a' <= c <= 'z') || ('A' <= c <= 'Z') || ('0' <= c <= '9') || c == '_'
  }

  /** Regex `\d`, restricted to ASCII digits. */
  predicate IsDigit(c: char) {
    '0' <= c <= '9'
  }

  predicate AllSpace(s: string) {
    forall i :: 0 <= i < |s| ==> IsSpace(s[i])
  }

  /** End of the run of characters satisfying `p` that starts at `i`. */
  function RunEnd(s: string, i: nat, p: char -> bool): (r: nat)
    requires i <= |s|
    ensures i <= r <= |s|
    ensures forall j :: i <= j < r ==> p(s[j])
    ensures r < |s| ==> !p(s[r])
    decreases |s| - i
  {
    if i < |s| && p(s[i]) then RunEnd(s, i + 1, p) else i
  }

  function SkipSpace(s: string, i: nat): (r: nat)
    requires i <= |s|
    ensures i <= r <= |s|
  {
    RunEnd(s, i, IsSpace)
  }

  /** Start of the whitespace run that ends at `f`, but not before `lo`. */
  function SpaceRunStart(s: string, lo: nat, f: nat): (e: nat)
    requires lo <= f <= |s|
    ensures lo <= e <= f
    ensures forall j :: e <= j < f ==> IsSpace(s[j])
    ensures lo < e ==> !IsSpace(s[e - 1])
    decreases f - lo
  {
    if lo < f && IsSpace(s[f - 1]) then SpaceRunStart(s, lo, f - 1) else f
  }

  /** Number of whitespace characters `s.lstrip()` removes. */
  function LeadingSpace(s: string): nat {
    SkipSpace(s, 0)
  }

  /** `s.strip()`: the slice of `s` left once the whitespace at both ends is
      removed. */
  function Strip(s: string): (r: string)
    ensures LeadingSpace(s) + |r| <= |s|
    ensures r == s[LeadingSpace(s)..LeadingSpace(s) + |r|]
    ensures forall j :: 0 <= j < LeadingSpace(s) ==> IsSpace(s[j])
    ensures forall j :: LeadingSpace(s) + |r| <= j < |s| ==> IsSpace(s[j])
    ensures r != [] ==> !IsSpace(r[0]) && !IsSpace(r[|r| - 1])
  {
    var a := SkipSpace(s, 0);
    s[a..SpaceRunStart(s, a, |s|)]
  }

  /** `sub` occurs in `s` at index `i`. */
  predicate HasAt(s: string, sub: string, i: int) {
    0 <= i && i + |sub| <= |s| && s[i..i + |sub|] == sub
  }

  /** `s.find(sub, from)`: the first index at or after `from` where `sub`
      occurs. */
  function FindFrom(s: string, sub: string, from: nat): (r: Option<nat>)
    ensures r.Some? ==> from <= r.value && HasAt(s, sub, r.value)
    ensures r.Some? ==> forall j :: from <= j < r.value ==> !HasAt(s, sub, j)
    ensures r.None? ==> forall j :: from <= j ==> !HasAt(s, sub, j)
    decreases |s| - from
  {
    if from + |sub| > |s| then None
    else if s[from..from + |sub|] == sub then Some(from)
    else FindFrom(s, sub, from + 1)
  }

  /** Python's `sub in s`. */
  predicate Contains(s: string, sub: string) {
    FindFrom(s, sub, 0).Some?
  }

  lemma ContainsAt(s: string, sub: string, i: int)
    requires HasAt(s, sub, i)
    ensures Contains(s, sub)
  {
  }

  /** `find` stops at an occurrence when no earlier position, from `from` on,
      holds the first character of `sub`. */
  lemma {:induction false} FindFirstAt(s: string, sub: string, from: nat, f: nat)
    requires from <= f && HasAt(s, sub, f) && sub != []
    requires forall j :: from <= j < f ==> s[j] != sub[0]
    ensures FindFrom(s, sub, from) == Some(f)
    decreases f - from
  {
    if from < f {
      assert s[from..from + |sub|][0] == s[from];
      FindFirstAt(s, sub, from + 1, f);
    }
  }

  /** A slice of a region where `sub` never starts does not contain `sub`. */
  lemma NoneInSlice(s: string, sub: string, b: nat, e: nat, f: nat)
    requires sub != [] && b <= e <= f <= |s|
    requires forall j :: b <= j < f ==> !HasAt(s, sub, j)
    ensures !Contains(s[b..e], sub)
  {
    if Contains(s[b..e], sub) {
      var k := FindFrom(s[b..e], sub, 0).value;
      var u, v := s[b..e][k..k + |sub|], s[b + k..b + k + |sub|];
      forall t | 0 <= t < |sub| ensures u[t] == v[t] {
        assert u[t] == s[b..e][k + t];
      }
      assert u == v;
      assert HasAt(s, sub, b + k);
      assert false;
    }
  }

  /** A substring that is present before a strip and carries no whitespace at
      either end is still present after it. */
  lemma StripKeeps(s: string, sub: string)
    requires Contains(s, sub)
    requires sub != [] && !IsSpace(sub[0]) && !IsSpace(sub[|sub| - 1])
    ensures Contains(Strip(s), sub)
  {
    var i := FindFrom(s, sub, 0).value;
    var r := Strip(s);
    var a := LeadingSpace(s);
    OccurrenceEnds(s, sub, i);
    assert a <= i;
    assert i + |sub| <= a + |r|;
    SliceKeeps(s, sub, i, a, a + |r|);
    ContainsAt(r, sub, i - a);
  }

  lemma OccurrenceEnds(s: string, sub: string, i: nat)
    requires HasAt(s, sub, i) && sub != []
    ensures s[i] == sub[0] && s[i + |sub| - 1] == sub[|sub| - 1]
  {
    assert s[i..i + |sub|][0] == s[i];
    assert s[i..i + |sub|][|sub| - 1] == s[i + |sub| - 1];
  }

  /** An occurrence in a slice is an occurrence in the whole text. */
  lemma SliceHas(s: string, sub: string, lo: nat, hi: nat, k: nat)
    requires lo <= hi <= |s| && HasAt(s[lo..hi], sub, k)
    ensures HasAt(s, sub, lo + k)
  {
    var u, v := s[lo..hi][k..k + |sub|], s[lo + k..lo + k + |sub|];
    forall t | 0 <= t < |sub| ensures u[t] == v[t] {
      assert u[t] == s[lo..hi][k + t];
    }
    assert u == v;
  }

  lemma SliceKeeps(s: string, sub: string, i: nat, lo: nat, hi: nat)
    requires HasAt(s, sub, i) && lo <= i && i + |sub| <= hi <= |s|
    ensures HasAt(s[lo..hi], sub, i - lo)
  {
    var u, v := s[lo..hi][i - lo..i - lo + |sub|], s[i..i + |sub|];
    forall k | 0 <= k < |sub| ensures u[k] == v[k] {
      assert u[k] == s[lo..hi][i - lo + k];
    }
    assert u == v;
  }

  /** `s.replace(pat, rep)` for a non-empty `pat`: every non-overlapping
      occurrence, scanned from the left, is replaced. */
  function ReplaceAll(s: string, pat: string, rep: string): (r: string)
    requires pat != []
    decreases |s|
  {
    if s == [] then []
    else if HasAt(s, pat, 0) then rep + ReplaceAll(s[|pat|..], pat, rep)
    else [s[0]] + ReplaceAll(s[1..], pat, rep)
  }

  /** A text without the pattern comes back unchanged. */
  lemma {:induction false} ReplaceAbsent(s: string, pat: string, rep: string)
    requires pat != [] && !Contains(s, pat)
    ensures ReplaceAll(s, pat, rep) == s
    decreases |s|
  {
    if s != [] {
      if HasAt(s, pat, 0) {
        ContainsAt(s, pat, 0);
      }
      TailContains(s, pat);
      ReplaceAbsent(s[1..], pat, rep);
      ReplaceSkip(s, pat, rep);
    }
  }

  /** An occurrence in the tail is an occurrence in the text. */
  lemma TailContains(s: string, pat: string)
    requires s != []
    ensures Contains(s[1..], pat) ==> Contains(s, pat)
  {
    if Contains(s[1..], pat) {
      var j := FindFrom(s[1..], pat, 0).value;
      assert s[1..] == s[1..|s|];
      SliceHas(s, pat, 1, |s|, j);
      ContainsAt(s, pat, j + 1);
    }
  }

  /** `replace` copies the text before the first occurrence, puts `rep` in
      place of that occurrence and carries on after it. */
  lemma {:induction false} ReplaceFirst(s: string, pat: string, rep: string, i: nat)
    requires pat != [] && HasAt(s, pat, i)
    requires forall j :: 0 <= j < i ==> !HasAt(s, pat, j)
    ensures ReplaceAll(s, pat, rep) == s[..i] + rep + ReplaceAll(s[i + |pat|..], pat, rep)
    decreases i
  {
    if i == 0 {
      ReplaceHere(s, pat, rep);
      assert s[..i] + rep == rep;
    } else {
      FirstShift(s, pat, i);
      var t := s[1..];
      ReplaceFirst(t, pat, rep, i - 1);
      ReplaceStep(s, t, pat, rep, i);
    }
  }

  /** One step of the induction: a copied first character in front of the
      tail's replacement. */
  lemma ReplaceStep(s: string, t: string, pat: string, rep: string, i: nat)
    requires pat != [] && 0 < i && i + |pat| <= |s| && !HasAt(s, pat, 0) && t == s[1..]
    requires ReplaceAll(t, pat, rep) == t[..i - 1] + rep + ReplaceAll(t[i - 1 + |pat|..], pat, rep)
    ensures ReplaceAll(s, pat, rep) == s[..i] + rep + ReplaceAll(s[i + |pat|..], pat, rep)
  {
    ReplaceSkip(s, pat, rep);
    assert t[i - 1 + |pat|..] == s[i + |pat|..];
    PrefixJoin(s, i, rep, ReplaceAll(s[i + |pat|..], pat, rep));
  }

  lemma PrefixJoin(s: string, i: nat, rep: string, rest: string)
    requires 0 < i <= |s|
    ensures [s[0]] + (s[1..][..i - 1] + rep + rest) == s[..i] + rep + rest
  {
    assert s[..i] == [s[0]] + s[1..][..i - 1];
  }

  /** An occurrence at the start is replaced. */
  lemma ReplaceHere(s: string, pat: string, rep: string)
    requires pat != [] && HasAt(s, pat, 0)
    ensures ReplaceAll(s, pat, rep) == rep + ReplaceAll(s[|pat|..], pat, rep)
  {
  }

  /** A first occurrence past the start is one place earlier in the tail. */
  lemma FirstShift(s: string, pat: string, i: nat)
    requires pat != [] && 0 < i && HasAt(s, pat, i)
    requires forall j :: 0 <= j < i ==> !HasAt(s, pat, j)
    ensures s != [] && !HasAt(s, pat, 0) && i + |pat| <= |s|
    ensures HasAt(s[1..], pat, i - 1) && forall j :: 0 <= j < i - 1 ==> !HasAt(s[1..], pat, j)
  {
    var t := s[1..];
    assert t == s[1..|s|];
    SliceKeeps(s, pat, i, 1, |s|);
    forall j | 0 <= j < i - 1 ensures !HasAt(t, pat, j) {
      if HasAt(t, pat, j) {
        SliceHas(s, pat, 1, |s|, j);
      }
    }
  }

  /** A character where no occurrence starts is copied. */
  lemma ReplaceSkip(s: string, pat: string, rep: string)
    requires pat != [] && s != [] && !HasAt(s, pat, 0)
    ensures ReplaceAll(s, pat, rep) == [s[0]] + ReplaceAll(s[1..], pat, rep)
  {
  }
}
