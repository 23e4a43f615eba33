/** The POSIX `os.path` functions the core uses to name its output files:
    `basename`, `dirname`, `splitext` and two-argument `join`. */
module Paths {
  import opened JsonValues

  /** `p.rfind(c)`. */
  function LastIndex(p: string, c: char): (r: Option<nat>)
    ensures r.Some? ==> r.value < |p| && p[r.value] == c
    ensures r.Some? ==> forall j :: r.value < j < |p| ==> p[j] != c
    ensures r.None? ==> forall j :: 0 <= j < |p| ==> p[j] != c
  {
    if p == [] then None
    else if p[|p| - 1] == c then Some(|p| - 1)
    else LastIndex(p[..|p| - 1], c)
  }

  /** Index just past the last `/`, 0 when there is none. */
  function NameStart(p: string): (i: nat)
    ensures i <= |p|
    ensures forall j :: i <= j < |p| ==> p[j] != '/'
    ensures 0 < i ==> p[i - 1] == '/'
  {
    match LastIndex(p, '/')
    case Some(k) => k + 1
    case None => 0
  }

  /** `os.path.basename(p)`: what follows the last `/`. */
  function Basename(p: string): string {
    p[NameStart(p)..]
  }

  /** `s.rstrip('/')`. */
  function TrimSlashes(s: string): string {
    if s != [] && s[|s| - 1] == '/' then TrimSlashes(s[..|s| - 1]) else s
  }

  predicate AllSlashes(s: string) {
    forall i :: 0 <= i < |s| ==> s[i] == '/'
  }

  /** `os.path.dirname(p)`: everything up to the last `/`, with trailing slashes
      removed unless the head is made of slashes only. */
  function Dirname(p: string): string {
    var head := p[..NameStart(p)];
    if head != [] && !AllSlashes(head) then TrimSlashes(head) else head
  }

  /** Position of the extension dot `os.path.splitext` splits at, if any: the
      last `.` after the last `/`, provided something other than dots
      precedes it in the final component. */
  function ExtDot(p: string): (r: Option<nat>)
    ensures r.Some? ==> NameStart(p) <= r.value < |p| && p[r.value] == '.'
    ensures r.Some? ==> forall j :: r.value < j < |p| ==> p[j] != '.' && p[j] != '/'
  {
    match LastIndex(p, '.')
    case None => None
    case Some(d) =>
      if NameStart(p) <= d && exists j | NameStart(p) <= j < d :: p[j] != '.'
      then Some(d) else None
  }

  /** `os.path.splitext(p)[0]`. */
  function Root(p: string): string {
    match ExtDot(p)
    case Some(d) => p[..d]
    case None => p
  }

  /** `os.path.splitext(p)[1]`. */
  function Ext(p: string): string {
    match ExtDot(p)
    case Some(d) => p[d..]
    case None => ""
  }

  /** `os.path.splitext(os.path.basename(p))[0]`: the stem every output file of
      the core is named after. */
  function Stem(p: string): string {
    Root(Basename(p))
  }

  /** Two-argument `os.path.join(a, b)`. */
  function Join(a: string, b: string): string {
    if b != [] && b[0] == '/' then b
    else if a == [] || a[|a| - 1] == '/' then a + b
    else a + "/" + b
  }

  /** A base name carries no directory separator and is a suffix of the path;
      what precedes it, if anything, ends in `/`. */
  lemma BasenameShape(p: string)
    ensures '/' !in Basename(p)
    ensures p == p[..|p| - |Basename(p)|] + Basename(p)
    ensures |Basename(p)| < |p| ==> p[|p| - |Basename(p)| - 1] == '/'
  {
    var i := NameStart(p);
    forall k | 0 <= k < |p[i..]| ensures p[i..][k] != '/' {
      assert p[i..][k] == p[i + k];
    }
  }

  /** `splitext` only cuts: the root and the extension put back together give
      the path, and a non-empty extension is a dot followed by neither a dot
      nor a separator. */
  lemma SplitextShape(p: string)
    ensures Root(p) + Ext(p) == p
    ensures Ext(p) == [] || (Ext(p)[0] == '.' && '.' !in Ext(p)[1..] && '/' !in Ext(p))
  {
    match ExtDot(p)
    case None =>
    case Some(d) =>
      assert forall k :: 0 <= k < |p[d..]| ==> p[d..][k] == p[d + k];
  }

  /** A file name joined under any directory has that name as its base name. */
  lemma {:induction false} BasenameOfJoin(dir: string, name: string)
    requires '/' !in name
    ensures Basename(Join(dir, name)) == name
  {
    var j := Join(dir, name);
    var pre := j[..|j| - |name|];
    assert j == pre + name;
    assert pre == [] || pre[|pre| - 1] == '/';
    NameStartOfSuffix(pre, name);
  }

  lemma NameStartOfSuffix(pre: string, name: string)
    requires '/' !in name
    requires pre == [] || pre[|pre| - 1] == '/'
    ensures NameStart(pre + name) == |pre|
  {
    var p := pre + name;
    assert forall j :: |pre| <= j < |p| ==> p[j] == name[j - |pre|];
    assert forall j :: |pre| <= j < |p| ==> p[j] != '/';
    if pre != [] {
      assert p[|pre| - 1] == '/';
    } else {
      assert forall j :: 0 <= j < |p| ==> p[j] != '/';
    }
  }

  /** The stem ignores the directory and the extension: the base name is the
      stem followed by the extension. */
  lemma StemShape(p: string)
    ensures Stem(p) + Ext(Basename(p)) == Basename(p)
    ensures '/' !in Stem(p)
  {
    SplitextShape(Basename(p));
    BasenameShape(p);
    assert Stem(p) == Basename(p)[..|Stem(p)|];
  }
}
