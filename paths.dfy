/** The two POSIX `node:path` functions the orchestrator derives a team name
    with: `basename` and `extname`. Both look at the last path segment once
    the trailing `/` separators are dropped. */
module Paths {

  /** The length of the path without its trailing `/` separators. */
  function TrimmedLength(p: string, n: nat): (r: nat)
    requires n <= |p|
    ensures r <= n
    ensures r == 0 || p[r - 1] != '/'
    ensures forall i :: r <= i < n ==> p[i] == '/'
  {
    if n > 0 && p[n - 1] == '/' then TrimmedLength(p, n - 1) else n
  }

  /** `s.lastIndexOf(c)` within the first `n` characters: the last position
      of `c` before `n`, or -1. */
  function LastIndexBefore(s: string, c: char, n: nat): (r: int)
    requires n <= |s|
    ensures -1 <= r < n
    ensures r >= 0 ==> s[r] == c
    ensures forall i :: r < i < n ==> s[i] != c
  {
    if n == 0 then -1
    else if s[n - 1] == c then n - 1
    else LastIndexBefore(s, c, n - 1)
  }

  /** `basename(p)`: the last segment, after the last `/` that is not trailing. */
  function BaseName(p: string): (r: string)
    ensures forall i :: 0 <= i < |r| ==> r[i] != '/'
  {
    var q := p[..TrimmedLength(p, |p|)];
    q[LastIndexBefore(q, '/', |q|) + 1..]
  }

  /** The extension of a segment: from its last `.` on; empty when the
      segment has no `.`, when that `.` opens the segment, or when the
      segment is `..`. */
  function SegmentExt(b: string): (r: string)
    ensures |r| <= |b| && r == b[|b| - |r|..]
    ensures r != "" ==> |r| < |b| && r[0] == '.' && forall i :: 1 <= i < |r| ==> r[i] != '.'
  {
    var dot := LastIndexBefore(b, '.', |b|);
    if dot <= 0 || (|b| == 2 && b[0] == '.' && b[1] == '.') then "" else b[dot..]
  }

  /** A segment without its extension. */
  function SegmentName(b: string): (r: string)
    ensures b == r + SegmentExt(b)
    ensures SegmentExt(b) != "" ==> |r| > 0
  {
    b[..|b| - |SegmentExt(b)|]
  }

  /** `extname(p)`. */
  function ExtName(p: string): string
  {
    SegmentExt(BaseName(p))
  }

  /** `basename(file, extname(file))`: the last segment without its
      extension. The extension is never the whole segment, so node's suffix
      stripping always removes it. */
  function TeamName(file: string): (r: string)
    ensures BaseName(file) == r + ExtName(file)
  {
    SegmentName(BaseName(file))
  }

  /** The last `c` before `n` is at `k` when `s[k]` is `c` and none follows it. */
  lemma {:induction false} LastIndexAt(s: string, c: char, n: nat, k: int)
    requires -1 <= k < n <= |s|
    requires k >= 0 ==> s[k] == c
    requires forall i :: k < i < n ==> s[i] != c
    ensures LastIndexBefore(s, c, n) == k
    decreases n
  {
    if n - 1 > k {
      LastIndexAt(s, c, n - 1, k);
    }
  }

  /** The last segment of `<dir><segment>`, for a segment with no `/`. */
  lemma BaseNameOf(dir: string, segment: string)
    requires dir == "" || dir[|dir| - 1] == '/'
    requires |segment| > 0 && forall i :: 0 <= i < |segment| ==> segment[i] != '/'
    ensures BaseName(dir + segment) == segment
  {
    var p := dir + segment;
    assert p[|p| - 1] == segment[|segment| - 1];
    assert TrimmedLength(p, |p|) == |p|;
    assert p[..|p|] == p;
    LastIndexAt(p, '/', |p|, |dir| - 1);
    assert p[|dir|..] == segment;
  }

  /** The team name of `<dir><segment>` is the segment's name. */
  lemma TeamNameOfSegment(dir: string, segment: string)
    requires dir == "" || dir[|dir| - 1] == '/'
    requires |segment| > 0 && forall i :: 0 <= i < |segment| ==> segment[i] != '/'
    ensures TeamName(dir + segment) == SegmentName(segment)
  {
    BaseNameOf(dir, segment);
  }

  /** A segment `<name>.<ext>` whose extension holds no `.` loses exactly `.<ext>`. */
  lemma SegmentNameOf(name: string, ext: string)
    requires |name| > 0 && |ext| > 0 && forall i :: 0 <= i < |ext| ==> ext[i] != '.'
    ensures SegmentName(name + "." + ext) == name
  {
    var b := name + "." + ext;
    assert forall i :: |name| < i < |b| ==> b[i] == ext[i - |name| - 1];
    LastIndexAt(b, '.', |b|, |name|);
    assert |b| > 2;
    assert b[..|name|] == name;
  }

  /** A segment without `.` has no extension. */
  lemma SegmentNameOfPlain(name: string)
    requires forall i :: 0 <= i < |name| ==> name[i] != '.'
    ensures SegmentName(name) == name
  {
    LastIndexAt(name, '.', |name|, -1);
    assert name[..|name|] == name;
  }

  lemma SegmentWithoutSlash(name: string, ext: string)
    requires forall i :: 0 <= i < |name| ==> name[i] != '/'
    requires forall i :: 0 <= i < |ext| ==> ext[i] != '/'
    ensures var b := name + "." + ext; forall i :: 0 <= i < |b| ==> b[i] != '/'
  {
    var b := name + "." + ext;
    assert forall i :: |name| < i < |b| ==> b[i] == ext[i - |name| - 1];
    assert forall i :: 0 <= i < |name| ==> b[i] == name[i];
  }

  /** The file `<dir><name>.<ext>` names the team `<name>`, whatever the
      directory, when neither the name nor the extension holds a `/` and
      the extension holds no further `.`. */
  lemma TeamNameOfFile(dir: string, name: string, ext: string)
    requires dir == "" || dir[|dir| - 1] == '/'
    requires |name| > 0 && forall i :: 0 <= i < |name| ==> name[i] != '/'
    requires |ext| > 0 && forall i :: 0 <= i < |ext| ==> ext[i] != '/' && ext[i] != '.'
    ensures TeamName(dir + (name + "." + ext)) == name
  {
    var b := name + "." + ext;
    SegmentWithoutSlash(name, ext);
    TeamNameOfSegment(dir, b);
    SegmentNameOf(name, ext);
  }

  /** A file whose last segment has no `.` names the team after the whole
      segment. */
  lemma TeamNameWithoutExtension(dir: string, name: string)
    requires dir == "" || dir[|dir| - 1] == '/'
    requires |name| > 0 && forall i :: 0 <= i < |name| ==> name[i] != '/' && name[i] != '.'
    ensures TeamName(dir + name) == name
  {
    TeamNameOfSegment(dir, name);
    SegmentNameOfPlain(name);
  }
}
