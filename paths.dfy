/** `os.path.basename`, which the player uses for its playlist rows and status line. */
module Paths {

  /**
   * Where the last component of `p[..i]` starts: just after the last '/' before
   * position i, or 0 when there is none.
   */
  function SegmentStart(p: string, i: nat): (k: nat)
    requires i <= |p|
    ensures k <= i
  {
    if i == 0 || p[i - 1] == '/' then i else SegmentStart(p, i - 1)
  }

  lemma {:induction false} SegmentStartSpec(p: string, i: nat)
    requires i <= |p|
    ensures forall m :: SegmentStart(p, i) <= m < i ==> p[m] != '/'
    ensures SegmentStart(p, i) > 0 ==> p[SegmentStart(p, i) - 1] == '/'
  {
    if !(i == 0 || p[i - 1] == '/') {
      SegmentStartSpec(p, i - 1);
    }
  }

  /**
   * `os.path.basename` with '/' as separator: the part of `p` after its last '/',
   * or all of `p` when it has none.
   */
  function Basename(p: string): (b: string)
    ensures |b| <= |p|
  {
    p[SegmentStart(p, |p|)..]
  }

  /**
   * The basename is the end of the path with no '/' in it, and a '/' comes right
   * before it whenever it is not the whole path.
   */
  lemma BasenameIsSuffix(p: string)
    ensures p == p[..|p| - |Basename(p)|] + Basename(p)
    ensures '/' !in Basename(p)
    ensures |Basename(p)| < |p| ==> p[|p| - |Basename(p)| - 1] == '/'
  {
    var k := SegmentStart(p, |p|);
    SegmentStartSpec(p, |p|);
    assert p == p[..k] + p[k..];
  }
}
