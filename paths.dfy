/** `os.path.basename` under Windows path rules (`ntpath`): the part of the
    path after its last separator, where both `\` and `/` separate and a
    drive prefix such as `C:` is split off before the search. */
module Paths {

  /** The two separators `ntpath` accepts. */
  predicate IsSep(c: char) {
    c == '\\' || c == '/'
  }

  /** Length of the drive prefix `ntpath.splitdrive` removes: the first two
      characters when the second one is a colon, otherwise nothing. */
  function DriveLength(p: string): (n: nat)
    ensures n <= |p|
    ensures n == 0 || n == 2
    ensures n == 2 <==> |p| >= 2 && p[1] == ':'
  {
    if |p| >= 2 && p[1] == ':' then 2 else 0
  }

  /** The backward scan of `ntpath.split`: starting at `i`, step left while
      the character before the position is not a separator, never going
      below `lo`. The result is where the final component starts. */
  function TailStart(p: string, lo: nat, i: nat): (k: nat)
    requires lo <= i <= |p|
    ensures lo <= k <= i
    ensures k == lo || IsSep(p[k - 1])
    ensures forall j :: k <= j < i ==> !IsSep(p[j])
    decreases i
  {
    if i == lo || IsSep(p[i - 1]) then i else TailStart(p, lo, i - 1)
  }

  /** The final path component. It holds no separator, the path ends with
      it, and it reaches back either to the end of the drive prefix or to a
      separator. */
  function Basename(p: string): (b: string)
    ensures forall j :: 0 <= j < |b| ==> !IsSep(b[j])
    ensures |b| <= |p| - DriveLength(p) && p[|p| - |b|..] == b
    ensures |p| - |b| == DriveLength(p) || IsSep(p[|p| - |b| - 1])
  {
    p[TailStart(p, DriveLength(p), |p|)..]
  }

  /** The three properties of `Basename` determine it: any suffix that
      starts at or after the drive, holds no separator and starts at the
      drive or right after a separator is the basename. */
  lemma BasenameUnique(p: string, k: nat)
    requires DriveLength(p) <= k <= |p|
    requires forall j :: k <= j < |p| ==> !IsSep(p[j])
    requires k == DriveLength(p) || IsSep(p[k - 1])
    ensures Basename(p) == p[k..]
  {
  }
}
