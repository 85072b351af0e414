/** POSIX path joining, as Python's `os.path.join` does it for two arguments. */
module PosixPath {

  /** `os.path.isabs` on POSIX: the path starts with a separator. */
  predicate IsAbsolute(p: string)
  {
    |p| > 0 && p[0] == '/'
  }

  /**
   * `os.path.join(a, b)`: an absolute `b` replaces `a`; otherwise `b` is
   * appended to `a`, with a '/' in between unless `a` is empty or already
   * ends with one.
   */
  function Join(a: string, b: string): (r: string)
    ensures r == "" <==> a == "" && b == ""
    ensures |b| <= |r| && r[|r| - |b|..] == b
    ensures IsAbsolute(b) ==> r == b
    ensures !IsAbsolute(b) ==> |a| <= |r| && r[..|a|] == a
    ensures !IsAbsolute(b) && (a == "" || a[|a| - 1] == '/') ==> |r| == |a| + |b|
    ensures !IsAbsolute(b) && a != "" && a[|a| - 1] != '/' ==> |r| == |a| + 1 + |b| && r[|a|] == '/'
  {
    if IsAbsolute(b) then b
    else if a == "" || a[|a| - 1] == '/' then a + b
    else a + "/" + b
  }
}
