/** POSIX path manipulation as Python's `posixpath` does it. */
module Paths {

  predicate HasSlash(s: string) {
    exists k :: 0 <= k < |s| && s[k] == '/'
  }

  /** `os.path.join(a, b)`: an absolute `b` replaces `a`; otherwise `b` is
      appended with one separator unless `a` is empty or already ends in `/`. */
  function Join(a: string, b: string): string {
    if |b| > 0 && b[0] == '/' then b
    else if a == [] || a[|a| - 1] == '/' then a + b
    else a + "/" + b
  }

  /** `os.path.join(a, b, c)`. */
  function Join3(a: string, b: string, c: string): string {
    Join(Join(a, b), c)
  }

  /** Index just past the last `/` of `p`, or 0 if there is none
      (`p.rfind('/') + 1`). */
  function AfterLastSlash(p: string): (i: nat)
    ensures i <= |p|
    ensures i > 0 ==> p[i - 1] == '/'
    ensures forall k :: i <= k < |p| ==> p[k] != '/'
  {
    if p == [] then 0
    else if p[|p| - 1] == '/' then |p|
    else AfterLastSlash(p[..|p| - 1])
  }

  /** `head.rstrip('/')`. */
  function RStripSlash(s: string): (r: string)
    ensures r <= s
    ensures r == [] || r[|r| - 1] != '/'
  {
    if s == [] || s[|s| - 1] != '/' then s else RStripSlash(s[..|s| - 1])
  }

  predicate AllSlashes(s: string) {
    forall k :: 0 <= k < |s| ==> s[k] == '/'
  }

  /** `os.path.dirname(p)`: everything up to the last `/`, with trailing
      slashes removed unless the head is made of slashes only. */
  function Dirname(p: string): string {
    var head := p[..AfterLastSlash(p)];
    if head != [] && !AllSlashes(head) then RStripSlash(head) else head
  }

  /** Joining a relative name onto a directory keeps the directory as a
      prefix of the result. */
  lemma JoinExtends(a: string, b: string)
    requires b == [] || b[0] != '/'
    ensures a <= Join(a, b)
  {
  }

  /** The directory of a file joined onto a plain directory is that directory:
      `dirname(join(d, name)) == d`. */
  lemma DirnameOfJoin(d: string, name: string)
    requires d != [] && d[|d| - 1] != '/'
    requires !HasSlash(name)
    ensures Dirname(Join(d, name)) == d
  {
    var p := Join(d, name);
    assert p == d + "/" + name;
    assert p[|d|] == '/';
    var i := AfterLastSlash(p);
    assert i == |d| + 1;
    var head := p[..i];
    assert head == d + "/";
    assert !AllSlashes(head) by { assert head[|d| - 1] != '/'; }
    assert head[..|head| - 1] == d;
    assert RStripSlash(head) == RStripSlash(d) == d;
  }
}
