/** POSIX path joining, as `os.path.join` does it. */
module Paths {

  /** `os.path.join(a, b)`: an absolute `b` replaces `a`; otherwise exactly one
      separator is put between them unless `a` is empty or already ends in one. */
  function Join(a: string, b: string): string
  {
    if |b| > 0 && b[0] == '/' then b
    else if a == [] || a[|a| - 1] == '/' then a + b
    else a + "/" + b
  }

  /** A directory path that does not end in a separator (what
      `tempfile.TemporaryDirectory` and `Join` of a component produce). */
  predicate Directory(p: string)
  {
    p != [] && p[|p| - 1] != '/'
  }

  /** A single path segment: non-empty, without a separator, and neither `.`
      nor `..`, so that the operating system cannot resolve a path through it to
      another directory. Pub package names (lower-case letters, digits and
      underscores) are segments. */
  predicate Component(c: string)
  {
    c != [] && '/' !in c && c != "." && c != ".."
  }

  /** An absolute second part replaces the first. A relative one is appended
      to it, with a separator in between exactly when the first is non-empty and
      does not already end in one. Either way the result ends with the second
      part. */
  lemma JoinShape(a: string, b: string)
    ensures |b| > 0 && b[0] == '/' ==> Join(a, b) == b
    ensures !(|b| > 0 && b[0] == '/') ==> Join(a, b) == a + b || Join(a, b) == a + "/" + b
    ensures !(|b| > 0 && b[0] == '/') ==> (Join(a, b) == a + b <==> a == [] || a[|a| - 1] == '/')
    ensures |b| <= |Join(a, b)| && Join(a, b)[|Join(a, b)| - |b|..] == b
  {
  }

  lemma JoinComponent(a: string, b: string)
    requires Directory(a) && Component(b)
    ensures Join(a, b) == a + "/" + b
    ensures Directory(Join(a, b))
  {
  }
}
