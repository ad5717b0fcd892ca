/** POSIX path joining, as Python's os.path.join does it for two components. */
module Paths {

  /** What os.path.join puts in front of a relative second component. */
  function JoinPrefix(a: string): string
  {
    if a == [] || a[|a| - 1] == '/' then a else a + "/"
  }

  predicate Relative(b: string) { b == [] || b[0] != '/' }

  /**
   * os.path.join(a, b): an absolute b replaces a; otherwise b is appended,
   * with a '/' in between unless a is empty or already ends with one.
   */
  function Join(a: string, b: string): (r: string)
    ensures !Relative(b) ==> r == b
    ensures Relative(b) ==> r == JoinPrefix(a) + b
  {
    if !Relative(b) then b
    else if a == [] || a[|a| - 1] == '/' then a + b
    else a + "/" + b
  }

  /**
   * Joining twice is joining once with the two components separated by '/',
   * provided the first is a non-empty relative name that does not end with '/'.
   */
  lemma JoinJoin(a: string, b: string, c: string)
    requires b != [] && b[0] != '/' && b[|b| - 1] != '/'
    requires Relative(c)
    ensures Join(Join(a, b), c) == Join(a, b + "/" + c)
  {
    var ab := Join(a, b);
    assert ab == JoinPrefix(a) + b;
    assert ab[|ab| - 1] == b[|b| - 1];
    assert (b + "/" + c)[0] == b[0];
    assert JoinPrefix(a) + b + "/" + c == JoinPrefix(a) + (b + "/" + c);
  }

  /** Below one directory, different relative names give different paths. */
  lemma JoinInjective(a: string, b: string, c: string)
    requires Relative(b) && Relative(c)
    requires Join(a, b) == Join(a, c)
    ensures b == c
  {
    var p := JoinPrefix(a);
    assert b == (p + b)[|p|..];
    assert c == (p + c)[|p|..];
  }

  /** Below one directory, names made of different middles and the same ending are different. */
  lemma NamesApart(dir: string, a: string, b: string, ext: string)
    requires a != b
    ensures dir + "/" + a + ext != dir + "/" + b + ext
  {
    var n := |dir| + 1;
    var x, y := dir + "/" + a + ext, dir + "/" + b + ext;
    assert x[n..n + |a|] == a;
    assert y[n..n + |b|] == b;
  }
}
