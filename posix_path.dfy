/** `os.path.join` on POSIX (`posixpath.join`) for a directory and one name. */
module PosixPath {
  import opened PyStrings

  function Join(dir: string, name: string): (r: string)
    ensures StartsWith(name, "/") ==> r == name
    ensures !StartsWith(name, "/") ==> r == DirPrefix(dir) + name
  {
    if StartsWith(name, "/") then name
    else if dir == "" || EndsWith(dir, "/") then dir + name
    else dir + "/" + name
  }

  /** What `Join(dir, name)` puts in front of a relative `name`. */
  function DirPrefix(dir: string): string {
    if dir == "" || EndsWith(dir, "/") then dir else dir + "/"
  }

  /** Within one directory, distinct relative names give distinct paths. */
  lemma JoinInjective(dir: string, a: string, b: string)
    requires !StartsWith(a, "/") && !StartsWith(b, "/")
    requires Join(dir, a) == Join(dir, b)
    ensures a == b
  {
    var p := DirPrefix(dir);
    assert (p + a)[|p|..] == a;
    assert (p + b)[|p|..] == b;
  }
}
