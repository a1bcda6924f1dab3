/** A simplified model of Go's `path/filepath` functions Join, Base and Dir.
    Join glues two components with exactly one '/' and drops the slashes
    where they meet, but does not perform the rest of Go's lexical cleaning:
    it keeps "." and ".." elements and a '//' inside a component, and a
    component that stands alone (the other one empty) is returned as given.
    Where no component holds such an element and a lone component has no
    trailing '/', it agrees with Go's Join. */
module Paths {
  import opened Text

  function TrimLeadingSlashes(s: string): (r: string)
    ensures |r| <= |s| && (r == [] || r[0] != '/')
    decreases |s|
  {
    if s != [] && s[0] == '/' then TrimLeadingSlashes(s[1..]) else s
  }

  function TrimTrailingSlashes(s: string): (r: string)
    ensures |r| <= |s| && (r == [] || r[|r| - 1] != '/')
    decreases |s|
  {
    if s != [] && s[|s| - 1] == '/' then TrimTrailingSlashes(s[..|s| - 1]) else s
  }

  /** `filepath.Join(a, b)`: empty components are dropped and the two parts
      meet in one '/'. A second part made only of slashes adds nothing, so the
      first part loses its trailing slashes, and two such parts make the root. */
  function Join(a: string, b: string): string {
    if a == "" then b
    else if b == "" then a
    else
      var head := TrimTrailingSlashes(a);
      var tail := TrimLeadingSlashes(b);
      if tail == "" then (if head == "" then "/" else head)
      else head + "/" + tail
  }

  /** A part joined onto the root is made absolute: it keeps its elements behind a single leading '/'. */
  lemma JoinOntoRoot(p: string)
    requires p != ""
    ensures Join("/", p) == if TrimLeadingSlashes(p) == "" then "/" else "/" + TrimLeadingSlashes(p)
  {
    assert TrimTrailingSlashes("/") == "";
  }

  function Join3(a: string, b: string, c: string): string {
    Join(Join(a, b), c)
  }

  /** The index of the last '/' in `s`, or -1 when there is none. */
  function LastSlash(s: string): (i: int)
    ensures -1 <= i < |s|
    ensures i >= 0 ==> s[i] == '/'
    ensures forall j :: i < j < |s| ==> s[j] != '/'
    decreases |s|
  {
    if s == [] then -1
    else if s[|s| - 1] == '/' then |s| - 1
    else LastSlash(s[..|s| - 1])
  }

  /** `filepath.Base`: the last element of the path. */
  function Base(p: string): string {
    if p == "" then "."
    else
      var q := TrimTrailingSlashes(p);
      if q == "" then "/" else q[LastSlash(q) + 1..]
  }

  /** `path.Dir`: everything but the last element, without trailing slashes. */
  function Dir(p: string): string {
    var d := p[..LastSlash(p) + 1];
    if d == "" then "."
    else
      var t := TrimTrailingSlashes(d);
      if t == "" then "/" else t
  }

  /** A clean directory path: non-empty and without a trailing '/'. */
  predicate CleanDir(p: string) {
    p != "" && p[|p| - 1] != '/'
  }

  /** A single path element: non-empty and free of '/'. */
  predicate Element(name: string) {
    name != "" && forall i :: 0 <= i < |name| ==> name[i] != '/'
  }

  /** Two non-empty parts with no '/' where they meet are joined by a single '/'. */
  lemma JoinPlain(a: string, b: string)
    requires a != "" && b != "" && a[|a| - 1] != '/' && b[0] != '/'
    ensures Join(a, b) == a + "/" + b
  {
  }

  lemma JoinElement(parent: string, name: string)
    requires CleanDir(parent) && Element(name)
    ensures Join(parent, name) == parent + "/" + name
  {
  }

  /** Joining an element onto a clean directory can be undone by Base and Dir. */
  lemma BaseDirOfJoin(parent: string, name: string)
    requires CleanDir(parent) && Element(name)
    ensures Base(Join(parent, name)) == name
    ensures Dir(Join(parent, name)) == parent
  {
    var p := parent + "/" + name;
    JoinElement(parent, name);
    assert TrimTrailingSlashes(p) == p;
    assert LastSlash(p) == |parent| by {
      assert p[|parent|] == '/';
      assert forall j :: |parent| < j < |p| ==> p[j] == name[j - |parent| - 1];
    }
    assert p[|parent| + 1..] == name;
    assert p[..|parent| + 1] == parent + "/";
    assert TrimTrailingSlashes(parent + "/") == parent by {
      assert (parent + "/")[..|parent|] == parent;
    }
  }
}
