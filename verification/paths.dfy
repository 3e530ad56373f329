/** Path strings of the simulated shell (app/page.tsx). Paths are plain
    strings; nothing here consults the filesystem. */
module Paths {
  import opened Text

  /** The home directory: the starting directory, the target of a bare `cd`
      and the floor of `cd ..`. */
  const Home: string := "/home/jstrack"

  predicate IsAbsolute(p: string) {
    |p| > 0 && p[0] == '/'
  }

  /** `name` placed under `dir`: joined with a slash, except that under the
      root the root's own slash is reused. */
  function Child(dir: string, name: string): (p: string)
    ensures |p| == (if dir == "/" then 0 else |dir|) + 1 + |name|
    ensures |p| > |name| && p[|p| - |name| - 1..] == "/" + name
    ensures IsAbsolute(dir) ==> IsAbsolute(p)
    ensures dir != "/" ==> |p| > |dir| && p[..|dir|] == dir
  {
    if dir == "/" then "/" + name else dir + "/" + name
  }

  /** Resolution of a command operand against the current directory: an
      operand starting with `/` is taken as is, anything else is placed
      under the current directory. No existence check is made. */
  function Resolve(cwd: string, arg: string): (p: string)
    ensures IsAbsolute(arg) ==> p == arg
    ensures !IsAbsolute(arg) ==> p == Child(cwd, arg)
    ensures IsAbsolute(cwd) ==> IsAbsolute(p)
    ensures Leaf(p) == Leaf(arg)
  {
    if IsAbsolute(arg) then arg
    else
      var base := if cwd == "/" then "" else cwd;
      LeafUnder(base, arg);
      assert Child(cwd, arg) == base + ['/'] + arg;
      Child(cwd, arg)
  }

  /** Whatever precedes the last slash does not affect the last component. */
  lemma LeafUnder(base: string, name: string)
    ensures Leaf(base + ['/'] + name) == Leaf(name)
  {
    SplitAround(base, '/', name);
    var pieces := Split(name, '/');
    assert Last(Split(base, '/') + pieces) == Last(pieces);
  }

  /** The last component of a path: everything after its last slash, or
      the whole path when it has none. */
  function Leaf(p: string): (name: string)
    ensures '/' !in name
    ensures '/' !in p ==> name == p
    ensures '/' in p ==> |name| < |p| && p[|p| - |name| - 1..] == "/" + name
  {
    SplitLast(p, '/');
    SplitPieces(p, '/');
    var name := Last(Split(p, '/'));
    assert '/' in p ==> p[|p| - |name| - 1..] == [p[|p| - |name| - 1]] + p[|p| - |name|..];
    name
  }

  /** The non-empty components of a path, in order: the pieces between
      slashes, with the empty ones dropped. */
  function Segments(p: string): (segs: seq<string>)
    ensures forall i :: 0 <= i < |segs| ==> segs[i] != "" && '/' !in segs[i]
  {
    SplitPieces(p, '/');
    NonEmpty(Split(p, '/'))
  }

  /** The target of `cd ..`: the current directory without its last
      component when it has more than two, and the home directory
      otherwise. */
  function Up(cwd: string): (p: string)
    ensures IsAbsolute(p)
  {
    var segs := Segments(cwd);
    if |segs| > 2 then "/" + Join(segs[..|segs| - 1], "/") else Home
  }

  /** A plain file or directory name as typed: non-empty and slash-free. */
  predicate IsName(name: string) {
    name != "" && '/' !in name
  }

  /** The path whose non-empty components are `segs`. */
  lemma {:induction false} SegmentsOfRooted(segs: seq<string>)
    requires |segs| > 0
    requires forall i :: 0 <= i < |segs| ==> IsName(segs[i])
    ensures Segments("/" + Join(segs, "/")) == segs
  {
    SplitAround("", '/', Join(segs, "/"));
    assert "/" + Join(segs, "/") == "" + ['/'] + Join(segs, "/");
    SplitJoin(segs, '/');
    NonEmptyConcat([""], segs);
  }

  lemma HomeSegments()
    ensures Segments(Home) == ["home", "jstrack"]
  {
    assert Join(["home", "jstrack"], "/") == "home/jstrack";
    SegmentsOfRooted(["home", "jstrack"]);
    assert "/" + "home/jstrack" == Home;
  }

  /** Placing a plain name under an absolute directory adds exactly one
      component; the root special case is what makes this hold at `/`. */
  lemma ChildSegments(dir: string, name: string)
    requires IsAbsolute(dir)
    requires IsName(name)
    ensures Segments(Child(dir, name)) == Segments(dir) + [name]
  {
    SplitPieces(name, '/');
    if dir == "/" {
      SplitPieces("", '/');
      SplitAround("", '/', "");
      assert "/" == "" + ['/'] + "";
      SplitAround("", '/', name);
      assert Child(dir, name) == "" + ['/'] + name;
      NonEmptyConcat([""], [name]);
      NonEmptyConcat([""], [""]);
    } else {
      SplitAround(dir, '/', name);
      NonEmptyConcat(Split(dir, '/'), [name]);
    }
  }

  /** `cd ..` drops exactly the last component of a directory more than two
      levels deep, and yields the home directory otherwise. */
  lemma UpDropsLastSegment(cwd: string)
    ensures |Segments(cwd)| > 2 ==> Segments(Up(cwd)) == Segments(cwd)[..|Segments(cwd)| - 1]
    ensures |Segments(cwd)| <= 2 ==> Up(cwd) == Home
  {
    var segs := Segments(cwd);
    if |segs| > 2 {
      SegmentsOfRooted(segs[..|segs| - 1]);
    }
  }

  /** At the home directory `cd ..` stays at the home directory. */
  lemma UpAtHome()
    ensures Up(Home) == Home
  {
    HomeSegments();
  }
}
