/** The part of `std::path` on Unix that the handlers use: `file_name`,
    `join` and `parent` on `/`-separated paths held as text. */
module Paths {
  import opened Base
  import opened Seqs
  import opened Text

  /** A `/`-separated piece that is a component of the path: empty pieces
      (from repeated or trailing separators) and `.` are not. */
  function Component(piece: string): Option<string> {
    if piece == [] || piece == "." then None else Some(piece)
  }

  /** The components of a path, in order (the root is not one of them). */
  function Components(p: string): seq<string> {
    FilterMap(SplitOn(p, '/'), Component)
  }

  /** A name that `file_name` can return and that `join` appends as a
      single component. */
  predicate NormalName(n: string) {
    n != [] && '/' !in n && n != "." && n != ".."
  }

  lemma ComponentsAreNamesOrUp(p: string, c: string)
    requires c in Components(p)
    ensures c != [] && '/' !in c && c != "."
  {
    FilterMapSound(SplitOn(p, '/'), Component, c);
    SplitOnNoSep(p, '/');
  }

  /** `Path::file_name`: the last component, unless the path has none or
      ends in `..`. */
  function FileName(p: string): (r: Option<string>)
    ensures r.Some? ==> NormalName(r.value)
  {
    var cs := Components(p);
    if cs == [] || cs[|cs| - 1] == ".." then None
    else
      ComponentsAreNamesOrUp(p, cs[|cs| - 1]);
      Some(cs[|cs| - 1])
  }

  /** A last piece `t` after a separator adds at most itself to the
      components. */
  lemma ComponentsOfLastPiece(p: string, t: string)
    requires '/' !in t
    ensures Components(p + "/" + t) == Components(p) + FilterMap([t], Component)
  {
    assert p + "/" + t == p + ['/'] + t;
    SplitAppend(p, t, '/');
    SplitOnSingle(t, '/');
    FilterMapAppend(SplitOn(p, '/'), [t], Component);
  }

  /** A trailing separator or `.` does not change the file name, a
      trailing `..` leaves none, and a path with no normal component has
      none. */
  lemma FileNameOfTrailing(p: string)
    ensures FileName(p + "/") == FileName(p)
    ensures FileName(p + "/.") == FileName(p)
    ensures FileName(p + "/..") == None
    ensures FileName("") == None && FileName(".") == None && FileName("..") == None
  {
    ComponentsOfLastPiece(p, "");
    assert p + "/" + "" == p + "/";
    ComponentsOfLastPiece(p, ".");
    assert p + "/" + "." == p + "/.";
    assert FilterMap(["."], Component) == [];
    ComponentsOfLastPiece(p, "..");
    assert p + "/" + ".." == p + "/..";
    assert FilterMap([".."], Component) == [".."];
    SplitOnSingle("", '/');
    SplitOnSingle(".", '/');
    SplitOnSingle("..", '/');
  }

  /** `Path::join`: an absolute name replaces the path; otherwise a `/` is
      put between the two unless the path is empty or already ends in one. */
  function JoinPath(dir: string, name: string): string {
    if name != [] && name[0] == '/' then name
    else if dir == [] || dir[|dir| - 1] == '/' then dir + name
    else dir + "/" + name
  }

  /** `Path::parent` for paths without `.` components: the path without
      its last component and the separators before it; `None` for the
      empty path and the root. */
  function Parent(p: string): Option<string> {
    var t := TrimEndMatches(p, '/');
    if t == [] then None else Some(DirPart(t))
  }

  /** What is left of a path once its last component and the separators
      before it are dropped: the root if only separators are left, empty
      if nothing is. */
  function DirPart(t: string): string {
    if t == [] then []
    else if t[|t| - 1] != '/' then DirPart(t[..|t| - 1])
    else
      var d := TrimEndMatches(t, '/');
      if d == [] then "/" else d
  }

  lemma ComponentsOfName(name: string)
    requires NormalName(name)
    ensures Components(name) == [name]
  {
    SplitOnSingle(name, '/');
    assert [name][..0] == [];
  }

  /** A normal name put after a separator is the file name. */
  lemma FileNameOfChild(d: string, name: string)
    requires NormalName(name)
    ensures FileName(d + "/" + name) == Some(name)
  {
    assert d + "/" + name == d + ['/'] + name;
    SplitAppend(d, name, '/');
    FilterMapAppend(SplitOn(d, '/'), SplitOn(name, '/'), Component);
    ComponentsOfName(name);
  }

  /** Joining a normal name onto any directory gives a path whose file
      name is that name. */
  lemma {:induction false} FileNameOfJoin(dir: string, name: string)
    requires NormalName(name)
    ensures FileName(JoinPath(dir, name)) == Some(name)
  {
    if dir == [] {
      assert JoinPath(dir, name) == name;
      ComponentsOfName(name);
    } else if dir[|dir| - 1] == '/' {
      var d := dir[..|dir| - 1];
      assert dir + name == d + "/" + name;
      FileNameOfChild(d, name);
    } else {
      FileNameOfChild(dir, name);
    }
  }

  lemma {:induction false} DirPartOfChild(d: string, name: string)
    requires '/' !in name
    requires d == [] || d[|d| - 1] != '/'
    ensures DirPart(d + "/" + name) == if d == [] then "/" else d
    decreases |name|
  {
    var p := d + "/" + name;
    if name == [] {
      assert p == d + "/";
      assert p[..|p| - 1] == d;
    } else {
      var n := |name| - 1;
      assert p[|p| - 1] == name[n];
      assert p[..|p| - 1] == d + "/" + name[..n];
      DirPartOfChild(d, name[..n]);
    }
  }

  /** The parent of `d/name` is `d` (the root when `d` is empty). */
  lemma ParentOfChild(d: string, name: string)
    requires NormalName(name)
    requires d == [] || d[|d| - 1] != '/'
    ensures Parent(d + "/" + name) == Some(if d == [] then "/" else d)
  {
    var p := d + "/" + name;
    assert p[|p| - 1] == name[|name| - 1];
    DirPartOfChild(d, name);
  }

  /** `Path::join` and `Path::parent` undo each other on a directory that
      does not end in a separator. */
  lemma ParentOfJoin(dir: string, name: string)
    requires NormalName(name)
    requires dir != [] && dir[|dir| - 1] != '/'
    ensures Parent(JoinPath(dir, name)) == Some(dir)
  {
    ParentOfChild(dir, name);
  }
}
