/**
  An abstract file tree, standing in for the disk that the sync script and the
  coverage checker inspect through pathlib.

  A tree maps every path the file system would answer for to what it finds
  there.  A symbolic link is a node of its own whose target is an absolute,
  already normalised path; `exists`, `is_dir` and `is_file` follow one hop of
  it, `is_symlink` does not.  A directory lists the names of its entries, as
  `iterdir` yields them.
*/
module FileTree {

  /** An absolute path as its segments; [] is the file-system root "/". */
  type Path = seq<string>

  datatype Node = Dir(entries: seq<string>) | File(content: string) | Symlink(target: Path)

  type Tree = map<Path, Node>

  datatype Option<T> = None | Some(value: T)

  /** The outcome of following one link hop at a path. */
  datatype Resolution = Resolved(path: Path) | Broken | NotLink

  /** One hop of link resolution at `p`: the link's own target, a dangling link, or no link at all. */
  function ResolveLink(t: Tree, p: Path): (r: Resolution)
    ensures r.Resolved? ==> r.path in t
  {
    if p in t && t[p].Symlink? then
      if t[p].target in t then Resolved(t[p].target) else Broken
    else NotLink
  }

  /** One hop of link resolution: the link's own target, a dangling link, or no link at all. */
  lemma ResolveLinkCases(t: Tree, p: Path)
    ensures ResolveLink(t, p).Resolved? ==> IsSymlink(t, p) && ResolveLink(t, p).path == t[p].target
    ensures ResolveLink(t, p) == NotLink <==> !IsSymlink(t, p)
    ensures ResolveLink(t, p) == Broken <==> IsSymlink(t, p) && t[p].target !in t
  {
  }

  /** The node seen at `p` once a link there is followed. */
  function Follow(t: Tree, p: Path): Option<Node> {
    match ResolveLink(t, p)
    case Resolved(q) => Some(t[q])
    case Broken => None
    case NotLink => if p in t then Some(t[p]) else None
  }

  /** pathlib's `exists()`: false for a missing path and for a broken link. */
  predicate Exists(t: Tree, p: Path) {
    Follow(t, p).Some?
  }

  /** pathlib's `is_dir()`. */
  predicate IsDir(t: Tree, p: Path) {
    Follow(t, p).Some? && Follow(t, p).value.Dir?
  }

  /** pathlib's `is_file()`: a regular file, possibly reached through a link. */
  predicate IsFile(t: Tree, p: Path) {
    Follow(t, p).Some? && Follow(t, p).value.File?
  }

  /** pathlib's `is_symlink()`: the entry itself is a link. */
  predicate IsSymlink(t: Tree, p: Path) {
    p in t && t[p].Symlink?
  }

  /** pathlib's `resolve()` on an entry: the link target, or the path itself. */
  function Resolve(t: Tree, p: Path): Path {
    if IsSymlink(t, p) then t[p].target else p
  }

  /** The bytes `shutil.copy2` reads from a regular file (following a link). */
  function ReadFile(t: Tree, p: Path): string
    requires IsFile(t, p)
  {
    Follow(t, p).value.content
  }

  /** pathlib's `.name`: the last segment ("" for the root). */
  function Name(p: Path): string {
    if p == [] then "" else p[|p| - 1]
  }

  /** pathlib's `.parent` (the root is its own parent). */
  function Parent(p: Path): Path {
    if p == [] then [] else p[..|p| - 1]
  }

  /** pathlib's `relative_to`: None where Python raises ValueError. */
  function RelativeTo(p: Path, base: Path): (r: Option<Path>)
    ensures r.Some? <==> base <= p
    ensures r.Some? ==> base + r.value == p
  {
    if base <= p then Some(p[|base|..]) else None
  }

  /** The names `iterdir` yields in a directory (reached through a link if need be), in its order. */
  function Entries(t: Tree, d: Path): seq<string> {
    if IsDir(t, d) then Follow(t, d).value.entries else []
  }

  /** `str()` of a relative path: segments joined by "/", and "." for the empty path. */
  function Join(segs: seq<string>): string {
    if segs == [] then "."
    else if |segs| == 1 then segs[0]
    else segs[0] + "/" + Join(segs[1..])
  }

  /** `str()` of an absolute path: "/" for the root, "/a/b" otherwise. */
  function AbsString(p: Path): string {
    if p == [] then "/" else SlashEach(p)
  }

  function SlashEach(p: Path): string {
    if p == [] then "" else "/" + p[0] + SlashEach(p[1..])
  }
}
