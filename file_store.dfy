/**
 * The part of the file system the handlers touch, as a map from absolute paths to nodes,
 * with the semantics of the `fs/promises` calls they make (`mkdir`, `writeFile`,
 * `readFile`, `rm`, `readdir`, `stat`).
 */
module FileStore {
  import opened Outcomes

  type Byte = b: int | 0 <= b < 256
  type Bytes = seq<Byte>

  /** An absolute path as the list of its components; `[]` is the root directory. */
  type Path = seq<string>

  datatype Node = Dir(mtime: int) | File(data: Bytes, mtime: int)

  type Tree = map<Path, Node>

  /** `p` is `dir` itself or lies somewhere below it. */
  predicate Within(dir: Path, p: Path) {
    |dir| <= |p| && p[..|dir|] == dir
  }

  /** A directory that holds `base + rest` either holds `base` or ends with one of the components of `rest`. */
  lemma WithinExtension(dir: Path, base: Path, rest: Path)
    ensures Within(dir, base + rest) ==>
      Within(dir, base) || (|base| < |dir| <= |base| + |rest| && dir[|dir| - 1] == rest[|dir| - 1 - |base|])
  {
    if Within(dir, base + rest) && |dir| <= |base| {
      assert (base + rest)[..|dir|] == base[..|dir|];
    }
  }

  function Parent(p: Path): Path
    requires p != []
  {
    p[..|p| - 1]
  }

  /** The root is a directory and every other node hangs off a directory. */
  ghost predicate WellFormed(t: Tree) {
    && [] in t && t[[]].Dir?
    && forall p :: p in t && p != [] ==> Parent(p) in t && t[Parent(p)].Dir?
  }

  /** The path as a string, as `path.join` prints it. */
  function Render(p: Path): string {
    if p == [] then "/" else RenderComponents(p)
  }

  function RenderComponents(p: Path): string {
    if p == [] then "" else "/" + p[0] + RenderComponents(p[1..])
  }

  datatype Code = ENOENT | ENOTDIR | EEXIST | EISDIR

  /** The `message` of the error Node raises for a failed system call that reports no path. */
  function BareErrorMessage(code: Code, syscall: string): (m: string)
    ensures m != []
  {
    var head := match code
      case ENOENT => "ENOENT: no such file or directory"
      case ENOTDIR => "ENOTDIR: not a directory"
      case EEXIST => "EEXIST: file already exists"
      case EISDIR => "EISDIR: illegal operation on a directory";
    head + ", " + syscall
  }

  /** The `message` of the error Node raises for a failed system call on `p`: the bare message, then the quoted path. */
  function ErrorMessage(code: Code, syscall: string, p: Path): (m: string)
    ensures m != []
  {
    BareErrorMessage(code, syscall) + " '" + Render(p) + "'"
  }

  function Prefixes(p: Path): set<Path> {
    set k | 0 <= k <= |p| :: p[..k]
  }

  /** `mkdir(p, { recursive: true })`: creates `p` and every missing ancestor, stamped `now`. */
  function MakeDirs(t: Tree, p: Path, now: int): (r: Result<Tree>)
    ensures r.Ok? ==> p in r.value && r.value[p].Dir?
    ensures r.Ok? ==> forall q :: q in t ==> q in r.value && r.value[q] == t[q]
    ensures r.Ok? ==> forall q :: q in r.value && q !in t ==> Within(q, p) && r.value[q] == Dir(now)
    ensures r.Err? ==> exists k :: 0 <= k <= |p| && p[..k] in t && t[p[..k]].File?
  {
    if p in t && t[p].Dir? then Ok(t)
    else if p in t then
      assert p[..|p|] == p;
      Err(ErrorMessage(EEXIST, "mkdir", p))
    else if exists k :: 0 <= k < |p| && p[..k] in t && t[p[..k]].File? then
      Err(ErrorMessage(ENOTDIR, "mkdir", p))
    else
      assert p[..|p|] == p && p in Prefixes(p);
      Ok(t + map q | q in Prefixes(p) && q !in t :: Dir(now))
  }

  /** In a well-formed tree every ancestor of an existing node is a directory. */
  lemma {:induction false} AncestorsAreDirs(t: Tree, p: Path, k: nat)
    requires WellFormed(t) && p in t && k < |p|
    ensures p[..k] in t && t[p[..k]].Dir?
    decreases |p|
  {
    var up := Parent(p);
    if k < |up| {
      AncestorsAreDirs(t, up, k);
      assert up[..k] == p[..k];
    } else {
      assert up == p[..k];
    }
  }

  /** In a well-formed tree `mkdir -p` fails exactly when some ancestor of `p`, or `p` itself, is a file. */
  lemma MakeDirsFails(t: Tree, p: Path, now: int)
    requires WellFormed(t)
    ensures MakeDirs(t, p, now).Err? <==> exists k :: 0 <= k <= |p| && p[..k] in t && t[p[..k]].File?
  {
    if p in t && t[p].Dir? {
      forall k | 0 <= k <= |p| && p[..k] in t ensures t[p[..k]].Dir? {
        if k < |p| {
          AncestorsAreDirs(t, p, k);
        } else {
          assert p[..k] == p;
        }
      }
    } else if p in t {
      assert p[..|p|] == p;
    }
  }

  lemma MakeDirsWellFormed(t: Tree, p: Path, now: int)
    requires WellFormed(t) && MakeDirs(t, p, now).Ok?
    ensures WellFormed(MakeDirs(t, p, now).value)
  {
    var r := MakeDirs(t, p, now).value;
    forall q | q in r && q != [] ensures Parent(q) in r && r[Parent(q)].Dir? {
      if q !in t {
        assert q in Prefixes(p);
        var k :| 0 <= k <= |p| && q == p[..k];
        assert Parent(q) == p[..k - 1];
        if Parent(q) in t {
          assert t[p[..k - 1]].Dir?;
        }
      }
    }
  }

  /** `writeFile(p, data)`: creates or truncates the regular file `p`. */
  function WriteAt(t: Tree, p: Path, data: Bytes, now: int): (r: Result<Tree>)
    ensures r.Ok? <==> p != [] && Parent(p) in t && t[Parent(p)].Dir? && !(p in t && t[p].Dir?)
    ensures r.Ok? ==> r.value == t[p := File(data, now)]
  {
    if p == [] || (p in t && t[p].Dir?) then Err(ErrorMessage(EISDIR, "open", p))
    else if Parent(p) !in t then Err(ErrorMessage(ENOENT, "open", p))
    else if t[Parent(p)].File? then Err(ErrorMessage(ENOTDIR, "open", p))
    else Ok(t[p := File(data, now)])
  }

  lemma WriteAtWellFormed(t: Tree, p: Path, data: Bytes, now: int)
    requires WellFormed(t) && WriteAt(t, p, data, now).Ok?
    ensures WellFormed(WriteAt(t, p, data, now).value)
  {
    var r := WriteAt(t, p, data, now).value;
    forall q | q in r && q != [] ensures Parent(q) in r && r[Parent(q)].Dir? {
      if q != p && Parent(q) == p {
        assert false;
      }
    }
  }

  /** `readFile(p)`. */
  function ReadAt(t: Tree, p: Path): (r: Result<Bytes>)
    ensures r.Ok? <==> p in t && t[p].File?
    ensures r.Ok? ==> r.value == t[p].data
    ensures p in t && t[p].Dir? ==> r == Err("EISDIR: illegal operation on a directory, read")
  {
    if p !in t then Err(ErrorMessage(ENOENT, "open", p))
    else if t[p].Dir? then Err(BareErrorMessage(EISDIR, "read"))
    else Ok(t[p].data)
  }

  /** `stat(p).mtimeMs`. */
  function StatAt(t: Tree, p: Path): (r: Result<int>)
    ensures r.Ok? <==> p in t
    ensures r.Ok? ==> r.value == t[p].mtime
  {
    if p !in t then Err(ErrorMessage(ENOENT, "stat", p)) else Ok(t[p].mtime)
  }

  /** `rm(p, { recursive: true, force: true })`: removes `p` and everything below it; a missing `p` is no error. */
  function RemoveTree(t: Tree, p: Path): (r: Tree)
    ensures forall q :: q in r <==> q in t && !Within(p, q)
    ensures forall q :: q in r ==> r[q] == t[q]
  {
    map q | q in t && !Within(p, q) :: t[q]
  }

  lemma RemoveTreeWellFormed(t: Tree, p: Path)
    requires WellFormed(t) && p != []
    ensures WellFormed(RemoveTree(t, p))
  {
    assert !Within(p, []);
  }

  /** The names of the entries directly inside `d`. */
  function ChildNames(t: Tree, d: Path): (names: set<string>)
    ensures forall n :: n in names <==> d + [n] in t
  {
    var names := set q | q in t && |q| == |d| + 1 && Within(d, q) :: q[|d|];
    assert forall n :: n in names ==> d + [n] in t by {
      forall n | n in names ensures d + [n] in t {
        var q :| q in t && |q| == |d| + 1 && Within(d, q) && q[|d|] == n;
        assert q == d + [n];
      }
    }
    assert forall n :: d + [n] in t ==> n in names by {
      forall n | d + [n] in t ensures n in names {
        var q := d + [n];
        assert |q| == |d| + 1 && Within(d, q) && q[|d|] == n;
      }
    }
    names
  }

  /** `readdir(d)`, as a set: the order Node reports entries in is left open. */
  function ListDir(t: Tree, d: Path): (r: Result<set<string>>)
    ensures r.Ok? <==> d in t && t[d].Dir?
    ensures r.Ok? ==> r.value == ChildNames(t, d)
  {
    if d !in t then Err(ErrorMessage(ENOENT, "scandir", d))
    else if t[d].File? then Err(ErrorMessage(ENOTDIR, "scandir", d))
    else Ok(ChildNames(t, d))
  }

  /** The file system, changed in place by the handlers' awaited calls. */
  class Store {
    var tree: Tree

    ghost predicate Valid()
      reads this
    {
      WellFormed(tree)
    }

    constructor (t: Tree)
      requires WellFormed(t)
      ensures Valid() && tree == t
    {
      tree := t;
    }

    method Mkdir(p: Path, now: int) returns (o: Outcome)
      requires Valid()
      modifies this
      ensures Valid()
      ensures o.Pass? ==> p in tree && tree[p].Dir?
      ensures match MakeDirs(old(tree), p, now)
        case Ok(t) => o == Pass && tree == t
        case Err(m) => o == Fail(m) && tree == old(tree)
    {
      var r := MakeDirs(tree, p, now);
      if r.Ok? {
        MakeDirsWellFormed(tree, p, now);
        tree := r.value;
        o := Pass;
      } else {
        o := Fail(r.message);
      }
    }

    method WriteFile(p: Path, data: Bytes, now: int) returns (o: Outcome)
      requires Valid()
      modifies this
      ensures Valid()
      ensures o.Pass? ==> p in tree && tree[p] == File(data, now)
      ensures match WriteAt(old(tree), p, data, now)
        case Ok(t) => o == Pass && tree == t
        case Err(m) => o == Fail(m) && tree == old(tree)
    {
      var r := WriteAt(tree, p, data, now);
      if r.Ok? {
        WriteAtWellFormed(tree, p, data, now);
        tree := r.value;
        o := Pass;
      } else {
        o := Fail(r.message);
      }
    }

    method ReadFile(p: Path) returns (r: Result<Bytes>)
      ensures r == ReadAt(tree, p)
      ensures r.Ok? <==> p in tree && tree[p].File?
      ensures r.Ok? ==> r.value == tree[p].data
    {
      r := ReadAt(tree, p);
    }

    method Stat(p: Path) returns (r: Result<int>)
      ensures r == StatAt(tree, p)
      ensures r.Ok? <==> p in tree
      ensures r.Ok? ==> r.value == tree[p].mtime
    {
      r := StatAt(tree, p);
    }

    method Rm(p: Path)
      requires Valid() && p != []
      modifies this
      ensures Valid()
      ensures tree == RemoveTree(old(tree), p)
      ensures forall q :: q in tree ==> !Within(p, q)
    {
      RemoveTreeWellFormed(tree, p);
      tree := RemoveTree(tree, p);
    }

    /** Lists `d`, each entry name exactly once, in an order the model leaves open. */
    method Readdir(d: Path) returns (r: Result<seq<string>>)
      ensures r.Ok? <==> d in tree && tree[d].Dir?
      ensures r.Err? ==> r.message == ListDir(tree, d).message
      ensures r.Ok? ==> forall n :: multiset(r.value)[n] == if d + [n] in tree then 1 else 0
    {
      var listed := ListDir(tree, d);
      if listed.Err? {
        return Err(listed.message);
      }
      var all := listed.value;
      var remaining := all;
      var names: seq<string> := [];
      while remaining != {}
        invariant remaining <= all
        invariant forall n :: multiset(names)[n] == if n in all && n !in remaining then 1 else 0
        decreases |remaining|
      {
        var n :| n in remaining;
        names := names + [n];
        remaining := remaining - {n};
      }
      r := Ok(names);
    }
  }
}
