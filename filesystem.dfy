/**
 * The disk seen by both scripts: a map from path to file content and the set
 * of directories that exist. Paths are POSIX-style strings; `Join` and
 * `Dirname` follow os.path.join and os.path.dirname for the cases the scripts
 * use. The class `Fs` is the mutable disk, with the library primitives the
 * scripts call: open-for-write, os.makedirs, shutil.copy, shutil.copytree.
 */
module FileSystem {
  import opened Text
  import Wrappers

  type Path = string

  datatype Disk = Disk(files: map<Path, string>, dirs: set<Path>)

  /** os.path.join(a, b) / PurePath(a).joinpath(b) for two parts. */
  function Join(a: Path, b: Path): Path
  {
    if |b| > 0 && b[0] == '/' then b
    else if a == "" then b
    else if a[|a| - 1] == '/' then a + b
    else a + "/" + b
  }

  /** Position just after the last '/', or 0 when there is none. */
  function LastSlashEnd(p: Path): (i: nat)
    ensures i <= |p|
    ensures i > 0 ==> p[i - 1] == '/'
    ensures forall k :: i <= k < |p| ==> p[k] != '/'
  {
    if p == [] then 0 else if p[|p| - 1] == '/' then |p| else LastSlashEnd(p[..|p| - 1])
  }

  function StripTrailingSlashes(h: Path): (r: Path)
    ensures |r| <= |h| && r == h[..|r|]
  {
    if h != [] && h[|h| - 1] == '/' then StripTrailingSlashes(h[..|h| - 1]) else h
  }

  predicate AllSlashes(h: Path)
  {
    forall k :: 0 <= k < |h| ==> h[k] == '/'
  }

  /** os.path.dirname. */
  function Dirname(p: Path): Path
  {
    var head := p[..LastSlashEnd(p)];
    if head != [] && !AllSlashes(head) then StripTrailingSlashes(head) else head
  }

  /** Joining a plain name onto a directory and taking the dirname gives the directory back. */
  lemma JoinName(a: Path, name: Path)
    requires a != "" && a[|a| - 1] != '/'
    requires name != "" && '/' !in name
    ensures Join(a, name) == a + "/" + name
    ensures Dirname(Join(a, name)) == a
  {
    var p := a + "/" + name;
    assert Join(a, name) == p;
    LastSlashOfJoin(a, name);
    assert p[..|a| + 1] == a + "/";
    StripOneSlash(a);
  }

  lemma LastSlashOfJoin(a: Path, name: Path)
    requires '/' !in name
    ensures LastSlashEnd(a + "/" + name) == |a| + 1
  {
    var p := a + "/" + name;
    var i := LastSlashEnd(p);
    assert p[|a|] == '/';
    assert i >= |a| + 1;
  }

  lemma StripOneSlash(a: Path)
    requires a != "" && a[|a| - 1] != '/'
    ensures !AllSlashes(a + "/") && StripTrailingSlashes(a + "/") == a
  {
    assert (a + "/")[..|a|] == a;
    assert (a + "/")[|a| - 1] != '/';
  }

  /** The directories os.makedirs(d) leaves in place: `d` and every proper prefix ending before a '/'. */
  function Ancestors(d: Path): (s: set<Path>)
    ensures d in s
  {
    {d} + set i | 0 < i < |d| && d[i] == '/' :: d[..i]
  }

  /** Every directory's ancestors are directories too, as on any real disk. */
  predicate DirsClosed(disk: Disk)
  {
    forall d :: d in disk.dirs ==> Ancestors(d) <= disk.dirs
  }

  /** The parent directory of `p` exists (the current directory always does). */
  predicate ParentExists(disk: Disk, p: Path)
  {
    Dirname(p) == "" || Dirname(p) in disk.dirs
  }

  /** The path `k` (under `src/`) takes when its tree is copied to `dest`. */
  function Rebase(k: Path, src: Path, dest: Path): Path
    requires HasPrefix(k, src + "/")
  {
    dest + k[|src|..]
  }

  lemma RebaseInjective(src: Path, dest: Path)
    ensures forall k1, k2 :: HasPrefix(k1, src + "/") && HasPrefix(k2, src + "/") && Rebase(k1, src, dest) == Rebase(k2, src, dest) ==> k1 == k2
  {
    forall k1, k2 | HasPrefix(k1, src + "/") && HasPrefix(k2, src + "/") && Rebase(k1, src, dest) == Rebase(k2, src, dest)
      ensures k1 == k2
    {
      assert k1[|src|..] == Rebase(k1, src, dest)[|dest|..];
      assert k2[|src|..] == Rebase(k2, src, dest)[|dest|..];
      assert k1 == k1[..|src|] + k1[|src|..];
      assert k2 == k2[..|src|] + k2[|src|..];
    }
  }

  lemma RebaseUnder(k: Path, src: Path, dest: Path)
    requires HasPrefix(k, src + "/")
    ensures HasPrefix(Rebase(k, src, dest), dest + "/")
  {
    assert k[|src|] == '/';
    assert Rebase(k, src, dest)[..|dest| + 1] == dest + "/";
  }

  /** The entries under `src/`, re-rooted under `dest`, as shutil.copytree writes them. */
  function RebasedFiles(files: map<Path, string>, src: Path, dest: Path): (m: map<Path, string>)
    ensures forall k :: k in files && HasPrefix(k, src + "/") ==> Rebase(k, src, dest) in m && m[Rebase(k, src, dest)] == files[k]
    ensures forall q :: q in m ==> HasPrefix(q, dest + "/")
  {
    RebaseInjective(src, dest);
    forall k | HasPrefix(k, src + "/") ensures HasPrefix(Rebase(k, src, dest), dest + "/") { RebaseUnder(k, src, dest); }
    map k | k in files && HasPrefix(k, src + "/") :: Rebase(k, src, dest) := files[k]
  }

  function RebasedDirs(dirs: set<Path>, src: Path, dest: Path): (s: set<Path>)
    ensures forall q :: q in s ==> HasPrefix(q, dest + "/")
  {
    forall k | HasPrefix(k, src + "/") ensures HasPrefix(Rebase(k, src, dest), dest + "/") { RebaseUnder(k, src, dest); }
    set k | k in dirs && HasPrefix(k, src + "/") :: Rebase(k, src, dest)
  }

  /** The disk after shutil.copytree(src, dest) when `src` is a directory. */
  function CopiedTree(disk: Disk, src: Path, dest: Path): (r: Disk)
    ensures dest in r.dirs
    ensures forall k :: k in disk.files && !HasPrefix(k, dest + "/") ==> k in r.files && r.files[k] == disk.files[k]
    ensures forall k :: k in disk.files && HasPrefix(k, src + "/") ==> Rebase(k, src, dest) in r.files && r.files[Rebase(k, src, dest)] == disk.files[k]
    ensures forall k :: k in r.files ==> k in disk.files || HasPrefix(k, dest + "/")
  {
    Disk(disk.files + RebasedFiles(disk.files, src, dest),
         disk.dirs + Ancestors(dest) + RebasedDirs(disk.dirs, src, dest))
  }

  /** The mutable disk. */
  class Fs {
    var files: map<Path, string>
    var dirs: set<Path>

    function State(): Disk
      reads this
    {
      Disk(files, dirs)
    }

    constructor (disk: Disk)
      ensures State() == disk
    {
      files := disk.files;
      dirs := disk.dirs;
    }

    /** open(path, "w") followed by write(text): truncates or creates the file. */
    method Write(path: Path, text: string)
      requires ParentExists(State(), path)
      modifies this
      ensures files == old(files)[path := text] && dirs == old(dirs)
    {
      files := files[path := text];
    }

    /** A further write() on a file that is open for writing. */
    method Append(path: Path, text: string)
      requires path in files
      modifies this
      ensures files == old(files)[path := old(files)[path] + text] && dirs == old(dirs)
    {
      files := files[path := files[path] + text];
    }

    /** os.makedirs(d, exist_ok=True); Python refuses the empty name, so it is excluded here. */
    method MakeDirs(d: Path)
      requires d != ""
      modifies this
      ensures dirs == old(dirs) + Ancestors(d) && files == old(files)
    {
      dirs := dirs + Ancestors(d);
    }

    /** shutil.copy(src, dest): fails (FileNotFoundError) when `src` is not a file. */
    method Copy(src: Path, dest: Path) returns (ok: bool)
      requires ParentExists(State(), dest)
      modifies this
      ensures ok <==> src in old(files)
      ensures files == (if ok then old(files)[dest := old(files)[src]] else old(files))
      ensures dirs == old(dirs)
    {
      ok := src in files;
      if ok {
        files := files[dest := files[src]];
      }
    }

    /** shutil.copytree(src, dest): fails when `src` is not a directory. */
    method CopyTree(src: Path, dest: Path) returns (ok: bool)
      modifies this
      ensures ok <==> src in old(dirs)
      ensures State() == (if ok then CopiedTree(old(State()), src, dest) else old(State()))
    {
      ok := src in dirs;
      if ok {
        var after := CopiedTree(State(), src, dest);
        files, dirs := after.files, after.dirs;
      }
    }

    /** Hands the file contents to an external collaborator; `None` means it raised. */
    method Replace(next: Wrappers.Option<map<Path, string>>) returns (ok: bool)
      modifies this
      ensures ok <==> next.Some?
      ensures files == (if ok then next.value else old(files)) && dirs == old(dirs)
    {
      ok := next.Some?;
      if ok {
        files := next.value;
      }
    }
  }
}
