/**
 * The file-tree operations of app/utils/filesystem.py over an abstract file system.
 *
 * A `Tree` maps each absolute file path to its bytes and lists the existing directories.
 * The functions below say what each operation does to a tree; the class `FileSystem` holds
 * the live tree and its methods change it as the functions say.
 */
module FileSystem {
  import opened Options
  import opened Paths

  type Blob = seq<bv8>

  datatype Tree = Tree(files: map<string, Blob>, dirs: set<string>)

  /** `Path.exists()`: a file or a directory is there. */
  predicate Exists(t: Tree, p: string) {
    p in t.files || p in t.dirs
  }

  /** `BUFFER_SIZE`: the chunk size `hash_file` reads with. */
  const BUFFER_SIZE: nat := 1024 * 1024

  /**
   * What `hash_file` returns for a file whose bytes are `contents`: the digest of the bytes,
   * or the sentinel "" when the file cannot be opened or read (`contents == None`).
   */
  function FileDigest(contents: Option<Blob>, digestOf: Blob -> string): string {
    match contents
    case None => ""
    case Some(data) => digestOf(data)
  }

  /** `hash_file`: feed the bytes chunk by chunk into the digest, then take the hex digest. */
  method HashFile(contents: Option<Blob>, digestOf: Blob -> string) returns (h: string)
    ensures contents == None ==> h == ""
    ensures contents != None ==> h == digestOf(contents.value)
  {
    if contents == None {
      return "";
    }
    var data := contents.value;
    var fed: Blob := [];
    var i := 0;
    while i < |data|
      invariant 0 <= i <= |data|
      invariant fed == data[..i]
    {
      var n := if |data| - i < BUFFER_SIZE then |data| - i else BUFFER_SIZE;
      fed := fed + data[i..i + n];
      i := i + n;
    }
    assert fed == data;
    h := digestOf(fed);
  }

  /**
   * `copy_file(src, dst)`: create the parents of `dst`, then `shutil.copy2`, which copies into
   * `dst/<name of src>` when `dst` is an existing directory.
   */
  function Copied(t: Tree, src: string, dst: string): (r: Tree)
    requires src in t.files
    ensures dst !in t.dirs ==> dst in r.files && r.files[dst] == t.files[src]
    ensures dst !in t.dirs ==> forall p :: p != dst ==> (p in r.files <==> p in t.files)
    ensures dst !in t.dirs ==> forall p :: p != dst && p in t.files ==> r.files[p] == t.files[p]
    ensures Landing(t, src, dst) in r.files && r.files[Landing(t, src, dst)] == t.files[src]
    ensures forall p :: p != Landing(t, src, dst) ==> (p in r.files <==> p in t.files)
    ensures forall p :: p != Landing(t, src, dst) && p in t.files ==> r.files[p] == t.files[p]
    ensures forall p :: p in t.files ==> p in r.files
    ensures r.dirs == t.dirs + Ancestors(dst)
  {
    Tree(t.files[Landing(t, src, dst) := t.files[src]], t.dirs + Ancestors(dst))
  }

  /** Where `shutil.copy2(src, dst)` writes: into a destination directory under the source's own name. */
  function Landing(t: Tree, src: string, dst: string): string {
    if dst in t.dirs then Join(dst, Basename(src)) else dst
  }

  /** `remove_file(p)`: unlink the file; a path that is already missing is left alone. */
  function Remove(t: Tree, p: string): (r: Tree)
    ensures p !in r.files
    ensures p !in t.files ==> r == t
    ensures r.dirs == t.dirs
    ensures forall q :: q != p ==> (q in r.files <==> q in t.files)
    ensures forall q :: q != p && q in t.files ==> r.files[q] == t.files[q]
  {
    Tree(t.files - {p}, t.dirs)
  }

  /** The tree after `create_backup`, and the path it returned. */
  datatype Backed = Backed(tree: Tree, path: Option<string>)

  /**
   * `create_backup(src, root)`: nothing without a backup root; otherwise create
   * `root/stamp` and copy the file into it under its own name. A source that is not a file,
   * or one that already is the backup path (`shutil.SameFileError`), makes `copy2` raise an
   * `OSError`, which turns into `None` after the directory was made.
   */
  function Backup(t: Tree, src: string, root: Option<string>, stamp: string): (b: Backed)
    ensures root == None ==> b == Backed(t, None)
    ensures src !in t.files ==> b.path == None && b.tree.files == t.files
    ensures forall p :: p in t.files ==> p in b.tree.files
    ensures b.path != None ==>
      (&& root != None && src in t.files && b.path.value == Join(Join(root.value, stamp), Basename(src))
       && b.path.value != src)
    ensures root != None && src in t.files && Join(Join(root.value, stamp), Basename(src)) != src ==>
      b.path != None
    ensures b.path != None && b.path.value !in t.dirs ==>
      (b.path.value in b.tree.files && b.tree.files[b.path.value] == t.files[src])
    ensures b.path == None || b.path.value !in t.dirs ==>
      forall p :: p in t.files && (b.path == None || p != b.path.value) ==>
        p in b.tree.files && b.tree.files[p] == t.files[p]
  {
    match root
    case None => Backed(t, None)
    case Some(base) =>
      var dir := Join(base, stamp);
      var made := t.(dirs := t.dirs + Ancestors(dir) + {dir});
      var target := Join(dir, Basename(src));
      if src in t.files && target != src then
        assert target !in Ancestors(dir) + {dir} by {
          assert |target| > |dir|;
        }
        Backed(Copied(made, src, target), Some(target))
      else
        Backed(made, None)
  }

  /** No file lies beneath `d`. */
  ghost predicate NoFileBeneath(t: Tree, d: string) {
    forall f :: f in t.files ==> !Under(d, f)
  }

  /** `rmdir(d)` succeeds: nothing at all lies beneath `d`. */
  predicate EmptyDir(t: Tree, d: string) {
    && (forall f :: f in t.files ==> !Under(d, f))
    && (forall e :: e in t.dirs ==> !Under(d, e))
  }

  /** The directories strictly beneath `base`, the ones `os.walk(base)` reports. */
  function Subdirs(t: Tree, base: string): set<string> {
    set d | d in t.dirs && Under(base, d)
  }

  /**
   * `prune_empty_dirs(base)`: a missing base is left alone; otherwise every directory
   * strictly beneath it that holds no file, however deep, is removed.
   */
  ghost function Prune(t: Tree, base: string): (r: Tree)
    ensures !Exists(t, base) ==> r == t
    ensures r.files == t.files
    ensures r.dirs <= t.dirs
    ensures base in t.dirs ==> base in r.dirs
    ensures forall d :: d in t.dirs && d !in r.dirs ==> Under(base, d) && NoFileBeneath(t, d)
    ensures Exists(t, base) ==> forall d :: d in t.dirs && Under(base, d) && NoFileBeneath(t, d) ==> d !in r.dirs
  {
    if !Exists(t, base) then t
    else t.(dirs := t.dirs - set d | d in Subdirs(t, base) && NoFileBeneath(t, d))
  }

  /** A non-empty set of paths has a longest member. */
  lemma {:induction false} LongestExists(s: set<string>)
    requires s != {}
    ensures exists d :: d in s && forall e :: e in s ==> |e| <= |d|
    decreases |s|
  {
    var x :| x in s;
    if s != {x} {
      LongestExists(s - {x});
      var y :| y in s - {x} && forall e :: e in s - {x} ==> |e| <= |y|;
      if |x| > |y| {
        assert forall e :: e in s ==> |e| <= |x|;
      } else {
        assert forall e :: e in s ==> |e| <= |y|;
      }
    }
  }

  /** The live file system. */
  class FileSystem {
    var tree: Tree

    constructor (t: Tree)
      ensures tree == t
    {
      tree := t;
    }

    /** `copy_file`. `shutil.copy2` raises on a missing source, so callers check it first. */
    method CopyFile(src: string, dst: string)
      requires src in tree.files
      modifies this
      ensures tree == Copied(old(tree), src, dst)
    {
      tree := Copied(tree, src, dst);
    }

    /** `remove_file`. */
    method RemoveFile(p: string)
      modifies this
      ensures tree == Remove(old(tree), p)
    {
      if p in tree.files {
        tree := tree.(files := tree.files - {p});
      }
    }

    /** `create_backup`; `stamp` stands for `time.strftime("%Y%m%d_%H%M%S")`. */
    method CreateBackup(src: string, root: Option<string>, stamp: string) returns (path: Option<string>)
      modifies this
      ensures Backed(tree, path) == Backup(old(tree), src, root, stamp)
    {
      if root == None {
        return None;
      }
      var dir := Join(root.value, stamp);
      tree := tree.(dirs := tree.dirs + Ancestors(dir) + {dir});
      var target := Join(dir, Basename(src));
      if src !in tree.files || target == src {
        return None;
      }
      tree := Copied(tree, src, target);
      path := Some(target);
    }

    /**
     * `prune_empty_dirs`: visit the directories beneath `base` deepest first (a directory is
     * longer than every directory above it) and `rmdir` each one that is empty by then.
     */
    method PruneEmptyDirs(base: string)
      modifies this
      ensures tree == Prune(old(tree), base)
    {
      if !Exists(tree, base) {
        return;
      }
      ghost var t0 := tree;
      var todo := Subdirs(tree, base);
      while todo != {}
        invariant tree.files == t0.files
        invariant todo <= Subdirs(t0, base)
        invariant tree.dirs == t0.dirs - set d | d in Subdirs(t0, base) - todo && NoFileBeneath(t0, d)
        decreases todo
      {
        LongestExists(todo);
        var d :| d in todo && forall e :: e in todo ==> |e| <= |d|;
        assert EmptyDir(tree, d) <==> NoFileBeneath(t0, d) by {
          if NoFileBeneath(t0, d) {
            forall e | e in tree.dirs ensures !Under(d, e) {
              if Under(d, e) {
                UnderTransitive(base, d, e);
                assert e !in todo;
                assert !NoFileBeneath(t0, e);
                var f :| f in t0.files && Under(e, f);
                UnderTransitive(d, e, f);
              }
            }
          }
        }
        if EmptyDir(tree, d) {
          tree := tree.(dirs := tree.dirs - {d});
        }
        todo := todo - {d};
      }
    }
  }
}
