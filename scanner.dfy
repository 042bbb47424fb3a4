/**
 * Discovery, snapshotting and the three-way diff of app/core/scanner.py.
 *
 * A directory walk is given as the list of files `os.walk` reports, each with its path relative
 * to the walked base, its absolute path, the result of `stat` (`None` when it fails) and its bytes
 * (`None` when it cannot be read). Snapshots are dicts keyed by the slash-normalized relative path.
 */
module Scanner {
  import opened Options
  import opened Paths
  import opened Dicts
  import opened Models
  import opened FileSystem
  import opened Persistence

  datatype Stat = Stat(size: nat, mtime: string)

  datatype WalkedFile = WalkedFile(
    relPath: string,
    absPath: string,
    stat: Option<Stat>,
    contents: Option<Blob>)

  /** What walking a base path yields: whether the base exists, and its files in walk order. */
  datatype Walk = Walk(baseExists: bool, files: seq<WalkedFile>)

  datatype SnapshotEntry = SnapshotEntry(
    relPath: string,
    absPath: string,
    size: nat,
    mtime: string,
    hashDigest: string)

  type Snapshot = Dict<SnapshotEntry>

  // ---------------------------------------------------------------------------------------------
  // Discovery

  /** One entry of the instances directory, with the existence checks `discover_modpacks` makes. */
  datatype DirEntry = DirEntry(
    name: string,
    path: string,
    isDir: bool,
    hasManifest: bool,
    hasModsDir: bool,
    hasIconPng: bool,
    hasPackPng: bool)

  /** The instances directory: whether it exists, and its entries in `sorted()` order. */
  datatype Listing = Listing(present: bool, entries: seq<DirEntry>)

  /** A directory holding `manifest.json` or a `mods` directory is a modpack. */
  predicate IsModpack(e: DirEntry) {
    e.isDir && (e.hasManifest || e.hasModsDir)
  }

  /** The info recorded for a modpack directory: `icon.png` before `pack.png`, the manifest if any. */
  function InfoOf(e: DirEntry): ModpackInfo {
    ModpackInfo(
      e.name,
      e.path,
      if e.hasIconPng then Some(Join(e.path, "icon.png"))
      else if e.hasPackPng then Some(Join(e.path, "pack.png"))
      else None,
      if e.hasManifest then Some(Join(e.path, "manifest.json")) else None)
  }

  /** The modpacks among `entries`, in order. */
  function Discovered(entries: seq<DirEntry>): seq<ModpackInfo> {
    if entries == [] then []
    else
      var last := entries[|entries| - 1];
      Discovered(entries[..|entries| - 1]) + if IsModpack(last) then [InfoOf(last)] else []
  }

  /** A modpack is discovered exactly when some entry is a modpack directory with that info. */
  lemma {:induction false} DiscoveredMembers(entries: seq<DirEntry>, m: ModpackInfo)
    ensures m in Discovered(entries) <==> exists e :: e in entries && IsModpack(e) && InfoOf(e) == m
  {
    if entries != [] {
      var init := entries[..|entries| - 1];
      DiscoveredMembers(init, m);
      assert entries == init + [entries[|entries| - 1]];
    }
  }

  /** `discover_modpacks`: nothing for a missing directory; otherwise keep the modpack entries. */
  method DiscoverModpacks(listing: Listing) returns (modpacks: seq<ModpackInfo>)
    ensures !listing.present ==> modpacks == []
    ensures listing.present ==> modpacks == Discovered(listing.entries)
  {
    if !listing.present {
      return [];
    }
    modpacks := [];
    var i := 0;
    while i < |listing.entries|
      invariant 0 <= i <= |listing.entries|
      invariant modpacks == Discovered(listing.entries[..i])
    {
      var entry := listing.entries[i];
      assert listing.entries[..i + 1] == listing.entries[..i] + [entry];
      if entry.isDir && (entry.hasManifest || entry.hasModsDir) {
        modpacks := modpacks + [InfoOf(entry)];
      }
      i := i + 1;
    }
    assert listing.entries[..i] == listing.entries;
  }

  // ---------------------------------------------------------------------------------------------
  // Snapshots

  /** The exclusions in normalized form. */
  function NormalizedExclusions(exclusions: seq<string>): set<string> {
    set x | x in exclusions :: NormalizeRelative(x)
  }

  /** A walked file enters the snapshot when its normalized path is not excluded and `stat` works. */
  predicate Kept(w: WalkedFile, excluded: set<string>) {
    NormalizeRelative(w.relPath) !in excluded && w.stat.Some?
  }

  /** The snapshot entry of a kept file; its digest is what `hash_file` returns. */
  function EntryOf(w: WalkedFile, digestOf: Blob -> string): SnapshotEntry
    requires w.stat.Some?
  {
    SnapshotEntry(
      NormalizeRelative(w.relPath), w.absPath, w.stat.value.size, w.stat.value.mtime,
      FileDigest(w.contents, digestOf))
  }

  /** The snapshot of a walk, file by file in walk order. */
  function Gathered(files: seq<WalkedFile>, excluded: set<string>, digestOf: Blob -> string): (d: Snapshot)
    ensures d.Valid()
  {
    if files == [] then Empty()
    else
      var w := files[|files| - 1];
      var d := Gathered(files[..|files| - 1], excluded, digestOf);
      if Kept(w, excluded) then d.Put(NormalizeRelative(w.relPath), EntryOf(w, digestOf)) else d
  }

  /**
   * A path is in the snapshot exactly when some walked file with that normalized path is kept:
   * an excluded path and a file whose `stat` fails never appear. Each entry records its own key.
   */
  lemma {:induction false} GatheredKeys(files: seq<WalkedFile>, excluded: set<string>, digestOf: Blob -> string, k: string)
    ensures k in Gathered(files, excluded, digestOf).items <==>
      exists i :: 0 <= i < |files| && Kept(files[i], excluded) && NormalizeRelative(files[i].relPath) == k
    ensures k in Gathered(files, excluded, digestOf).items ==>
      k !in excluded && Gathered(files, excluded, digestOf).items[k].relPath == k
  {
    if files != [] {
      var init := files[..|files| - 1];
      GatheredKeys(init, excluded, digestOf, k);
      if k in Gathered(init, excluded, digestOf).items {
        var i :| 0 <= i < |init| && Kept(init[i], excluded) && NormalizeRelative(init[i].relPath) == k;
        assert files[i] == init[i];
      }
      if exists i :: 0 <= i < |files| && Kept(files[i], excluded) && NormalizeRelative(files[i].relPath) == k {
        var i :| 0 <= i < |files| && Kept(files[i], excluded) && NormalizeRelative(files[i].relPath) == k;
        if i < |init| {
          assert init[i] == files[i];
        }
      }
    }
  }

  /**
   * `_gather_snapshot`: an empty snapshot for a missing base; otherwise every walked file whose
   * normalized path is not among the normalized exclusions and whose `stat` works, hashed.
   */
  method GatherSnapshot(walk: Walk, exclusions: seq<string>, digestOf: Blob -> string) returns (snapshot: Snapshot)
    ensures snapshot.Valid()
    ensures !walk.baseExists ==> snapshot == Empty()
    ensures walk.baseExists ==> snapshot == Gathered(walk.files, NormalizedExclusions(exclusions), digestOf)
  {
    var normalized := NormalizedExclusions(exclusions);
    snapshot := Empty();
    if !walk.baseExists {
      return;
    }
    var i := 0;
    while i < |walk.files|
      invariant 0 <= i <= |walk.files|
      invariant snapshot == Gathered(walk.files[..i], normalized, digestOf)
    {
      var w := walk.files[i];
      assert walk.files[..i + 1] == walk.files[..i] + [w];
      var norm := NormalizeRelative(w.relPath);
      if norm !in normalized && w.stat != None {
        var digest := HashFile(w.contents, digestOf);
        snapshot := snapshot.Put(norm, SnapshotEntry(norm, w.absPath, w.stat.value.size, w.stat.value.mtime, digest));
      }
      i := i + 1;
    }
    assert walk.files[..i] == walk.files;
  }

  // ---------------------------------------------------------------------------------------------
  // The snapshot payload

  /** The decimal digits of `n`, as `str(n)` writes them. */
  function DecimalString(n: nat): (s: string)
    ensures |s| > 0
    ensures forall i :: 0 <= i < |s| ==> '0' <= s[i] <= '9'
    ensures n >= 10 ==> s[0] != '0'
  {
    if n < 10 then [(n as int + '0' as int) as char]
    else DecimalString(n / 10) + [(n % 10 + '0' as int) as char]
  }

  /** The number a string of decimal digits denotes. */
  function DecimalValue(s: string): nat
    requires forall i :: 0 <= i < |s| ==> '0' <= s[i] <= '9'
  {
    if s == [] then 0
    else 10 * DecimalValue(s[..|s| - 1]) + (s[|s| - 1] as int - '0' as int)
  }

  /** `str(size)` loses nothing: the written digits denote the size again. */
  lemma {:induction false} DecimalRoundTrip(n: nat)
    ensures DecimalValue(DecimalString(n)) == n
  {
    if n >= 10 {
      var s := DecimalString(n);
      DecimalRoundTrip(n / 10);
      assert s[..|s| - 1] == DecimalString(n / 10);
    }
  }

  /** The record the history keeps of a snapshot entry. */
  function RecordOf(e: SnapshotEntry): FileRecord {
    FileRecord(e.hashDigest, DecimalString(e.size), e.mtime)
  }

  /** The snapshot payload: one record per source path, in the source snapshot's order. */
  function PayloadOf(source: Snapshot): (payload: Dict<FileRecord>)
    requires source.Valid()
    ensures payload.Valid()
    ensures payload.keys == source.keys && payload.items.Keys == source.items.Keys
    ensures forall k :: k in source.items ==>
      payload.items[k] == FileRecord(source.items[k].hashDigest, DecimalString(source.items[k].size), source.items[k].mtime)
  {
    Dict(source.keys, map k | k in source.items :: RecordOf(source.items[k]))
  }

  // ---------------------------------------------------------------------------------------------
  // The plan

  const CONTENT_DIFFERS: string := "Content differs"
  const TARGET_CHANGED: string := "Target file changed since last sync"
  const REMOVED_FROM_MODPACK: string := "Removed from modpack"

  /** The change planned for a source path: copy when the target lacks it, update when the digests differ, else skip. */
  function SourceChange(p: string, e: SnapshotEntry, target: Snapshot, root: string): FileChange {
    var change := FileChange(p, Copy, Some(e.absPath), Some(Join(root, p)), Some(e.size), Some(e.hashDigest), None);
    if p !in target.items then change
    else if target.items[p].hashDigest != e.hashDigest then change.(action := Update, reason := Some(CONTENT_DIFFERS))
    else change.(action := Skip)
  }

  /** The target drifted from what the history recorded for `p`. */
  predicate Drifted(p: string, info: FileRecord, target: Snapshot) {
    info.hash != "" && p in target.items && target.items[p].hashDigest != info.hash
  }

  /**
   * The change planned for a path the history tracks but the source no longer has: an update
   * without source when the target drifted, else a deletion when the target path exists, else none.
   */
  function HistoryChange(p: string, info: FileRecord, target: Snapshot, tree: Tree, root: string): Option<FileChange> {
    var abs := Join(root, p);
    if Drifted(p, info, target) then Some(FileChange(p, Update, None, Some(abs), None, None, Some(TARGET_CHANGED)))
    else if Exists(tree, abs) then Some(FileChange(p, Delete, None, Some(abs), None, None, Some(REMOVED_FROM_MODPACK)))
    else None
  }

  /** The changes with action `a` planned for the source paths `keys`, in order. */
  function SourceChanges(keys: seq<string>, source: Snapshot, target: Snapshot, root: string, a: FileAction): seq<FileChange> {
    if keys == [] then []
    else
      var p := keys[|keys| - 1];
      var init := SourceChanges(keys[..|keys| - 1], source, target, root, a);
      if p in source.items && SourceChange(p, source.items[p], target, root).action == a
      then init + [SourceChange(p, source.items[p], target, root)]
      else init
  }

  /** A plan with `c` appended to the list of its action. */
  function Filed(plan: SyncPlan, c: FileChange): SyncPlan {
    match c.action
    case Copy => plan.(adds := plan.adds + [c])
    case Update => plan.(updates := plan.updates + [c])
    case Delete => plan.(removals := plan.removals + [c])
    case Skip => plan.(skipped := plan.skipped + [c])
  }

  /** The plan for the source paths `keys` alone. */
  function Classified(keys: seq<string>, source: Snapshot, target: Snapshot, root: string): SyncPlan {
    SyncPlan(
      SourceChanges(keys, source, target, root, Copy),
      SourceChanges(keys, source, target, root, Update),
      [],
      SourceChanges(keys, source, target, root, Skip))
  }

  /** Classifying one more source path files its change under its action. */
  lemma ClassifiedSnoc(keys: seq<string>, i: nat, source: Snapshot, target: Snapshot, root: string)
    requires i < |keys| && keys[i] in source.items
    ensures Classified(keys[..i + 1], source, target, root) ==
      Filed(Classified(keys[..i], source, target, root), SourceChange(keys[i], source.items[keys[i]], target, root))
  {
    assert keys[..i + 1][..i] == keys[..i];
  }

  /** The changes with action `a` planned for the history paths `keys`, in order. */
  function HistoryChanges(keys: seq<string>, history: Dict<FileRecord>, target: Snapshot, tree: Tree, root: string, a: FileAction): seq<FileChange> {
    if keys == [] then []
    else
      var p := keys[|keys| - 1];
      var init := HistoryChanges(keys[..|keys| - 1], history, target, tree, root, a);
      if p in history.items && HistoryChange(p, history.items[p], target, tree, root).Some?
         && HistoryChange(p, history.items[p], target, tree, root).value.action == a
      then init + [HistoryChange(p, history.items[p], target, tree, root).value]
      else init
  }

  /** The keys of `keys` outside `gone`, in order. */
  function Leftover(keys: seq<string>, gone: set<string>): seq<string> {
    if keys == [] then []
    else Leftover(keys[..|keys| - 1], gone) + if keys[|keys| - 1] in gone then [] else [keys[|keys| - 1]]
  }

  lemma {:induction false} LeftoverMembers(keys: seq<string>, gone: set<string>)
    ensures forall k :: k in Leftover(keys, gone) <==> k in keys && k !in gone
  {
    if keys != [] {
      LeftoverMembers(keys[..|keys| - 1], gone);
      assert keys == keys[..|keys| - 1] + [keys[|keys| - 1]];
    }
  }

  /** Popping one more key from what is left is leaving one more key out. */
  lemma {:induction false} LeftoverWithout(keys: seq<string>, gone: set<string>, p: string)
    ensures Without(Leftover(keys, gone), p) == Leftover(keys, gone + {p})
  {
    if keys != [] {
      var init := keys[..|keys| - 1];
      var last := keys[|keys| - 1];
      LeftoverWithout(init, gone, p);
      var l := Leftover(init, gone);
      assert Leftover(keys, gone + {p}) == Leftover(init, gone + {p}) + if last in gone + {p} then [] else [last];
      if last in gone {
        assert Leftover(keys, gone) == l;
      } else {
        assert Leftover(keys, gone) == l + [last];
        assert (l + [last])[..|l|] == l;
        assert Without(l + [last], p) == Without(l, p) + if last == p then [] else [last];
      }
    }
  }

  /** The entries of a list of keys. */
  function KeySet(keys: seq<string>): set<string> {
    set k | k in keys
  }

  /** The history with the keys `popped` popped one after another. */
  function Popped(history: Dict<FileRecord>, popped: seq<string>): (r: Dict<FileRecord>)
    ensures history.Valid() ==> r.Valid()
  {
    if popped == [] then history else Popped(history, popped[..|popped| - 1]).Pop(popped[|popped| - 1])
  }

  /** Popping a list of keys leaves the other keys, in their order, with their records. */
  lemma {:induction false} PoppedLeftover(history: Dict<FileRecord>, popped: seq<string>)
    ensures Popped(history, popped).keys == Leftover(history.keys, KeySet(popped))
    ensures Popped(history, popped).items == history.items - KeySet(popped)
  {
    if popped == [] {
      LeftoverNone(history.keys);
      assert KeySet(popped) == {};
    } else {
      var init := popped[..|popped| - 1];
      var p := popped[|popped| - 1];
      PoppedLeftover(history, init);
      LeftoverWithout(history.keys, KeySet(init), p);
      assert KeySet(popped) == KeySet(init) + {p} by {
        assert popped == init + [p];
      }
    }
  }

  /** Leaving nothing out keeps every key. */
  lemma {:induction false} LeftoverNone(keys: seq<string>)
    ensures Leftover(keys, {}) == keys
  {
    if keys != [] {
      LeftoverNone(keys[..|keys| - 1]);
      assert keys == keys[..|keys| - 1] + [keys[|keys| - 1]];
    }
  }

  /** The plan `build_sync_plan` computes from the two snapshots, the history's files and the target tree. */
  function PlanOf(source: Snapshot, target: Snapshot, history: Dict<FileRecord>, tree: Tree, root: string): SyncPlan
    requires source.Valid() && history.Valid()
  {
    var rest := Leftover(history.keys, source.items.Keys);
    LeftoverMembers(history.keys, source.items.Keys);
    SyncPlan(
      SourceChanges(source.keys, source, target, root, Copy),
      SourceChanges(source.keys, source, target, root, Update) + HistoryChanges(rest, history, target, tree, root, Update),
      HistoryChanges(rest, history, target, tree, root, Delete),
      SourceChanges(source.keys, source, target, root, Skip))
  }

  /** The history entries with equal records for `keys` plan the same changes. */
  lemma {:induction false} HistoryChangesAgree(keys: seq<string>, h1: Dict<FileRecord>, h2: Dict<FileRecord>, target: Snapshot, tree: Tree, root: string, a: FileAction)
    requires forall k :: k in keys ==> k in h1.items && k in h2.items && h1.items[k] == h2.items[k]
    ensures HistoryChanges(keys, h1, target, tree, root, a) == HistoryChanges(keys, h2, target, tree, root, a)
  {
    if keys != [] {
      HistoryChangesAgree(keys[..|keys| - 1], h1, h2, target, tree, root, a);
    }
  }

  /**
   * One pass of the first loop of `build_sync_plan`: a copy when the target lacks the path, an
   * update "Content differs" when the digests differ, a skip otherwise.
   */
  method ClassifyPath(plan0: SyncPlan, p: string, entry: SnapshotEntry, target: Snapshot, root: string) returns (plan: SyncPlan)
    ensures plan == Filed(plan0, SourceChange(p, entry, target, root))
  {
    var change := FileChange(p, Copy, Some(entry.absPath), Some(Join(root, p)), Some(entry.size), Some(entry.hashDigest), None);
    if p !in target.items {
      plan := plan0.(adds := plan0.adds + [change]);
    } else if target.items[p].hashDigest != entry.hashDigest {
      change := change.(action := Update, reason := Some(CONTENT_DIFFERS));
      plan := plan0.(updates := plan0.updates + [change]);
    } else {
      change := change.(action := Skip);
      plan := plan0.(skipped := plan0.skipped + [change]);
    }
  }

  /**
   * The first loop of `build_sync_plan`: classify each source path by digest and pop it from a
   * working copy of the history's files.
   */
  method ClassifySources(source: Snapshot, target: Snapshot, history: Dict<FileRecord>, root: string)
    returns (plan: SyncPlan, historyFiles: Dict<FileRecord>)
    requires forall k :: k in source.keys ==> k in source.items
    ensures plan == Classified(source.keys, source, target, root)
    ensures historyFiles == Popped(history, source.keys)
  {
    plan := EmptyPlan();
    historyFiles := history;
    var i := 0;
    while i < |source.keys|
      invariant 0 <= i <= |source.keys|
      invariant historyFiles == Popped(history, source.keys[..i])
      invariant plan == Classified(source.keys[..i], source, target, root)
    {
      var p := source.keys[i];
      var entry := source.items[p];
      ClassifiedSnoc(source.keys, i, source, target, root);
      assert source.keys[..i + 1][..i] == source.keys[..i];
      plan := ClassifyPath(plan, p, entry, target, root);
      historyFiles := historyFiles.Pop(p);
      i := i + 1;
    }
    assert source.keys[..i] == source.keys;
  }

  /** `plan0` with the history changes for `keys` appended to its updates and removals. */
  function WithLeftovers(plan0: SyncPlan, keys: seq<string>, history: Dict<FileRecord>, target: Snapshot, tree: Tree, root: string): SyncPlan {
    plan0.(
      updates := plan0.updates + HistoryChanges(keys, history, target, tree, root, Update),
      removals := plan0.removals + HistoryChanges(keys, history, target, tree, root, Delete))
  }

  /** Planning one more history path files its change, if it has one. */
  lemma WithLeftoversSnoc(plan0: SyncPlan, keys: seq<string>, i: nat, history: Dict<FileRecord>, target: Snapshot, tree: Tree, root: string)
    requires i < |keys| && keys[i] in history.items
    ensures var c := HistoryChange(keys[i], history.items[keys[i]], target, tree, root);
      WithLeftovers(plan0, keys[..i + 1], history, target, tree, root) ==
        if c.Some? then Filed(WithLeftovers(plan0, keys[..i], history, target, tree, root), c.value)
        else WithLeftovers(plan0, keys[..i], history, target, tree, root)
  {
    assert keys[..i + 1][..i] == keys[..i];
  }

  /**
   * One pass of the second loop of `build_sync_plan`: an update "Target file changed since last
   * sync" when the target drifted from the record, else a deletion "Removed from modpack" when the
   * target path exists, else nothing.
   */
  method PlanLeftover(plan0: SyncPlan, p: string, info: FileRecord, target: Snapshot, tree: Tree, root: string)
    returns (plan: SyncPlan)
    ensures var c := HistoryChange(p, info, target, tree, root);
      plan == if c.Some? then Filed(plan0, c.value) else plan0
  {
    plan := plan0;
    var abs := Join(root, p);
    if info.hash != "" && p in target.items && target.items[p].hashDigest != info.hash {
      plan := plan.(updates := plan.updates + [FileChange(p, Update, None, Some(abs), None, None, Some(TARGET_CHANGED))]);
    } else if Exists(tree, abs) {
      plan := plan.(removals := plan.removals + [FileChange(p, Delete, None, Some(abs), None, None, Some(REMOVED_FROM_MODPACK))]);
    }
  }

  /** The second loop of `build_sync_plan`, over the history paths the source no longer has. */
  method PlanLeftovers(plan0: SyncPlan, rest: Dict<FileRecord>, target: Snapshot, tree: Tree, root: string)
    returns (plan: SyncPlan)
    requires rest.Valid()
    ensures plan == WithLeftovers(plan0, rest.keys, rest, target, tree, root)
  {
    plan := plan0;
    var j := 0;
    while j < |rest.keys|
      invariant 0 <= j <= |rest.keys|
      invariant plan == WithLeftovers(plan0, rest.keys[..j], rest, target, tree, root)
    {
      var p := rest.keys[j];
      WithLeftoversSnoc(plan0, rest.keys, j, rest, target, tree, root);
      plan := PlanLeftover(plan, p, rest.items[p], target, tree, root);
      j := j + 1;
    }
    assert rest.keys[..j] == rest.keys;
  }

  /** The classification of `build_sync_plan`, and the snapshot payload it returns beside the plan. */
  method BuildPlan(source: Snapshot, target: Snapshot, history: Dict<FileRecord>, tree: Tree, root: string)
    returns (plan: SyncPlan, payload: Dict<FileRecord>)
    requires source.Valid() && history.Valid()
    ensures plan == PlanOf(source, target, history, tree, root)
    ensures payload == PayloadOf(source)
  {
    var historyFiles;
    plan, historyFiles := ClassifySources(source, target, history, root);
    PoppedLeftover(history, source.keys);
    assert KeySet(source.keys) == source.items.Keys;
    plan := PlanLeftovers(plan, historyFiles, target, tree, root);
    LeftoverMembers(history.keys, source.items.Keys);
    HistoryChangesAgree(historyFiles.keys, historyFiles, history, target, tree, root, Update);
    HistoryChangesAgree(historyFiles.keys, historyFiles, history, target, tree, root, Delete);
    payload := PayloadOf(source);
  }

  // ---------------------------------------------------------------------------------------------
  // What the plan says about each path

  lemma {:induction false} SourceChangesSound(keys: seq<string>, source: Snapshot, target: Snapshot, root: string, a: FileAction, c: FileChange)
    requires c in SourceChanges(keys, source, target, root, a)
    ensures c.relPath in keys && c.relPath in source.items && c.action == a
    ensures c == SourceChange(c.relPath, source.items[c.relPath], target, root)
  {
    var init := keys[..|keys| - 1];
    if c !in SourceChanges(init, source, target, root, a) {
      return;
    }
    SourceChangesSound(init, source, target, root, a, c);
  }

  lemma {:induction false} SourceChangesComplete(keys: seq<string>, source: Snapshot, target: Snapshot, root: string, p: string)
    requires p in keys && p in source.items
    ensures var c := SourceChange(p, source.items[p], target, root);
      c in SourceChanges(keys, source, target, root, c.action)
  {
    var init := keys[..|keys| - 1];
    assert keys == init + [keys[|keys| - 1]];
    if p in init {
      SourceChangesComplete(init, source, target, root, p);
    }
  }

  lemma {:induction false} HistoryChangesSound(keys: seq<string>, history: Dict<FileRecord>, target: Snapshot, tree: Tree, root: string, a: FileAction, c: FileChange)
    requires c in HistoryChanges(keys, history, target, tree, root, a)
    ensures c.relPath in keys && c.relPath in history.items && c.action == a
    ensures HistoryChange(c.relPath, history.items[c.relPath], target, tree, root) == Some(c)
  {
    var init := keys[..|keys| - 1];
    if c !in HistoryChanges(init, history, target, tree, root, a) {
      return;
    }
    HistoryChangesSound(init, history, target, tree, root, a, c);
  }

  lemma {:induction false} HistoryChangesComplete(keys: seq<string>, history: Dict<FileRecord>, target: Snapshot, tree: Tree, root: string, p: string)
    requires p in keys && p in history.items
    requires HistoryChange(p, history.items[p], target, tree, root).Some?
    ensures var c := HistoryChange(p, history.items[p], target, tree, root).value;
      c in HistoryChanges(keys, history, target, tree, root, c.action)
  {
    var init := keys[..|keys| - 1];
    assert keys == init + [keys[|keys| - 1]];
    if p in init {
      HistoryChangesComplete(init, history, target, tree, root, p);
    }
  }

  /** Where a planned path comes from: its list's source or history path, with its computed change. */
  lemma PlannedChange(source: Snapshot, target: Snapshot, history: Dict<FileRecord>, tree: Tree, root: string, c: FileChange)
    requires source.Valid() && history.Valid()
    ensures var plan := PlanOf(source, target, history, tree, root);
      && (c in plan.adds || c in plan.skipped ==>
            c.relPath in source.items && c == SourceChange(c.relPath, source.items[c.relPath], target, root))
      && (c in plan.adds ==> c.action == Copy)
      && (c in plan.skipped ==> c.action == Skip)
      && (c in plan.updates ==>
            (&& c.action == Update
             && ((c.relPath in source.items && c == SourceChange(c.relPath, source.items[c.relPath], target, root)) ||
                 (c.relPath in history.items && c.relPath !in source.items &&
                  HistoryChange(c.relPath, history.items[c.relPath], target, tree, root) == Some(c)))))
      && (c in plan.removals ==>
            (&& c.action == Delete && c.relPath in history.items && c.relPath !in source.items
             && HistoryChange(c.relPath, history.items[c.relPath], target, tree, root) == Some(c)))
  {
    var rest := Leftover(history.keys, source.items.Keys);
    LeftoverMembers(history.keys, source.items.Keys);
    var srcUpdates := SourceChanges(source.keys, source, target, root, Update);
    var histUpdates := HistoryChanges(rest, history, target, tree, root, Update);
    if c in SourceChanges(source.keys, source, target, root, Copy) {
      SourceChangesSound(source.keys, source, target, root, Copy, c);
    }
    if c in SourceChanges(source.keys, source, target, root, Skip) {
      SourceChangesSound(source.keys, source, target, root, Skip, c);
    }
    if c in srcUpdates {
      SourceChangesSound(source.keys, source, target, root, Update, c);
    }
    if c in histUpdates {
      HistoryChangesSound(rest, history, target, tree, root, Update, c);
    }
    if c in HistoryChanges(rest, history, target, tree, root, Delete) {
      HistoryChangesSound(rest, history, target, tree, root, Delete, c);
    }
  }

  /** `p` is the path of some change in `cs`. */
  lemma PathOfChange(cs: seq<FileChange>, p: string) returns (c: FileChange)
    requires p in PathsOf(cs)
    ensures c in cs && c.relPath == p
  {
    var i :| 0 <= i < |cs| && PathsOf(cs)[i] == p;
    c := cs[i];
  }

  /**
   * Every source path lands in exactly one of adds, updates and skipped, by comparing digests,
   * and never among the removals: missing from the target it is a copy from its absolute path to
   * `root/p`; with a different target digest an update "Content differs"; otherwise a skip.
   */
  lemma SourcePathPlacement(source: Snapshot, target: Snapshot, history: Dict<FileRecord>, tree: Tree, root: string, p: string)
    requires source.Valid() && history.Valid() && p in source.items
    ensures var plan := PlanOf(source, target, history, tree, root);
      var e := source.items[p];
      var c := SourceChange(p, e, target, root);
      && c.relPath == p && c.sourcePath == Some(e.absPath) && c.targetPath == Some(Join(root, p))
      && (p !in target.items ==> c.action == Copy && c in plan.adds)
      && (p in target.items && target.items[p].hashDigest != e.hashDigest ==>
            c.action == Update && c.reason == Some(CONTENT_DIFFERS) && c in plan.updates)
      && (p in target.items && target.items[p].hashDigest == e.hashDigest ==> c.action == Skip && c in plan.skipped)
      && (p in PathsOf(plan.adds) <==> p !in target.items)
      && (p in PathsOf(plan.updates) <==> p in target.items && target.items[p].hashDigest != e.hashDigest)
      && (p in PathsOf(plan.skipped) <==> p in target.items && target.items[p].hashDigest == e.hashDigest)
      && p !in PathsOf(plan.removals)
  {
    var plan := PlanOf(source, target, history, tree, root);
    var c := SourceChange(p, source.items[p], target, root);
    SourceChangesComplete(source.keys, source, target, root, p);
    assert c.relPath == p;
    assert c in plan.adds || c in plan.updates || c in plan.skipped;
    forall cs | cs in [plan.adds, plan.updates, plan.removals, plan.skipped] && p in PathsOf(cs)
      ensures cs == plan.adds ==> c.action == Copy
      ensures cs == plan.updates ==> c.action == Update
      ensures cs == plan.skipped ==> c.action == Skip
      ensures cs != plan.removals
    {
      var d := PathOfChange(cs, p);
      PlannedChange(source, target, history, tree, root, d);
    }
  }

  /**
   * A history path the source no longer has: a drifted target (recorded digest non-empty, target
   * digest different) gives an update without source, reason "Target file changed since last
   * sync", and never a removal; otherwise an existing target path gives a deletion "Removed from
   * modpack"; otherwise the path appears nowhere in the plan.
   */
  lemma HistoryPathPlacement(source: Snapshot, target: Snapshot, history: Dict<FileRecord>, tree: Tree, root: string, p: string)
    requires source.Valid() && history.Valid() && p in history.items && p !in source.items
    ensures var plan := PlanOf(source, target, history, tree, root);
      var abs := Join(root, p);
      && p !in PathsOf(plan.adds) && p !in PathsOf(plan.skipped)
      && (Drifted(p, history.items[p], target) ==>
            FileChange(p, Update, None, Some(abs), None, None, Some(TARGET_CHANGED)) in plan.updates
            && p !in PathsOf(plan.removals))
      && (!Drifted(p, history.items[p], target) && Exists(tree, abs) ==>
            FileChange(p, Delete, None, Some(abs), None, None, Some(REMOVED_FROM_MODPACK)) in plan.removals
            && p !in PathsOf(plan.updates))
      && (!Drifted(p, history.items[p], target) && !Exists(tree, abs) ==>
            p !in PathsOf(plan.updates) && p !in PathsOf(plan.removals))
  {
    var plan := PlanOf(source, target, history, tree, root);
    var rest := Leftover(history.keys, source.items.Keys);
    LeftoverMembers(history.keys, source.items.Keys);
    var h := HistoryChange(p, history.items[p], target, tree, root);
    if h.Some? {
      HistoryChangesComplete(rest, history, target, tree, root, p);
    }
    forall cs | cs in [plan.adds, plan.updates, plan.removals, plan.skipped] && p in PathsOf(cs)
      ensures h.Some? && (cs == plan.updates ==> h.value.action == Update)
      ensures h.Some? && (cs == plan.removals ==> h.value.action == Delete)
      ensures cs != plan.adds && cs != plan.skipped
    {
      var d := PathOfChange(cs, p);
      PlannedChange(source, target, history, tree, root, d);
    }
  }

  /** Adds, updates and removals never share a path. */
  lemma PlanClassesDisjoint(source: Snapshot, target: Snapshot, history: Dict<FileRecord>, tree: Tree, root: string, p: string)
    requires source.Valid() && history.Valid()
    ensures var plan := PlanOf(source, target, history, tree, root);
      && !(p in PathsOf(plan.adds) && p in PathsOf(plan.updates))
      && !(p in PathsOf(plan.adds) && p in PathsOf(plan.removals))
      && !(p in PathsOf(plan.updates) && p in PathsOf(plan.removals))
  {
    var plan := PlanOf(source, target, history, tree, root);
    if p in source.items {
      SourcePathPlacement(source, target, history, tree, root, p);
    } else if p in history.items {
      HistoryPathPlacement(source, target, history, tree, root, p);
    } else {
      forall cs | cs in [plan.adds, plan.updates, plan.removals] ensures p !in PathsOf(cs) {
        if p in PathsOf(cs) {
          var d := PathOfChange(cs, p);
          PlannedChange(source, target, history, tree, root, d);
        }
      }
    }
  }

  // ---------------------------------------------------------------------------------------------
  // The whole pipeline

  /**
   * `build_sync_plan`: fetch the history (which caches a fresh one for a new modpack), snapshot
   * the source with its exclusions and the target without, then classify.
   */
  method BuildSyncPlan(
    modpack: ModpackInfo, targetRoot: string, store: SyncHistoryStore,
    sourceWalk: Walk, targetWalk: Walk, tree: Tree, digestOf: Blob -> string)
    returns (plan: SyncPlan, payload: Dict<FileRecord>, source: Snapshot, target: Snapshot)
    requires store.Valid()
    modifies store
    ensures store.Valid() && store.disk == old(store.disk)
    ensures var h := HistoryIn(View(old(store.cache), old(store.disk)), modpack.name);
      && store.cache == View(old(store.cache), old(store.disk))[modpack.name := h]
      && source == (if sourceWalk.baseExists then Gathered(sourceWalk.files, NormalizedExclusions(h.exclusions), digestOf) else Empty())
      && target == (if targetWalk.baseExists then Gathered(targetWalk.files, {}, digestOf) else Empty())
      && plan == PlanOf(source, target, h.files, tree, targetRoot)
      && payload == PayloadOf(source)
  {
    var history := store.GetHistory(modpack.name);
    source := GatherSnapshot(sourceWalk, history.exclusions, digestOf);
    target := GatherSnapshot(targetWalk, [], digestOf);
    assert NormalizedExclusions([]) == {};
    plan, payload := BuildPlan(source, target, history.files, tree, targetRoot);
  }
}
