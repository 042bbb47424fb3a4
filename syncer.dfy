/**
 * `SyncEngine` of app/core/syncer.py: applying a sync plan to the target directory, and the
 * exclusion and path operations the engine forwards to the history store and the config.
 *
 * `execute_plan` runs three passes over the plan: the adds, then the updates (including adds
 * whose destination turned out to exist), then the removals. Each pass is a fold of one step
 * over its list; `Run` is what a step changes: the file tree, the plan's lists (the pass
 * mutates them in place), and the progress counter `tick` advances.
 */
module Syncer {
  import opened Options
  import opened Paths
  import opened Dicts
  import opened Models
  import opened FileSystem
  import opened Persistence
  import opened Scanner
  import opened Config

  /** The state `execute_plan` threads through its loops. */
  datatype Run = Run(
    tree: Tree,
    adds: seq<FileChange>,
    updates: seq<FileChange>,
    skipped: seq<FileChange>,
    processed: nat)

  /**
   * The options of one `execute_plan` call once the config's defaults are filled in. A missing
   * confirmation callback is `None`; `stamp` stands for the backup directory's timestamp.
   */
  datatype Policy = Policy(
    autoUpdates: bool,
    autoRemovals: bool,
    confirmUpdate: Option<FileChange -> bool>,
    confirmRemoval: Option<FileChange -> bool>,
    backupRoot: Option<string>,
    stamp: string)

  /** The policy for the given arguments: an explicit flag overrides the config's. */
  function PolicyOf(
    config: AppConfig, autoUpdates: Option<bool>, autoRemovals: Option<bool>, createBackups: bool,
    confirmUpdate: Option<FileChange -> bool>, confirmRemoval: Option<FileChange -> bool>,
    stamp: string): Policy
  {
    Policy(
      autoUpdates.GetOr(config.autoConfirmUpdates),
      autoRemovals.GetOr(config.autoConfirmRemovals),
      confirmUpdate, confirmRemoval,
      if createBackups then config.backupDir else None,
      stamp)
  }

  /** Where a change lands: its own target path, else the relative path under the target root. */
  function Destination(c: FileChange, root: string): string {
    if c.targetPath.Some? then c.targetPath.value else Join(root, c.relPath)
  }

  /** The callback said yes; without a callback the answer is no. */
  predicate Allowed(confirm: Option<FileChange -> bool>, c: FileChange) {
    confirm.Some? && confirm.value(c)
  }

  /** The change goes ahead: confirmed automatically, or by the callback. */
  predicate Approved(auto: bool, confirm: Option<FileChange -> bool>, c: FileChange) {
    auto || Allowed(confirm, c)
  }

  /** Where `create_backup(p, root)` puts the copy of `p`. */
  function BackupPath(root: string, stamp: string, p: string): string {
    Join(Join(root, stamp), Basename(p))
  }

  /** A backup of `dest` happens, and neither clobbers `src` or `dest` nor lands on a directory. */
  predicate BackupClear(t: Tree, dest: string, src: string, pol: Policy) {
    pol.backupRoot == None || dest !in t.files ||
    (var b := BackupPath(pol.backupRoot.value, pol.stamp, dest); b !in t.dirs && b != src && b != dest)
  }

  /**
   * One iteration of the add loop. A destination that already exists turns the change into an
   * update (the same change object sits in both lists) without a tick; a missing source is
   * skipped without a tick; otherwise the file is copied and the counter advances.
   */
  function AddStep(r: Run, i: nat, root: string): (s: Run)
    requires i < |r.adds|
    ensures |s.adds| == |r.adds| && s.skipped == r.skipped
    ensures forall k :: 0 <= k < |r.adds| && k != i ==> s.adds[k] == r.adds[k]
    ensures var c := r.adds[i]; var dest := Destination(c, root);
      && (Exists(r.tree, dest) ==>
            && s.tree == r.tree && s.processed == r.processed
            && s.adds[i] == c.(action := Update) && s.updates == r.updates + [s.adds[i]])
      && (!Exists(r.tree, dest) && (c.sourcePath == None || c.sourcePath.value !in r.tree.files) ==>
            s == r)
      && (!Exists(r.tree, dest) && c.sourcePath.Some? && c.sourcePath.value in r.tree.files ==>
            && s.adds == r.adds && s.updates == r.updates && s.processed == r.processed + 1
            && dest in s.tree.files && s.tree.files[dest] == r.tree.files[c.sourcePath.value]
            && forall p :: p in r.tree.files ==> p in s.tree.files && s.tree.files[p] == r.tree.files[p])
  {
    var c := r.adds[i];
    var dest := Destination(c, root);
    if Exists(r.tree, dest) then
      var u := c.(action := Update);
      r.(adds := r.adds[i := u], updates := r.updates + [u])
    else if c.sourcePath == None || c.sourcePath.value !in r.tree.files then
      r
    else
      r.(tree := Copied(r.tree, c.sourcePath.value, dest), processed := r.processed + 1)
  }

  /** The add loop after its first `n` iterations. */
  function AddPass(r: Run, n: nat, root: string): (s: Run)
    requires n <= |r.adds|
    ensures |s.adds| == |r.adds|
  {
    if n == 0 then r else AddStep(AddPass(r, n - 1, root), n - 1, root)
  }

  /**
   * One iteration of the update loop. Every change ticks. A declined change is appended to the
   * skipped list and the tree is untouched; an approved one whose source exists overwrites the
   * destination, after backing up an existing destination when a backup root is set; an
   * approved one whose source is gone leaves the tree alone.
   */
  function UpdateStep(r: Run, c: FileChange, pol: Policy, root: string): (s: Run)
    ensures s.processed == r.processed + 1
    ensures s.adds == r.adds && s.updates == r.updates
    ensures !Approved(pol.autoUpdates, pol.confirmUpdate, c) ==>
      s.tree == r.tree && s.skipped == r.skipped + [c]
    ensures Approved(pol.autoUpdates, pol.confirmUpdate, c) ==> s.skipped == r.skipped
    ensures (Approved(pol.autoUpdates, pol.confirmUpdate, c) &&
             (c.sourcePath == None || c.sourcePath.value !in r.tree.files)) ==> s.tree == r.tree
    ensures var dest := Destination(c, root);
      (&& Approved(pol.autoUpdates, pol.confirmUpdate, c)
       && c.sourcePath.Some? && c.sourcePath.value in r.tree.files && dest !in s.tree.dirs
       && BackupClear(r.tree, dest, c.sourcePath.value, pol)) ==>
        && dest in s.tree.files && s.tree.files[dest] == r.tree.files[c.sourcePath.value]
        && (pol.backupRoot.Some? && dest in r.tree.files ==>
              var b := BackupPath(pol.backupRoot.value, pol.stamp, dest);
              b in s.tree.files && s.tree.files[b] == r.tree.files[dest])
    ensures var dest := Destination(c, root);
      (&& dest !in s.tree.dirs
       && (pol.backupRoot.Some? ==> BackupPath(pol.backupRoot.value, pol.stamp, dest) !in r.tree.dirs)) ==>
        forall p :: p in r.tree.files && p != dest &&
                    (pol.backupRoot.Some? ==> p != BackupPath(pol.backupRoot.value, pol.stamp, dest)) ==>
          p in s.tree.files && s.tree.files[p] == r.tree.files[p]
  {
    var dest := Destination(c, root);
    if !Approved(pol.autoUpdates, pol.confirmUpdate, c) then
      r.(skipped := r.skipped + [c], processed := r.processed + 1)
    else if c.sourcePath.Some? && c.sourcePath.value in r.tree.files then
      var t := if pol.backupRoot.Some? && Exists(r.tree, dest)
        then Backup(r.tree, dest, pol.backupRoot, pol.stamp).tree else r.tree;
      r.(tree := Copied(t, c.sourcePath.value, dest), processed := r.processed + 1)
    else
      r.(processed := r.processed + 1)
  }

  /** The update loop over `us`, a copy of the update list taken before it starts. */
  function UpdatePass(r: Run, us: seq<FileChange>, pol: Policy, root: string): Run {
    if us == [] then r
    else UpdateStep(UpdatePass(r, us[..|us| - 1], pol, root), us[|us| - 1], pol, root)
  }

  /**
   * One iteration of the removal loop. A destination that is already gone is passed over
   * without a tick. Otherwise the change ticks: declined, it is appended to the skipped list
   * and the file stays; approved, the file is backed up when a backup root is set and removed.
   */
  function RemovalStep(r: Run, c: FileChange, pol: Policy, root: string): (s: Run)
    ensures s.adds == r.adds && s.updates == r.updates
    ensures var dest := Destination(c, root);
      && (!Exists(r.tree, dest) ==> s == r)
      && (Exists(r.tree, dest) ==> s.processed == r.processed + 1)
      && (Exists(r.tree, dest) && !Approved(pol.autoRemovals, pol.confirmRemoval, c) ==>
            s.tree == r.tree && s.skipped == r.skipped + [c])
      && (Exists(r.tree, dest) && Approved(pol.autoRemovals, pol.confirmRemoval, c) ==>
            && s.skipped == r.skipped && dest !in s.tree.files
            && (pol.backupRoot.Some? && dest in r.tree.files &&
                BackupPath(pol.backupRoot.value, pol.stamp, dest) !in r.tree.dirs &&
                BackupPath(pol.backupRoot.value, pol.stamp, dest) != dest ==>
                  var b := BackupPath(pol.backupRoot.value, pol.stamp, dest);
                  b in s.tree.files && s.tree.files[b] == r.tree.files[dest]))
    ensures var dest := Destination(c, root);
      (pol.backupRoot.Some? ==> BackupPath(pol.backupRoot.value, pol.stamp, dest) !in r.tree.dirs) ==>
        forall p :: p in r.tree.files && p != dest &&
                    (pol.backupRoot.Some? ==> p != BackupPath(pol.backupRoot.value, pol.stamp, dest)) ==>
          p in s.tree.files && s.tree.files[p] == r.tree.files[p]
  {
    var dest := Destination(c, root);
    if !Exists(r.tree, dest) then
      r
    else if !Approved(pol.autoRemovals, pol.confirmRemoval, c) then
      r.(skipped := r.skipped + [c], processed := r.processed + 1)
    else
      var t := if pol.backupRoot.Some? then Backup(r.tree, dest, pol.backupRoot, pol.stamp).tree else r.tree;
      r.(tree := Remove(t, dest), processed := r.processed + 1)
  }

  /** The removal loop over `rs`. */
  function RemovalPass(r: Run, rs: seq<FileChange>, pol: Policy, root: string): Run {
    if rs == [] then r
    else RemovalStep(RemovalPass(r, rs[..|rs| - 1], pol, root), rs[|rs| - 1], pol, root)
  }

  /** The run a plan starts from. */
  function Start(plan: SyncPlan, tree: Tree): Run {
    Run(tree, plan.adds, plan.updates, plan.skipped, 0)
  }

  /** The state after the add pass. */
  function AfterAdds(plan: SyncPlan, tree: Tree, root: string): Run {
    AddPass(Start(plan, tree), |plan.adds|, root)
  }

  /** The state after the update pass, which walks the update list as the add pass left it. */
  function AfterUpdates(plan: SyncPlan, tree: Tree, pol: Policy, root: string): Run {
    var r1 := AfterAdds(plan, tree, root);
    UpdatePass(r1, r1.updates, pol, root)
  }

  /** The three passes of `execute_plan`, before the empty directories are pruned. */
  function Execute(plan: SyncPlan, tree: Tree, pol: Policy, root: string): Run {
    RemovalPass(AfterUpdates(plan, tree, pol, root), plan.removals, pol, root)
  }

  /** The removals whose destination exists in `t`. */
  function Present(rs: seq<FileChange>, t: Tree, root: string): (ps: seq<FileChange>)
    ensures forall c :: c in ps ==> c in rs && Exists(t, Destination(c, root))
  {
    if rs == [] then []
    else
      var last := rs[|rs| - 1];
      Present(rs[..|rs| - 1], t, root) + (if Exists(t, Destination(last, root)) then [last] else [])
  }

  // Accounting of the counter.

  /** The add pass ticks or relabels each add at most once and leaves the skipped list alone. */
  lemma {:induction false} AddPassCounts(r: Run, n: nat, root: string)
    requires n <= |r.adds|
    ensures AddPass(r, n, root).processed + |AddPass(r, n, root).updates| <= r.processed + |r.updates| + n
    ensures AddPass(r, n, root).skipped == r.skipped
  {
    if n > 0 {
      AddPassCounts(r, n - 1, root);
    }
  }

  /** The update pass ticks once per change. */
  lemma {:induction false} UpdatePassTicks(r: Run, us: seq<FileChange>, pol: Policy, root: string)
    ensures UpdatePass(r, us, pol, root).processed == r.processed + |us|
    ensures UpdatePass(r, us, pol, root).adds == r.adds
    ensures UpdatePass(r, us, pol, root).updates == r.updates
  {
    if us != [] {
      UpdatePassTicks(r, us[..|us| - 1], pol, root);
    }
  }

  /** The removal pass ticks at most once per change. */
  lemma {:induction false} RemovalPassTicks(r: Run, rs: seq<FileChange>, pol: Policy, root: string)
    ensures RemovalPass(r, rs, pol, root).processed <= r.processed + |rs|
  {
    if rs != [] {
      RemovalPassTicks(r, rs[..|rs| - 1], pol, root);
    }
  }

  /**
   * The progress counter never passes `total_items`, the number of adds, updates and removals
   * in the plan as it was handed in, although the update pass also works through relabelled adds.
   */
  lemma ProgressWithinTotal(plan: SyncPlan, tree: Tree, pol: Policy, root: string)
    ensures Execute(plan, tree, pol, root).processed <= |plan.adds| + |plan.updates| + |plan.removals|
  {
    var r1 := AfterAdds(plan, tree, root);
    AddPassCounts(Start(plan, tree), |plan.adds|, root);
    UpdatePassTicks(r1, r1.updates, pol, root);
    RemovalPassTicks(AfterUpdates(plan, tree, pol, root), plan.removals, pol, root);
  }

  // Relabelled adds.

  /** The add loop only appends to the update list. */
  lemma {:induction false} AddPassAppends(r: Run, n: nat, root: string)
    requires n <= |r.adds|
    ensures |r.updates| <= |AddPass(r, n, root).updates|
    ensures AddPass(r, n, root).updates[..|r.updates|] == r.updates
  {
    if n > 0 {
      AddPassAppends(r, n - 1, root);
      assert AddPass(r, n, root).updates[..|AddPass(r, n - 1, root).updates|] == AddPass(r, n - 1, root).updates;
    }
  }

  /**
   * After `n` iterations of the add loop each of the first `n` adds is either as it was or
   * relabelled as an update and in the update list; the rest are untouched.
   */
  lemma {:induction false} AddPassRelabels(r: Run, n: nat, root: string)
    requires n <= |r.adds|
    ensures var s := AddPass(r, n, root);
      && (forall k :: n <= k < |r.adds| ==> s.adds[k] == r.adds[k])
      && (forall k :: 0 <= k < n ==>
            s.adds[k] == r.adds[k] || (s.adds[k] == r.adds[k].(action := Update) && s.adds[k] in s.updates))
  {
    if n > 0 {
      AddPassRelabels(r, n - 1, root);
      var s0 := AddPass(r, n - 1, root);
      var s := AddStep(s0, n - 1, root);
      assert AddPass(r, n, root) == s;
      assert forall x :: x in s0.updates ==> x in s.updates;
    }
  }

  /**
   * An add whose destination already existed is not lost: it is relabelled as an update, sits in
   * the update list the update pass walks, and that pass ticks once for every entry of that list.
   */
  lemma RelabelledAddsAreUpdated(plan: SyncPlan, tree: Tree, pol: Policy, root: string)
    requires forall k :: 0 <= k < |plan.adds| ==> plan.adds[k].action == Copy
    ensures var r1 := AfterAdds(plan, tree, root);
      && (forall k :: 0 <= k < |plan.adds| && r1.adds[k].action == Update ==>
            r1.adds[k] == plan.adds[k].(action := Update) && r1.adds[k] in r1.updates)
      && AfterUpdates(plan, tree, pol, root).processed == r1.processed + |r1.updates|
  {
    var r1 := AfterAdds(plan, tree, root);
    AddPassRelabels(Start(plan, tree), |plan.adds|, root);
    UpdatePassTicks(r1, r1.updates, pol, root);
  }

  // Declining everything.

  /** The add pass only writes to destinations that did not exist, so no file it found changes. */
  lemma {:induction false} AddPassKeepsFiles(r: Run, n: nat, root: string)
    requires n <= |r.adds|
    ensures forall p :: p in r.tree.files ==>
      p in AddPass(r, n, root).tree.files && AddPass(r, n, root).tree.files[p] == r.tree.files[p]
  {
    if n > 0 {
      AddPassKeepsFiles(r, n - 1, root);
    }
  }

  /** With every update declined the tree stays and the updates are appended to the skipped list in order. */
  lemma {:induction false} UpdatePassDeclined(r: Run, us: seq<FileChange>, pol: Policy, root: string)
    requires !pol.autoUpdates && forall c :: !Allowed(pol.confirmUpdate, c)
    ensures UpdatePass(r, us, pol, root).tree == r.tree
    ensures UpdatePass(r, us, pol, root).skipped == r.skipped + us
  {
    if us != [] {
      var init, c := us[..|us| - 1], us[|us| - 1];
      UpdatePassDeclined(r, init, pol, root);
      assert !Approved(pol.autoUpdates, pol.confirmUpdate, c);
      assert us == init + [c];
    }
  }

  /** With every removal declined the tree stays and the removals still present are appended to the skipped list. */
  lemma {:induction false} RemovalPassDeclined(r: Run, rs: seq<FileChange>, pol: Policy, root: string)
    requires !pol.autoRemovals && forall c :: !Allowed(pol.confirmRemoval, c)
    ensures RemovalPass(r, rs, pol, root).tree == r.tree
    ensures RemovalPass(r, rs, pol, root).skipped == r.skipped + Present(rs, r.tree, root)
  {
    if rs != [] {
      RemovalPassDeclined(r, rs[..|rs| - 1], pol, root);
    }
  }

  /**
   * Declining every update and removal leaves every file that was in the target unchanged; the
   * declined updates (relabelled adds included) and the removals whose file exists end up in
   * the skipped list, in that order. New files from the add pass are still copied.
   */
  lemma DecliningKeepsTarget(plan: SyncPlan, tree: Tree, pol: Policy, root: string)
    requires !pol.autoUpdates && forall c :: !Allowed(pol.confirmUpdate, c)
    requires !pol.autoRemovals && forall c :: !Allowed(pol.confirmRemoval, c)
    ensures var r1 := AfterAdds(plan, tree, root);
      var r := Execute(plan, tree, pol, root);
      && (forall p :: p in tree.files ==> p in r.tree.files && r.tree.files[p] == tree.files[p])
      && r.tree == r1.tree
      && r.skipped == plan.skipped + r1.updates + Present(plan.removals, r1.tree, root)
  {
    var r1 := AfterAdds(plan, tree, root);
    AddPassKeepsFiles(Start(plan, tree), |plan.adds|, root);
    AddPassCounts(Start(plan, tree), |plan.adds|, root);
    UpdatePassDeclined(r1, r1.updates, pol, root);
    RemovalPassDeclined(AfterUpdates(plan, tree, pol, root), plan.removals, pol, root);
  }

  /** The result of `execute_plan`: the `ValueError` for a missing target, or the plan as mutated and the counters. */
  datatype Outcome = TargetMissing | Executed(plan: SyncPlan, processed: nat, total: nat)

  /** The engine: the config, the config manager, the history store and the file system it acts on. */
  class SyncEngine {
    var config: AppConfig
    const manager: ConfigManager
    const store: SyncHistoryStore
    const fs: FileSystem

    constructor (c: AppConfig, m: ConfigManager, s: SyncHistoryStore, f: FileSystem)
      ensures config == c && manager == m && store == s && fs == f
    {
      config := c;
      manager := m;
      store := s;
      fs := f;
    }

    /** `list_modpacks`: discovery in the instances directory, whose listing is `listing`. */
    method ListModpacks(listing: Listing) returns (modpacks: seq<ModpackInfo>)
      ensures modpacks == if listing.present then Discovered(listing.entries) else []
    {
      modpacks := DiscoverModpacks(listing);
    }

    /** `create_sync_plan`: `build_sync_plan` against the configured game directory. */
    method CreateSyncPlan(modpack: ModpackInfo, sourceWalk: Walk, targetWalk: Walk, digestOf: Blob -> string)
      returns (plan: SyncPlan, payload: Dict<FileRecord>, source: Snapshot, target: Snapshot)
      requires store.Valid()
      modifies store
      ensures store.Valid() && store.disk == old(store.disk)
      ensures var h := HistoryIn(View(old(store.cache), old(store.disk)), modpack.name);
        && store.cache == View(old(store.cache), old(store.disk))[modpack.name := h]
        && source == (if sourceWalk.baseExists then Gathered(sourceWalk.files, NormalizedExclusions(h.exclusions), digestOf) else Empty())
        && target == (if targetWalk.baseExists then Gathered(targetWalk.files, {}, digestOf) else Empty())
        && plan == PlanOf(source, target, h.files, fs.tree, config.gamePath)
        && payload == PayloadOf(source)
    {
      plan, payload, source, target := BuildSyncPlan(modpack, config.gamePath, store, sourceWalk, targetWalk, fs.tree, digestOf);
    }

    /** The add loop of `execute_plan`. */
    method ApplyAdds(r0: Run, root: string) returns (adds: seq<FileChange>, updates: seq<FileChange>, processed: nat)
      requires fs.tree == r0.tree
      modifies fs
      ensures Run(fs.tree, adds, updates, r0.skipped, processed) == AddPass(r0, |r0.adds|, root)
    {
      adds, updates, processed := r0.adds, r0.updates, r0.processed;
      var i := 0;
      while i < |adds|
        invariant |adds| == |r0.adds| && 0 <= i <= |adds|
        invariant Run(fs.tree, adds, updates, r0.skipped, processed) == AddPass(r0, i, root)
      {
        var change := adds[i];
        var destination := Destination(change, root);
        if Exists(fs.tree, destination) {
          change := change.(action := Update);
          adds := adds[i := change];
          updates := updates + [change];
        } else if change.sourcePath.Some? && change.sourcePath.value in fs.tree.files {
          fs.CopyFile(change.sourcePath.value, destination);
          processed := processed + 1;
        }
        i := i + 1;
      }
    }

    /** The update loop of `execute_plan`, over the list `pending`. */
    method ApplyUpdates(r0: Run, pending: seq<FileChange>, pol: Policy, root: string)
      returns (skipped: seq<FileChange>, processed: nat)
      requires fs.tree == r0.tree
      modifies fs
      ensures Run(fs.tree, r0.adds, r0.updates, skipped, processed) == UpdatePass(r0, pending, pol, root)
    {
      skipped, processed := r0.skipped, r0.processed;
      var j := 0;
      while j < |pending|
        invariant 0 <= j <= |pending|
        invariant Run(fs.tree, r0.adds, r0.updates, skipped, processed) == UpdatePass(r0, pending[..j], pol, root)
      {
        assert pending[..j + 1][..j] == pending[..j];
        var change := pending[j];
        var destination := Destination(change, root);
        var allowed := pol.autoUpdates;
        if !allowed {
          allowed := if pol.confirmUpdate.Some? then pol.confirmUpdate.value(change) else false;
        }
        if !allowed {
          skipped := skipped + [change];
        } else if change.sourcePath.Some? && change.sourcePath.value in fs.tree.files {
          if pol.backupRoot.Some? && Exists(fs.tree, destination) {
            var _ := fs.CreateBackup(destination, pol.backupRoot, pol.stamp);
          }
          fs.CopyFile(change.sourcePath.value, destination);
        }
        processed := processed + 1;
        j := j + 1;
      }
      assert pending[..j] == pending;
    }

    /** The removal loop of `execute_plan`. */
    method ApplyRemovals(r0: Run, removals: seq<FileChange>, pol: Policy, root: string)
      returns (skipped: seq<FileChange>, processed: nat)
      requires fs.tree == r0.tree
      modifies fs
      ensures Run(fs.tree, r0.adds, r0.updates, skipped, processed) == RemovalPass(r0, removals, pol, root)
    {
      skipped, processed := r0.skipped, r0.processed;
      var j := 0;
      while j < |removals|
        invariant 0 <= j <= |removals|
        invariant Run(fs.tree, r0.adds, r0.updates, skipped, processed) == RemovalPass(r0, removals[..j], pol, root)
      {
        assert removals[..j + 1][..j] == removals[..j];
        var change := removals[j];
        var destination := Destination(change, root);
        if Exists(fs.tree, destination) {
          var allowed := pol.autoRemovals;
          if !allowed {
            allowed := if pol.confirmRemoval.Some? then pol.confirmRemoval.value(change) else false;
          }
          if !allowed {
            skipped := skipped + [change];
          } else {
            if pol.backupRoot.Some? {
              var _ := fs.CreateBackup(destination, pol.backupRoot, pol.stamp);
            }
            fs.RemoveFile(destination);
          }
          processed := processed + 1;
        }
        j := j + 1;
      }
      assert removals[..j] == removals;
    }

    /**
     * `execute_plan`. A missing target directory raises before anything changes. Otherwise the
     * three passes run, the history's files become `payload` (whatever was declined or skipped)
     * with `now` as the sync time, and the empty directories under the target are pruned.
     */
    method ExecutePlan(
      modpack: ModpackInfo, plan: SyncPlan, payload: Dict<FileRecord>,
      autoUpdates: Option<bool>, autoRemovals: Option<bool>, createBackups: bool,
      confirmUpdate: Option<FileChange -> bool>, confirmRemoval: Option<FileChange -> bool>,
      stamp: string, now: real)
      returns (outcome: Outcome)
      requires store.Valid() && payload.Valid()
      modifies fs, store
      ensures store.Valid()
      ensures !Exists(old(fs.tree), config.gamePath) ==>
        && outcome == TargetMissing && fs.tree == old(fs.tree)
        && store.cache == old(store.cache) && store.disk == old(store.disk)
      ensures Exists(old(fs.tree), config.gamePath) ==>
        var pol := PolicyOf(config, autoUpdates, autoRemovals, createBackups, confirmUpdate, confirmRemoval, stamp);
        var r := Execute(plan, old(fs.tree), pol, config.gamePath);
        var h := HistoryIn(View(old(store.cache), old(store.disk)), modpack.name).(files := payload, lastSynced := Some(now));
        && outcome == Executed(SyncPlan(r.adds, r.updates, plan.removals, r.skipped), r.processed,
                               |plan.adds| + |plan.updates| + |plan.removals|)
        && fs.tree == Prune(r.tree, config.gamePath)
        && store.disk == Saved(old(store.disk), h)
        && store.cache == View(old(store.cache), old(store.disk))[modpack.name := h]
    {
      var targetPath := config.gamePath;
      if !Exists(fs.tree, targetPath) {
        return TargetMissing;
      }
      var pol := PolicyOf(config, autoUpdates, autoRemovals, createBackups, confirmUpdate, confirmRemoval, stamp);
      var total := |plan.adds| + |plan.updates| + |plan.removals|;
      ghost var t0 := fs.tree;

      var adds, updates, processed := ApplyAdds(Start(plan, fs.tree), targetPath);
      var r1 := Run(fs.tree, adds, updates, plan.skipped, processed);
      assert r1 == AfterAdds(plan, t0, targetPath);

      var skipped;
      skipped, processed := ApplyUpdates(r1, updates, pol, targetPath);
      var r2 := Run(fs.tree, adds, updates, skipped, processed);
      assert r2 == AfterUpdates(plan, t0, pol, targetPath);

      skipped, processed := ApplyRemovals(r2, plan.removals, pol, targetPath);

      store.UpdateFileSnapshot(modpack.name, payload, now);
      fs.PruneEmptyDirs(config.gamePath);
      outcome := Executed(SyncPlan(adds, updates, plan.removals, skipped), processed, total);
    }

    /** `add_exclusion`: the normalised path is added to the modpack's exclusions. */
    method AddExclusion(name: string, relPath: string)
      requires store.Valid()
      modifies store
      ensures store.Valid()
      ensures var p := NormalizeRelative(relPath);
        var h := HistoryIn(View(old(store.cache), old(store.disk)), name);
        var h' := h.(exclusions := WithExclusion(h.exclusions, p));
        && store.cache == View(old(store.cache), old(store.disk))[name := h']
        && store.disk == if p in h.exclusions then old(store.disk) else Saved(old(store.disk), h')
    {
      store.AddExclusion(name, NormalizeRelative(relPath));
    }

    /** `remove_exclusion`: the normalised path is removed from the modpack's exclusions. */
    method RemoveExclusion(name: string, relPath: string)
      requires store.Valid()
      modifies store
      ensures store.Valid()
      ensures var p := NormalizeRelative(relPath);
        var h := HistoryIn(View(old(store.cache), old(store.disk)), name);
        var h' := h.(exclusions := RemoveFirst(h.exclusions, p));
        && store.cache == View(old(store.cache), old(store.disk))[name := h']
        && store.disk == if p in h.exclusions then Saved(old(store.disk), h') else old(store.disk)
    {
      store.RemoveExclusion(name, NormalizeRelative(relPath));
    }

    /** `update_paths`: the two directories change and the whole config is saved. */
    method UpdatePaths(instances: string, game: string)
      modifies this, manager
      ensures config == old(config).(instancesPath := instances, gamePath := game)
      ensures manager.file == Holds(JsonOf(config).items) && manager.cached == Some(config)
    {
      config := config.(instancesPath := instances, gamePath := game);
      manager.Save(Some(config));
    }
  }
}
