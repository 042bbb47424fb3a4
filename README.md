# Modpack sync core in Dafny

This project models the core of a modpack synchronisation tool. The tool mirrors a
modpack's directory (the source) into a game installation (the target). It runs in four
steps:

1. It snapshots both trees: each file's relative path, size, mtime and SHA-256 digest.
2. It compares the snapshots with the per-modpack history of the last sync and builds a
   sync plan of four lists: adds, updates, removals and skipped.
3. It executes the plan. Updates and removals are confirmed automatically or through
   callbacks, and files can be backed up first.
4. It records the source snapshot as the new history.

Beside this pipeline the model covers the history store, the configuration record and its
JSON form, and the file-tree helpers.

The file system is a value `Tree`: a map from absolute path to bytes plus a set of
directories. It is held by the class `FileSystem.FileSystem`, whose methods change it as
the tree functions `Copied`, `Remove`, `Backup` and `Prune` say. The history document and
the configuration file are values held by the classes `SyncHistoryStore` and
`ConfigManager`.

Python dicts, whose iteration order decides the order of the plan's lists, are `Dict`
values: a map plus the insertion order of its keys. Each loop of the source is a `method`.
Its `ensures` ties the result, or the new state, to a recursive function that folds one
step over the list. The properties are proved about those functions.

Modules, one per source file:

- `Paths` and `FileSystem`: app/utils/filesystem.py.
- `Dicts`: the Python dict semantics the other modules rely on.
- `Models`: app/core/models.py.
- `Scanner`: app/core/scanner.py.
- `Persistence`: app/core/persistence.py.
- `Config`: app/core/config.py.
- `Syncer`: app/core/syncer.py.

Inputs the code gets from the operating system are parameters:

- A directory walk is a `Walk`: whether the base exists, then the walked files in walk
  order. Each file has its `stat` result and its bytes, or `None` when these cannot be read.
- A directory listing is a `Listing`.
- The digest function is `digestOf`.
- `time.strftime` is the `stamp` string.
- `time.time()` is the `now` value.
- A confirmation callback is an optional total function.

## Model

| member | source | states |
|---|---|---|
| Paths.NormalizeRelative | app/utils/filesystem.py:29-32 | the result has the input's length and no backslash; every backslash becomes '/' and every other character is unchanged |
| Paths.NormalizeRelativeIdempotent | app/utils/filesystem.py:32 | normalising twice is normalising once |
| Paths.NormalizeRelativeFixed | app/utils/filesystem.py:32 | a path without backslashes is returned unchanged |
| Paths.Basename | app/utils/filesystem.py:64 | `source.name` is the suffix of the path after its last separator: it holds no separator and is either the whole path or preceded by '/' |
| Dicts.Dict.Put | app/core/scanner.py:76-82 | assigning a key sets its value; a new key goes to the end of the order, an existing key keeps its place; the dict stays well-formed |
| Dicts.Dict.Pop | app/core/scanner.py:132 | `pop(k, None)` removes the key from the map and from the order, keeping the other keys in order; a missing key is a no-op |
| Models.ActionValuesDistinct | app/core/models.py:11-17 | the four actions have pairwise distinct string values |
| Models.SyncPlan.IsEmpty | app/core/models.py:42-43 | empty iff `all_changes` holds only the skipped list, so skipped entries alone are no work |
| Models.SyncPlan.AllChanges | app/core/models.py:45-46 | adds, then updates, then removals, then skipped; its length is the sum of the four |
| Models.EmptyPlan | app/core/models.py:37-40 | a new plan has four empty lists and is empty |
| Models.FreshHistory | app/core/models.py:69-76 | a new history has no files, no exclusions and no last-synced time |
| FileSystem.HashFile | app/utils/filesystem.py:16-26 | feeding the file in chunks of `BUFFER_SIZE` gives the digest of its whole contents; an unreadable file gives "" |
| FileSystem.Copied | app/utils/filesystem.py:41-45 | the landing path holds the source's bytes and the destination's parents exist; no other file changes; the landing path is the destination, or `dst/<name of src>` when the destination is an existing directory |
| FileSystem.Remove | app/utils/filesystem.py:48-54 | the path is no longer a file, every other file is unchanged, and a missing path leaves the tree as it was |
| FileSystem.Backup | app/utils/filesystem.py:57-72 | no backup root gives `None` and no change; a source that is not a file, or that already is the backup path, gives `None` and no file change; otherwise the result is `root/stamp/<name>`, which, when it is not a directory, holds the source's bytes, with every other file unchanged |
| FileSystem.Prune | app/utils/filesystem.py:75-89 | a missing base is left alone; files never change; exactly the directories strictly beneath the base with no file beneath them go, and the base stays |
| FileSystem.FileSystem.CopyFile | app/utils/filesystem.py:41-45 | the live tree becomes `Copied` of the old one |
| FileSystem.FileSystem.RemoveFile | app/utils/filesystem.py:48-54 | the live tree becomes `Remove` of the old one |
| FileSystem.FileSystem.CreateBackup | app/utils/filesystem.py:57-72 | the live tree and the returned path are `Backup` of the old tree |
| FileSystem.FileSystem.PruneEmptyDirs | app/utils/filesystem.py:75-89 | deepest-first `rmdir` of each empty directory beneath the base leaves the tree `Prune` describes |
| Persistence.RawTable | app/core/persistence.py:23-29 | a missing or unreadable document reads as an empty table; a parsed one as itself |
| Persistence.FromRaw | app/core/persistence.py:39-45 | a record missing `files` or `exclusions` gets the empty default; `last_synced` is taken as stored |
| Persistence.RecordRoundTrip | app/core/persistence.py:64-68 | the record `save_history` writes reads back as the same history |
| Persistence.SaveThenReload | app/core/persistence.py:61-70 | after saving `h`, a fresh load yields `h` under its name and every other stored history unchanged |
| Persistence.WithExclusionProperties | app/core/persistence.py:78-82 | adding an exclusion makes it present, keeps the others, adds no duplicate and is idempotent |
| Persistence.RemoveFirst | app/core/persistence.py:87 | `list.remove` shortens a list holding the path by one and adds nothing |
| Persistence.RemoveFirstMultiset | app/core/persistence.py:87 | exactly one occurrence of the path is removed |
| Persistence.RemoveFirstNoDuplicates | app/core/persistence.py:84-88 | on a list without duplicates the path is absent afterwards and no duplicate appears |
| Persistence.SyncHistoryStore.LoadAll | app/core/persistence.py:34-46 | a non-empty cache is returned without reading the document; otherwise the cache is filled with every stored history |
| Persistence.SyncHistoryStore.GetHistory | app/core/persistence.py:48-54 | the known history, or a fresh one that is cached but not saved |
| Persistence.SyncHistoryStore.SaveHistory | app/core/persistence.py:61-70 | only this modpack's record in the document is replaced, and the cache holds the saved history |
| Persistence.SyncHistoryStore.AppendLog | app/core/persistence.py:56-59 | the history is stamped with `now` and saved |
| Persistence.SyncHistoryStore.UpdateFileSnapshot | app/core/persistence.py:72-76 | the history's files become the snapshot, stamped with `now`, and it is saved |
| Persistence.SyncHistoryStore.AddExclusion | app/core/persistence.py:78-82 | the path is appended and saved only when absent; otherwise the document is untouched |
| Persistence.SyncHistoryStore.RemoveExclusion | app/core/persistence.py:84-88 | the first occurrence is removed and saved only when present; otherwise the document is untouched |
| Scanner.DiscoveredMembers | app/core/scanner.py:33-48 | a modpack is listed iff some directory entry with `manifest.json` or `mods` yields that info |
| Scanner.DiscoverModpacks | app/core/scanner.py:26-50 | a missing instances directory gives no modpacks; otherwise the loop yields `Discovered` of the listing, the modpack entries in listing order |
| Scanner.GatheredKeys | app/core/scanner.py:56-82 | a path is in the snapshot iff some walked file with that normalised path is not excluded and can be stat'ed; an excluded path never appears; each entry records its own path |
| Scanner.GatherSnapshot | app/core/scanner.py:53-84 | a missing base gives an empty snapshot; otherwise the loop builds exactly `Gathered` of the walk, hashing each kept file |
| Scanner.DecimalString | app/core/scanner.py:165 | `str(size)` is a non-empty string of decimal digits, with no leading zero for sizes of two or more digits |
| Scanner.DecimalRoundTrip | app/core/scanner.py:165 | the digits written for a size denote that size |
| Scanner.PayloadOf | app/core/scanner.py:162-169 | the payload has exactly the source snapshot's keys, in its order, each mapped to its digest, its size as a decimal string and its mtime |
| Scanner.ClassifiedSnoc | app/core/scanner.py:107-129 | classifying one more source path appends its change to the list of its action only |
| Scanner.ClassifyPath | app/core/scanner.py:107-129 | one iteration files the path's change under its action |
| Scanner.ClassifySources | app/core/scanner.py:107-132 | the first loop builds the adds, updates and skipped of `Classified` and pops every source path from the history copy |
| Scanner.PoppedLeftover | app/core/scanner.py:104-132 | after the pops the history copy holds exactly the history paths absent from the source, in history order, with their records |
| Scanner.WithLeftoversSnoc | app/core/scanner.py:135-160 | one more leftover history path adds at most its own change |
| Scanner.PlanLeftover | app/core/scanner.py:135-160 | one iteration files the drift update or the deletion, or nothing |
| Scanner.PlanLeftovers | app/core/scanner.py:135-160 | the second loop appends the changes of `WithLeftovers` |
| Scanner.BuildPlan | app/core/scanner.py:104-169 | the plan is `PlanOf` the snapshots, history and tree, and the payload is `PayloadOf` the source |
| Scanner.SourceChangesSound | app/core/scanner.py:107-129 | every change in a source-derived list belongs to a listed source path and is that path's computed change |
| Scanner.SourceChangesComplete | app/core/scanner.py:107-129 | every listed source path's change is in the list of its action |
| Scanner.HistoryChangesSound | app/core/scanner.py:135-160 | every change in a history-derived list belongs to a leftover history path and is its computed change |
| Scanner.HistoryChangesComplete | app/core/scanner.py:135-160 | every leftover history path with a change has it in the list of its action |
| Scanner.PlannedChange | app/core/scanner.py:107-160 | adds are copies and skips of source paths; updates come from a source path or a leftover history path; removals are deletions of leftover history paths |
| Scanner.SourcePathPlacement | app/core/scanner.py:107-129 | a source path is in exactly one of adds (missing from target; copy from its absolute path to `root/p`), updates (digests differ; "Content differs") and skipped (digests equal), and never in removals |
| Scanner.HistoryPathPlacement | app/core/scanner.py:135-160 | a history path absent from the source is never added or skipped; drift gives an update without source and "Target file changed since last sync" and no removal; otherwise an existing target gives a deletion "Removed from modpack"; otherwise it appears nowhere |
| Scanner.PlanClassesDisjoint | app/core/scanner.py:107-160 | no path is in two of adds, updates and removals |
| Scanner.BuildSyncPlan | app/core/scanner.py:87-171 | the history is fetched (cached if new), the source is snapshotted with its exclusions and the target without, and the plan and payload are those of `PlanOf` and `PayloadOf` |
| Config.DefaultConfig | app/core/config.py:69-80 | new files are confirmed automatically, updates and removals are not; backups, exclusions and history live in the application directory |
| Config.StringifiedAtKeys | app/core/config.py:86-88 | visiting distinct keys stringifies the `Path` values under exactly those keys |
| Config.StringifyPaths | app/core/config.py:86-88 | the loop leaves the keys and their order and stringifies every visited value |
| Config.ToJson | app/core/config.py:82-89 | `to_json` returns `JsonOf` the config |
| Config.JsonOfStringified | app/core/config.py:85-89 | every value of `to_json` is the `asdict` value under the same key with a `Path` turned into its string |
| Config.JsonOfShape | app/core/config.py:82-89 | the result has the field names as keys, in declaration order, and holds no `Path` |
| Config.CollectArguments | app/core/config.py:104-110 | the first loop collects `Collected` of the declared fields, or stops where `Path` raises |
| Config.SetDefaults | app/core/config.py:112-114 | the `setdefault` loop gives `WithDefaults` |
| Config.FromJson | app/core/config.py:91-116 | `from_json` returns `FromJsonOf` the data and defaults |
| Config.CollectedStaysNone | app/core/config.py:104-110 | once `Path` has raised, the collection has failed |
| Config.CollectedFields | app/core/config.py:104-110 | exactly the declared fields present in the data are collected, each converted |
| Config.CollectedSome | app/core/config.py:104-110 | collection fails only when some present path field makes `Path` raise |
| Config.CollectedIgnoresOthers | app/core/config.py:104-105 | collection reads only keys that name declared fields |
| Config.WithDefaultsMembers | app/core/config.py:112-114 | `setdefault` keeps every present value and adds the default of each missing field |
| Config.MergedArguments | app/core/config.py:104-114 | every field ends up in the keyword arguments: present ones converted, absent ones defaulted |
| Config.BuildFieldValues | app/core/config.py:116 | building from a config's field values gives that config, and only such arguments give it |
| Config.FromJsonIgnoresUndeclared | app/core/config.py:104-105 | data that agree on the declared fields give the same result |
| Config.FromJsonFields | app/core/config.py:104-116 | a present path string becomes a `Path`, a present `None` stays `None`, every present field is converted, and an absent field takes the default's value |
| Config.FromJsonRaises | app/core/config.py:107-108 | a bool or other non-string value in a path field makes `from_json` raise |
| Config.StringifiedReads | app/core/config.py:88 | reading back a value written by `to_json` gives the original value |
| Config.JsonRoundTrip | app/core/config.py:82-116 | `from_json(to_json(c))` is `c`, whatever the defaults |
| Config.ConfigManager.Save | app/core/config.py:161-170 | the given config, else the cached one, else the defaults, is written as its `to_json` and becomes the cached config |
| Config.ConfigManager.Load | app/core/config.py:140-159 | a cached config is returned as is; otherwise the parsed file gives `from_json` of it, an unreadable file gives the defaults, and a missing file gives the defaults, which are saved; the result is cached |
| Syncer.AddStep | app/core/syncer.py:90-103 | an existing destination relabels the add as an update and appends the same change to updates, with no copy and no tick; a missing source changes nothing and does not tick; otherwise the destination gets the source's bytes, no existing file changes, and the counter goes up by one |
| Syncer.UpdateStep | app/core/syncer.py:105-124 | every update ticks once; a declined one goes to skipped and leaves the tree; an approved one without source leaves the tree; an approved one with source writes the source's bytes to the destination, after keeping the old bytes at `root/stamp/<name>` when a backup root is set and the destination exists; every file other than the destination and the backup path keeps its bytes |
| Syncer.RemovalStep | app/core/syncer.py:126-143 | a destination already gone changes nothing and does not tick; a declined removal goes to skipped and keeps the file; an approved one keeps a backup when a root is set and deletes the file; both tick; every file other than the destination and the backup path keeps its bytes |
| Syncer.AddPassCounts | app/core/syncer.py:90-103 | each add is ticked or relabelled at most once, and the add pass never touches skipped |
| Syncer.AddPassAppends | app/core/syncer.py:90-103 | the add pass only appends to the update list |
| Syncer.UpdatePassTicks | app/core/syncer.py:105-124 | the update pass ticks exactly once per change it walks |
| Syncer.RemovalPassTicks | app/core/syncer.py:126-143 | the removal pass ticks at most once per removal |
| Syncer.ProgressWithinTotal | app/core/syncer.py:74-143 | the counter never exceeds the total of adds, updates and removals, which is computed before the passes |
| Syncer.AddPassRelabels | app/core/syncer.py:90-96 | every add is either unchanged or relabelled as an update and present in the update list |
| Syncer.RelabelledAddsAreUpdated | app/core/syncer.py:92-105 | a relabelled add is in the list the update pass walks (taken after the add pass), and that pass ticks once for every entry of it |
| Syncer.AddPassKeepsFiles | app/core/syncer.py:90-103 | the add pass writes only to destinations that did not exist, so every file already there keeps its bytes |
| Syncer.UpdatePassDeclined | app/core/syncer.py:109-115 | with every update declined the tree is unchanged and the updates are appended to skipped in order |
| Syncer.RemovalPassDeclined | app/core/syncer.py:131-137 | with every removal declined the tree is unchanged and the removals whose file exists are appended to skipped |
| Syncer.DecliningKeepsTarget | app/core/syncer.py:90-143 | declining every update and removal keeps every existing target file's bytes; skipped grows by the updates (relabelled adds included) and then by the removals still present |
| Syncer.SyncEngine.ListModpacks | app/core/syncer.py:44-45 | discovery in the configured instances directory |
| Syncer.SyncEngine.CreateSyncPlan | app/core/syncer.py:48-50 | `build_sync_plan` against the configured game directory |
| Syncer.SyncEngine.ApplyAdds | app/core/syncer.py:90-103 | the add loop reaches the state `AddPass` describes |
| Syncer.SyncEngine.ApplyUpdates | app/core/syncer.py:105-124 | the update loop reaches the state `UpdatePass` describes |
| Syncer.SyncEngine.ApplyRemovals | app/core/syncer.py:126-143 | the removal loop reaches the state `RemovalPass` describes |
| Syncer.SyncEngine.ExecutePlan | app/core/syncer.py:53-146 | a missing target directory raises before any file or history change; otherwise the tree is the pruned result of the three passes, the plan's lists and counter are as the passes leave them, the total is computed once, and the history's files become the payload with `now` as the sync time, however much was declined |
| Syncer.SyncEngine.AddExclusion | app/core/syncer.py:149-150 | the store adds the backslash-normalised path |
| Syncer.SyncEngine.RemoveExclusion | app/core/syncer.py:152-153 | the store removes the backslash-normalised path |
| Syncer.SyncEngine.UpdatePaths | app/core/syncer.py:156-159 | both directories are replaced, the other fields kept, and the whole config is saved and cached |

## Left out

- Directory walks, listings, `stat` and file reads are inputs, not derived from the `Tree`. The order of `os.walk` and of `sorted(iterdir())` is whatever order the input has.
- SHA-256 is the parameter `digestOf`. `shutil.copy2` metadata and mtime floats are not modelled; an mtime is an opaque string, and `str(mtime)` is that string.
- Paths are strings joined with '/'. `Path(s)` normalisation (dropping `.` or doubled separators) is taken as the identity, and snapshot keys are the slash-normalised relative paths.
- JSON text is not modelled. The history document and the configuration file are parsed values, with "missing" and "unreadable (an `OSError`) or not JSON" as cases. Neither document's top level can be something other than an object.
- A history record always has the value types the code writes. Records with a wrong value type (a list where a dict is expected, say) are not modelled.
- The `threading.Lock` of the history store is left out; the store is modelled sequentially.
- Progress and log callbacks are left out, beyond counting `tick`s.
- Timestamps are left out. `time.strftime` is the `stamp` argument and `time.time()` is the `now` argument. One stamp serves a whole `execute_plan` call, while the code reads the clock at each backup.
- `create_backup` works at `root/stamp/<name>`. Distinct files with one name in one second overwrite each other's backups, as in the code.
- `mkdir` failures are not modelled: a parent path that is a file, or a permission error in `copy_file`, `create_backup` or the store's constructor. In the model, creating directories always succeeds.
- A source path that exists as a directory is treated as a missing source; `copy2` would raise there.
- FileSystem.Copied: a landing path that is itself an existing directory makes `copy2` raise; the model writes the file there anyway.
- FileSystem.Backup: when `root/stamp/<name>` is an existing directory, `copy2` raises and `create_backup` returns `None`. The model instead copies into that directory under the source's name and returns the path. The row's guarantee about the backup's bytes and the frame is stated only when the backup path is not a directory.
- Snapshot keys, history keys and exclusions are compared as exact strings. On Windows, `Path` equality ignores case, so the code pairs `Mods/A.jar` in the source with `mods/a.jar` in the target. The model treats them as two paths, plans an add and ends with two files. The model follows case-sensitive (POSIX) path equality.
- `remove_file` on a directory leaves the tree unchanged, where `unlink` raises.
- Syncer.SyncEngine.ExecutePlan, FileSystem.FileSystem.CopyFile, FileSystem.FileSystem.RemoveFile, Persistence.SyncHistoryStore.SaveHistory, Config.ConfigManager.Save and Config.ConfigManager.Load: I/O failures are not modelled. In the model every copy, unlink and write succeeds, so `ExecutePlan` always completes its passes, saves the history and prunes. In the code these failures propagate out of `execute_plan` and stop the run mid-pass, before the history update and the prune. The failures are:
  - an `OSError` from `shutil.copy2`, such as permission denied or a full disk;
  - an `unlink` error other than `FileNotFoundError`;
  - a failing `write_text` in `_write_raw` or `ConfigManager.save`.
- Persistence.RawTable and Config.ConfigManager.Load: a history or config document that is not valid UTF-8 makes `read_text` raise `UnicodeDecodeError`, which neither `_read_raw` nor `load` catches. The model has no such case; its `Unreadable` document stands only for the `OSError` and `JSONDecodeError` that the code catches.
- `ConfigManager.load` does not create the backup directory, `default_app_dir` does not create the application directory, and `_default_instances_path` / `_default_game_path` do not probe the disk. The defaults are a given `AppConfig`.
- `SyncEngine.__init__` is left out: loading the config, choosing the history path and building the store. The engine's constructor takes the config, manager, store and file system as they result.
- Config.FromJsonOf: a present field whose value has the wrong type for its field yields `None`, where Python builds the dataclass anyway. Examples are a string in a flag field, or `None` in `instances_path` or `game_path`. Python raises only for `Path` of a bool, number, list or object (app/core/config.py:107-108), and the model gives `None` there as well.
- Config.FromJson: gives `None` in the same cases as `Config.FromJsonOf`.
- Syncer.UpdateStep: the content guarantee is stated only when the backup path does not clash with the source, the destination or a directory, and the frame guarantee only when neither the destination nor the backup path is a directory. In those clashes only the tree equation of the step holds.
- Syncer.RemovalStep: the backup guarantee is stated only when the backup path is neither a directory nor the destination itself, and the frame guarantee only when the backup path is not a directory.
- Declining every confirmation is meant to leave the target byte-for-byte unchanged. The code still copies new files in the add pass, which asks for no confirmation and does not read `auto_confirm_new_files`. This model follows the code: `Syncer.DecliningKeepsTarget` states that every file already in the target keeps its bytes and that the tree is the one after the add pass.
- `SyncLogEntry` of app/core/models.py is not used by the core and is not modelled.
- app/gui/main_window.py, app/main.py and run.py are not part of this model.
