/** The domain records of app/core/models.py. */
module Models {
  import opened Options
  import opened Dicts

  /** The four actions a planned change can carry. */
  datatype FileAction = Copy | Update | Delete | Skip {

    /** The enum's string value. */
    function Value(): string {
      match this
      case Copy => "copy"
      case Update => "update"
      case Delete => "delete"
      case Skip => "skip"
    }
  }

  /** No two actions share a string value, so the value identifies the action. */
  lemma ActionValuesDistinct(a: FileAction, b: FileAction)
    requires a.Value() == b.Value()
    ensures a == b
  {
  }

  /** One planned file change; the optional fields default to `None`. */
  datatype FileChange = FileChange(
    relPath: string,
    action: FileAction,
    sourcePath: Option<string>,
    targetPath: Option<string>,
    sizeBytes: Option<nat>,
    hashDigest: Option<string>,
    reason: Option<string>)

  /** The relative paths of a list of changes, in order. */
  function PathsOf(cs: seq<FileChange>): (ps: seq<string>)
    ensures |ps| == |cs|
    ensures forall i :: 0 <= i < |cs| ==> ps[i] == cs[i].relPath
  {
    seq(|cs|, i requires 0 <= i < |cs| => cs[i].relPath)
  }

  /** The four ordered lists of a sync plan. */
  datatype SyncPlan = SyncPlan(
    adds: seq<FileChange>,
    updates: seq<FileChange>,
    removals: seq<FileChange>,
    skipped: seq<FileChange>)
  {
    /** `is_empty`: no pending work; skipped entries alone are not work. */
    function IsEmpty(): (r: bool)
      ensures r <==> |AllChanges()| == |skipped|
      ensures r ==> AllChanges() == skipped
    {
      !(adds != [] || updates != [] || removals != [])
    }

    /** `all_changes`: the four lists one after another, adds first and skipped last. */
    function AllChanges(): (r: seq<FileChange>)
      ensures |r| == |adds| + |updates| + |removals| + |skipped|
      ensures r[..|adds|] == adds
      ensures r[|adds|..|adds| + |updates|] == updates
      ensures r[|adds| + |updates|..|adds| + |updates| + |removals|] == removals
      ensures r[|adds| + |updates| + |removals|..] == skipped
    {
      adds + updates + removals + skipped
    }
  }

  /** `SyncPlan()`: four empty lists. */
  function EmptyPlan(): (p: SyncPlan)
    ensures p.IsEmpty() && p.AllChanges() == []
  {
    SyncPlan([], [], [], [])
  }

  /** A discovered modpack directory. */
  datatype ModpackInfo = ModpackInfo(
    name: string,
    path: string,
    iconPath: Option<string>,
    manifestPath: Option<string>)

  /** What the history keeps of one file: its digest, and its size and mtime as strings. */
  datatype FileRecord = FileRecord(hash: string, size: string, mtime: string)

  /** The persistent record of one modpack. `lastSynced` is the opaque `time.time()` value. */
  datatype SyncHistory = SyncHistory(
    name: string,
    files: Dict<FileRecord>,
    exclusions: seq<string>,
    lastSynced: Option<real>)

  /** `SyncHistory(modpack_name=name)`: the dataclass defaults. */
  function FreshHistory(name: string): (h: SyncHistory)
    ensures h.name == name && h.files.Valid()
    ensures h.files.items == map[] && h.files.keys == []
    ensures h.exclusions == [] && h.lastSynced == None
  {
    SyncHistory(name, Empty(), [], None)
  }
}
