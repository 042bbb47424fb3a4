/**
 * `SyncHistoryStore` of app/core/persistence.py: an in-memory cache of per-modpack histories in
 * front of one history document holding the records of every modpack.
 *
 * The document is a `Disk`: absent, unreadable (a read error or text that is not JSON), or a
 * parsed table from modpack name to raw record. A raw record may lack any of its three keys.
 */
module Persistence {
  import opened Options
  import opened Dicts
  import opened Models

  /** One modpack's entry in the history document; a missing key is `None`. */
  datatype RawRecord = RawRecord(
    files: Option<Dict<FileRecord>>,
    exclusions: Option<seq<string>>,
    lastSynced: Option<real>)

  datatype Disk = Absent | Unreadable | Stored(table: map<string, RawRecord>)

  /** A parsed JSON object is a well-formed dict. */
  ghost predicate DiskValid(d: Disk) {
    d.Stored? ==> forall n :: n in d.table && d.table[n].files.Some? ==> d.table[n].files.value.Valid()
  }

  /** `_read_raw`: the parsed table, or an empty table when the document is absent or unreadable. */
  function RawTable(d: Disk): (raw: map<string, RawRecord>)
    ensures d.Stored? ==> raw == d.table
    ensures !d.Stored? ==> raw == map[]
  {
    match d
    case Stored(table) => table
    case _ => map[]
  }

  /** The history `load_all` builds from a raw record, with the dataclass defaults for missing keys. */
  function FromRaw(name: string, r: RawRecord): (h: SyncHistory)
    ensures h.name == name
    ensures r.files == None ==> h.files == Empty()
    ensures r.exclusions == None ==> h.exclusions == []
    ensures h.lastSynced == r.lastSynced
  {
    SyncHistory(name, r.files.GetOr(Empty()), r.exclusions.GetOr([]), r.lastSynced)
  }

  /** The raw record `save_history` writes: all three keys. */
  function ToRaw(h: SyncHistory): RawRecord {
    RawRecord(Some(h.files), Some(h.exclusions), h.lastSynced)
  }

  /** Writing a history and reading it back yields the same history. */
  lemma RecordRoundTrip(h: SyncHistory)
    ensures FromRaw(h.name, ToRaw(h)) == h
  {
  }

  /** Every history in the document, as `load_all` fills an empty cache with them. */
  function Loaded(d: Disk): map<string, SyncHistory> {
    map n | n in RawTable(d) :: FromRaw(n, RawTable(d)[n])
  }

  /** What `load_all` returns: the cache when it holds anything, otherwise the document. */
  function View(cache: map<string, SyncHistory>, d: Disk): map<string, SyncHistory> {
    if cache != map[] then cache else Loaded(d)
  }

  /** What `get_history` returns from that view: the stored history, or a fresh one. */
  function HistoryIn(view: map<string, SyncHistory>, name: string): SyncHistory {
    if name in view then view[name] else FreshHistory(name)
  }

  /** The document after `save_history(h)`: the table as read, with `h`'s record replaced. */
  function Saved(d: Disk, h: SyncHistory): Disk {
    Stored(RawTable(d)[h.name := ToRaw(h)])
  }

  /**
   * Round trip through the document: after `save_history(h)` a store that loads the document
   * again gets `h` back under its name, and every other history it could load before.
   */
  lemma SaveThenReload(d: Disk, h: SyncHistory)
    ensures h.name in Loaded(Saved(d, h)) && Loaded(Saved(d, h))[h.name] == h
    ensures forall n :: n in Loaded(d) && n != h.name ==>
      n in Loaded(Saved(d, h)) && Loaded(Saved(d, h))[n] == Loaded(d)[n]
  {
    RecordRoundTrip(h);
  }

  /** The cache entries are keyed by their own names and hold well-formed dicts. */
  ghost predicate CacheValid(cache: map<string, SyncHistory>) {
    forall n :: n in cache ==> cache[n].name == n && cache[n].files.Valid()
  }

  /** Histories loaded from a well-formed document are well-formed. */
  lemma LoadedValid(d: Disk)
    requires DiskValid(d)
    ensures CacheValid(Loaded(d))
  {
  }

  /** A list without repeated entries. */
  predicate NoDuplicates(xs: seq<string>) {
    forall i, j :: 0 <= i < j < |xs| ==> xs[i] != xs[j]
  }

  /** The exclusion list after `add_exclusion`: appended only when absent. */
  function WithExclusion(xs: seq<string>, p: string): seq<string> {
    if p in xs then xs else xs + [p]
  }

  /** Adding an exclusion makes it present, keeps the list free of repeats, and is idempotent. */
  lemma WithExclusionProperties(xs: seq<string>, p: string)
    ensures p in WithExclusion(xs, p)
    ensures forall x :: x in xs ==> x in WithExclusion(xs, p)
    ensures NoDuplicates(xs) ==> NoDuplicates(WithExclusion(xs, p))
    ensures WithExclusion(WithExclusion(xs, p), p) == WithExclusion(xs, p)
  {
  }

  /** `list.remove(p)` on a list holding `p`: its first occurrence goes. */
  function RemoveFirst(xs: seq<string>, p: string): (r: seq<string>)
    ensures p in xs ==> |r| == |xs| - 1
    ensures p !in xs ==> r == xs
    ensures forall x :: x in r ==> x in xs
  {
    if xs == [] then []
    else if xs[0] == p then xs[1..]
    else [xs[0]] + RemoveFirst(xs[1..], p)
  }

  /** A list with a head is free of repeats when its tail is and does not hold the head. */
  lemma NoDuplicatesCons(x: string, s: seq<string>)
    ensures NoDuplicates([x] + s) <==> x !in s && NoDuplicates(s)
  {
    var xs := [x] + s;
    if NoDuplicates(xs) {
      forall i, j | 0 <= i < j < |s| ensures s[i] != s[j] {
        assert s[i] == xs[i + 1] && s[j] == xs[j + 1];
      }
      forall j | 0 <= j < |s| ensures s[j] != x {
        assert s[j] == xs[j + 1] && x == xs[0];
      }
    }
    if x !in s && NoDuplicates(s) {
      forall i, j | 0 <= i < j < |xs| ensures xs[i] != xs[j] {
        assert xs[j] == s[j - 1];
        if i > 0 {
          assert xs[i] == s[i - 1];
        }
      }
    }
  }

  /** Removing an exclusion takes out exactly one copy of it. */
  lemma {:induction false} RemoveFirstMultiset(xs: seq<string>, p: string)
    ensures multiset(RemoveFirst(xs, p)) == multiset(xs) - multiset{p}
  {
    if xs != [] {
      assert xs == [xs[0]] + xs[1..];
      RemoveFirstMultiset(xs[1..], p);
    }
  }

  /** On a list without repeats, a removed exclusion is gone and no repeat appears. */
  lemma {:induction false} RemoveFirstNoDuplicates(xs: seq<string>, p: string)
    requires NoDuplicates(xs)
    ensures p !in RemoveFirst(xs, p) && NoDuplicates(RemoveFirst(xs, p))
  {
    if xs != [] {
      assert xs == [xs[0]] + xs[1..];
      NoDuplicatesCons(xs[0], xs[1..]);
      if xs[0] != p {
        RemoveFirstNoDuplicates(xs[1..], p);
        NoDuplicatesCons(xs[0], RemoveFirst(xs[1..], p));
      }
    }
  }

  /** The store: the cache, and the history document it reads and writes. */
  class SyncHistoryStore {
    var cache: map<string, SyncHistory>
    var disk: Disk

    ghost predicate Valid()
      reads this
    {
      DiskValid(disk) && CacheValid(cache)
    }

    constructor (d: Disk)
      requires DiskValid(d)
      ensures Valid() && cache == map[] && disk == d
    {
      cache := map[];
      disk := d;
    }

    /** `load_all`: a non-empty cache is returned as it is; otherwise it is filled from the document. */
    method LoadAll() returns (histories: map<string, SyncHistory>)
      requires Valid()
      modifies this
      ensures Valid() && disk == old(disk)
      ensures cache == View(old(cache), old(disk)) && histories == cache
    {
      if cache != map[] {
        return cache;
      }
      var raw := RawTable(disk);
      var names := raw.Keys;
      while names != {}
        invariant names <= raw.Keys && disk == old(disk)
        invariant cache == map n | n in raw.Keys - names :: FromRaw(n, raw[n])
        decreases names
      {
        var n :| n in names;
        cache := cache[n := FromRaw(n, raw[n])];
        names := names - {n};
      }
      LoadedValid(disk);
      histories := cache;
    }

    /** `get_history`: the known history, or a fresh one that is put into the cache (not saved). */
    method GetHistory(name: string) returns (h: SyncHistory)
      requires Valid()
      modifies this
      ensures Valid() && disk == old(disk)
      ensures h == HistoryIn(View(old(cache), old(disk)), name) && h.name == name
      ensures cache == View(old(cache), old(disk))[name := h]
    {
      var histories := LoadAll();
      if name in histories {
        return histories[name];
      }
      h := FreshHistory(name);
      cache := cache[name := h];
    }

    /** `save_history`: read the whole table, replace this modpack's record, write it back. */
    method SaveHistory(h: SyncHistory)
      requires Valid() && h.files.Valid()
      modifies this
      ensures Valid()
      ensures disk == Saved(old(disk), h)
      ensures cache == old(cache)[h.name := h]
    {
      var raw := RawTable(disk);
      raw := raw[h.name := ToRaw(h)];
      disk := Stored(raw);
      cache := cache[h.name := h];
    }

    /** `append_log`: stamp the history with `now` (for `time.time()`) and save it. */
    method AppendLog(name: string, now: real)
      requires Valid()
      modifies this
      ensures Valid()
      ensures var h := HistoryIn(View(old(cache), old(disk)), name).(lastSynced := Some(now));
        disk == Saved(old(disk), h) && cache == View(old(cache), old(disk))[name := h]
    {
      var h := GetHistory(name);
      h := h.(lastSynced := Some(now));
      SaveHistory(h);
    }

    /** `update_file_snapshot`: the snapshot becomes the recorded files, stamped with `now`, and is saved. */
    method UpdateFileSnapshot(name: string, snapshot: Dict<FileRecord>, now: real)
      requires Valid() && snapshot.Valid()
      modifies this
      ensures Valid()
      ensures var h := HistoryIn(View(old(cache), old(disk)), name).(files := snapshot, lastSynced := Some(now));
        disk == Saved(old(disk), h) && cache == View(old(cache), old(disk))[name := h]
    {
      var h := GetHistory(name);
      h := h.(files := snapshot, lastSynced := Some(now));
      SaveHistory(h);
    }

    /** `add_exclusion`: append and save only when the path is not excluded yet. */
    method AddExclusion(name: string, p: string)
      requires Valid()
      modifies this
      ensures Valid()
      ensures var h := HistoryIn(View(old(cache), old(disk)), name);
        var h' := h.(exclusions := WithExclusion(h.exclusions, p));
        && cache == View(old(cache), old(disk))[name := h']
        && disk == if p in h.exclusions then old(disk) else Saved(old(disk), h')
    {
      var h := GetHistory(name);
      if p !in h.exclusions {
        h := h.(exclusions := h.exclusions + [p]);
        SaveHistory(h);
      }
    }

    /** `remove_exclusion`: remove and save only when the path is excluded. */
    method RemoveExclusion(name: string, p: string)
      requires Valid()
      modifies this
      ensures Valid()
      ensures var h := HistoryIn(View(old(cache), old(disk)), name);
        var h' := h.(exclusions := RemoveFirst(h.exclusions, p));
        && cache == View(old(cache), old(disk))[name := h']
        && disk == if p in h.exclusions then Saved(old(disk), h') else old(disk)
    {
      var h := GetHistory(name);
      if p in h.exclusions {
        h := h.(exclusions := RemoveFirst(h.exclusions, p));
        SaveHistory(h);
      }
    }
  }
}
