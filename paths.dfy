/**
 * Path strings, the pure part of app/utils/filesystem.py.
 *
 * Paths are plain strings with '/' as separator. `Join` is the `/` operator of `pathlib`,
 * `Basename` is `Path.name`, `Ancestors` the directories `mkdir(parents=True)` creates,
 * and `Under(d, p)` says that `p` lies strictly beneath directory `d`.
 */
module Paths {

  /** `normalize_relative`: every backslash becomes a forward slash, nothing else changes. */
  function NormalizeRelative(s: string): (r: string)
    ensures |r| == |s|
    ensures '\\' !in r
    ensures forall i :: 0 <= i < |s| && s[i] != '\\' ==> r[i] == s[i]
    ensures forall i :: 0 <= i < |s| && s[i] == '\\' ==> r[i] == '/'
  {
    if s == [] then []
    else [if s[0] == '\\' then '/' else s[0]] + NormalizeRelative(s[1..])
  }

  /** Normalizing twice is normalizing once. */
  lemma NormalizeRelativeIdempotent(s: string)
    ensures NormalizeRelative(NormalizeRelative(s)) == NormalizeRelative(s)
  {
    var r := NormalizeRelative(s);
    var rr := NormalizeRelative(r);
    assert |rr| == |r|;
    forall i | 0 <= i < |r| ensures rr[i] == r[i] {
      assert r[i] != '\\';
    }
  }

  /** A string without backslashes is already normalized. */
  lemma NormalizeRelativeFixed(s: string)
    requires '\\' !in s
    ensures NormalizeRelative(s) == s
  {
    var r := NormalizeRelative(s);
    forall i | 0 <= i < |s| ensures r[i] == s[i] {
      assert s[i] != '\\';
    }
  }

  /** `base / rel` for a relative `rel`. */
  function Join(base: string, rel: string): string {
    base + "/" + rel
  }

  /** `Path.name`: the text after the last separator. */
  function Basename(p: string): (r: string)
    ensures '/' !in r
    ensures |r| <= |p| && r == p[|p| - |r|..]
    ensures |r| == |p| || p[|p| - |r| - 1] == '/'
  {
    if p == [] then []
    else if p[|p| - 1] == '/' then []
    else Basename(p[..|p| - 1]) + [p[|p| - 1]]
  }

  /** The proper prefixes of `p` that end just before a separator: its ancestor directories. */
  function Ancestors(p: string): set<string> {
    set i | 0 < i < |p| && p[i] == '/' :: p[..i]
  }

  /** `p` lies strictly beneath the directory `d`. */
  predicate Under(d: string, p: string) {
    |d| < |p| && p[..|d|] == d && p[|d|] == '/'
  }

  /** Lying beneath is transitive: what lies beneath a subdirectory lies beneath its parent. */
  lemma UnderTransitive(a: string, b: string, c: string)
    requires Under(a, b) && Under(b, c)
    ensures Under(a, c)
  {
    assert c[..|b|][..|a|] == c[..|a|];
    assert c[|a|] == c[..|b|][|a|];
  }
}
