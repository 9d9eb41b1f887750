/** Counting the commits that touch a path's current incarnation, on a linear history. */
module Progress {
  import opened Prelude

  /*
   A path is a name, not a directory: deleted and recreated, it is a different directory, and only commits
   from its most recent birth on belong to the one there is now.
   */

  /** A commit carries the whole tree: what object each existing path names. */
  datatype Commit = Commit(hash: string, date: int, tree: map<string, string>)

  /** Oldest first; the last one is HEAD. */
  type History = seq<Commit>

  function ObjectAt(h: History, k: int, path: string): Option<string> {
    if 0 <= k < |h| && path in h[k].tree then Some(h[k].tree[path]) else None
  }

  /** `git log -- path` lists exactly these. */
  predicate Touches(h: History, k: int, path: string) { ObjectAt(h, k, path) != ObjectAt(h, k - 1, path) }

  /** The commit that brought the path into existence, the root commit included. */
  predicate Born(h: History, k: int, path: string) { ObjectAt(h, k, path).Some? && ObjectAt(h, k - 1, path).None? }

  predicate HashesDistinct(h: History) { forall i, j | 0 <= i < j < |h| :: h[i].hash != h[j].hash }

  /** What is to be counted: in the window, touching the path, and not of an earlier incarnation. */
  predicate Counted(h: History, since: int, path: string, k: int) {
    0 <= k < |h| && Touches(h, k, path) && h[k].date >= since && forall b | k < b < |h| :: !Born(h, b, path)
  }

  /* ---- git, as far as it is used ---- */

  /** `git log --reverse --format=%H -- path`. */
  function LogReverse(h: History, n: nat, path: string): (r: seq<nat>)
    requires n <= |h|
    ensures forall k | k in r :: k < n && Touches(h, k, path)
    ensures forall k: nat | k < n && Touches(h, k, path) :: k in r
    ensures forall i | 0 <= i < |r| :: r[i] < n
    ensures forall i, j | 0 <= i < j < |r| :: r[i] < r[j]
  {
    if n == 0 then [] else LogReverse(h, n - 1, path) + if Touches(h, n - 1, path) then [n - 1] else []
  }

  predicate Listed(h: History, since: int, after: int, path: string, k: nat) {
    after < k < |h| && Touches(h, k, path) && h[k].date >= since
  }

  /** `git log --since=... boundary..HEAD -- path`, newest first. */
  function Log(h: History, since: int, after: int, n: nat, path: string): (r: seq<nat>)
    requires n <= |h|
    ensures forall k: nat :: k in r <==> k < n && Listed(h, since, after, path, k)
  {
    if n == 0 then []
    else
      var older := Log(h, since, after, n - 1, path);
      if Listed(h, since, after, path, n - 1) then [n - 1] + older else older
  }

  /** `git rev-parse commit^`. */
  function Parent(k: nat): Option<nat> { if k == 0 then None else Some(k - 1) }

  /* ---- the counter ---- */

  method ExistsAtParent(h: History, k: nat, path: string) returns (r: bool)
    requires k < |h|
    ensures r <==> ObjectAt(h, k - 1, path).Some?
  {
    var parent := Parent(k);
    if parent.None? { return false; }
    return path in h[parent.value].tree;
  }

  /** Some boundary exactly when the most recent birth has a parent, and then that parent. */
  method PathRebirth(h: History, path: string) returns (boundary: Option<nat>)
    ensures boundary.Some? ==> boundary.value + 1 < |h| && Born(h, boundary.value + 1, path)
    ensures forall b | 0 <= b < |h| && Born(h, b, path) :: b <= (if boundary.Some? then boundary.value + 1 else 0)
  {
    var log := LogReverse(h, |h|, path);
    if log == [] {
      forall b | 0 <= b < |h| ensures !Born(h, b, path) { assert Touches(h, b, path) ==> b in log; }
      return None;
    }
    var lastBirth: Option<nat> := None;
    for i := 0 to |log|
      invariant lastBirth.Some? ==> lastBirth.value < |h| && Born(h, lastBirth.value, path)
      invariant forall j | 0 <= j < i && Born(h, log[j], path) :: lastBirth.Some? && log[j] <= lastBirth.value
    {
      assert log[i] in log;
      var existed := ExistsAtParent(h, log[i], path);
      if !existed {
        assert Born(h, log[i], path);
        lastBirth := Some(log[i]);
      }
    }
    forall b | 0 <= b < |h| && Born(h, b, path) ensures lastBirth.Some? && b <= lastBirth.value {
      assert Touches(h, b, path);
      var j :| 0 <= j < |log| && log[j] == b;
      assert Born(h, log[j], path);
    }
    if lastBirth.None? { return None; }
    return Parent(lastBirth.value);
  }

  /** After the boundary is exactly from the most recent birth on. */
  lemma BoundaryIsExact(h: History, since: int, path: string, boundary: Option<nat>, k: nat)
    requires boundary.Some? ==> boundary.value + 1 < |h| && Born(h, boundary.value + 1, path)
    requires forall b | 0 <= b < |h| && Born(h, b, path) :: b <= (if boundary.Some? then boundary.value + 1 else 0)
    requires k < |h| && Touches(h, k, path) && h[k].date >= since
    ensures Counted(h, since, path, k) <==> boundary.None? || boundary.value < k
  {
  }

  /** From the most recent birth on is exactly after the boundary, whichever commit the path was born in. */
  method CommitsForPath(h: History, since: int, path: string) returns (r: seq<string>)
    ensures forall k | 0 <= k < |h| && Counted(h, since, path, k) :: h[k].hash in r
    ensures forall x | x in r :: exists k | 0 <= k < |h| :: Counted(h, since, path, k) && h[k].hash == x
  {
    var boundary := PathRebirth(h, path);
    var after := if boundary.Some? then boundary.value as int else -1;
    var log := Log(h, since, after, |h|, path);
    forall k: nat ensures k in log <==> Counted(h, since, path, k) {
      if k < |h| && Touches(h, k, path) && h[k].date >= since { BoundaryIsExact(h, since, path, boundary, k); }
    }
    assert forall i | 0 <= i < |log| :: log[i] in log;
    r := seq(|log|, i requires 0 <= i < |log| => h[log[i]].hash);
    forall k | 0 <= k < |h| && Counted(h, since, path, k) ensures h[k].hash in r {
      var i :| 0 <= i < |log| && log[i] == k;
      assert r[i] == h[k].hash;
    }
    forall x | x in r ensures exists k | 0 <= k < |h| :: Counted(h, since, path, k) && h[k].hash == x {
      var i :| 0 <= i < |r| && r[i] == x;
      assert log[i] in log && Counted(h, since, path, log[i]);
    }
  }

  /** The commits counted for some path. */
  predicate CountedForSome(h: History, since: int, paths: seq<string>, k: nat) { exists p | p in paths :: Counted(h, since, p, k) }

  function CountedForAny(h: History, since: int, paths: seq<string>): set<nat> {
    set k: nat | k < |h| && CountedForSome(h, since, paths, k)
  }

  /** The size of the union: a commit touching several of the paths is one commit. */
  method CountAt(h: History, since: int, paths: seq<string>) returns (r: nat)
    requires HashesDistinct(h)
    ensures r == |CountedForAny(h, since, paths)|
  {
    var seen: set<string> := {};
    for i := 0 to |paths|
      invariant seen == HashesOf(h, CountedForAny(h, since, paths[..i]))
    {
      var hashes := CommitsForPath(h, since, paths[i]);
      ghost var before := seen;
      for j := 0 to |hashes|
        invariant seen == before + set x | x in hashes[..j]
      {
        assert hashes[..j + 1] == hashes[..j] + [hashes[j]];
        seen := seen + {hashes[j]};
      }
      assert hashes[..|hashes|] == hashes;
      OnePathMore(h, since, paths, i, hashes);
    }
    assert paths[..|paths|] == paths;
    DistinctHashesCount(h, CountedForAny(h, since, paths));
    r := |seen|;
  }

  function HashesOf(h: History, ks: set<nat>): set<string> {
    set k | k in ks && k < |h| :: h[k].hash
  }

  lemma OnePathMore(h: History, since: int, paths: seq<string>, i: nat, hashes: seq<string>)
    requires i < |paths|
    requires forall k | 0 <= k < |h| && Counted(h, since, paths[i], k) :: h[k].hash in hashes
    requires forall x | x in hashes :: exists k | 0 <= k < |h| :: Counted(h, since, paths[i], k) && h[k].hash == x
    ensures HashesOf(h, CountedForAny(h, since, paths[..i + 1])) == HashesOf(h, CountedForAny(h, since, paths[..i])) + set x | x in hashes
  {
  }

  lemma {:induction false} DistinctHashesCount(h: History, ks: set<nat>)
    requires HashesDistinct(h) && forall k | k in ks :: k < |h|
    ensures |HashesOf(h, ks)| == |ks|
  {
    if ks != {} {
      var k :| k in ks;
      DistinctHashesCount(h, ks - {k});
      assert h[k].hash !in HashesOf(h, ks - {k});
      assert HashesOf(h, ks) == HashesOf(h, ks - {k}) + {h[k].hash};
    } else {
      assert HashesOf(h, ks) == {};
    }
  }

  lemma {:induction false} StillThere(h: History, path: string, k: nat, later: nat)
    requires k <= later < |h| && ObjectAt(h, later, path).Some? && forall b | k < b < |h| :: !Born(h, b, path)
    ensures forall m | k <= m <= later :: ObjectAt(h, m, path).Some?
  {
    if k < later {
      assert !Born(h, later, path);
      StillThere(h, path, k, later - 1);
    }
  }

  /** The path has existed without a break from commit `k` to HEAD: `k` is of the incarnation there is now. */
  predicate OfThisIncarnation(h: History, path: string, k: nat) { forall m | k <= m < |h| :: path in h[m].tree }

  /** Commit `k` brought the path in, or left another object under it than the commit before. */
  predicate Changes(h: History, k: nat, path: string) {
    k < |h| && path in h[k].tree && (k > 0 && path in h[k - 1].tree ==> h[k].tree[path] != h[k - 1].tree[path])
  }

  /**
   For a path that exists now, what is counted is exactly what touched the incarnation there is now, its
   birth included: nothing of an earlier incarnation gets in and nothing of this one is left out.
   */
  lemma OnlyThisIncarnationCounts(h: History, since: int, path: string, k: nat)
    requires k < |h| && ObjectAt(h, |h| - 1, path).Some?
    ensures Counted(h, since, path, k) <==> Changes(h, k, path) && h[k].date >= since && OfThisIncarnation(h, path, k)
  {
    if path in h[k].tree { assert Touches(h, k, path) <==> Changes(h, k, path); }
    if Counted(h, since, path, k) {
      StillThere(h, path, k, |h| - 1);
      forall m | k <= m < |h| ensures path in h[m].tree { assert ObjectAt(h, m, path).Some?; }
    }
    if OfThisIncarnation(h, path, k) {
      forall b | k < b < |h| ensures !Born(h, b, path) { assert path in h[b - 1].tree; }
    }
  }

  /**
   For a path that is gone since commit `gone`, what is counted is the removal and what touched the
   incarnation it ended; nothing later and nothing of an earlier one.
   */
  lemma RemovalClosesTheCount(h: History, since: int, path: string, k: nat, gone: nat)
    requires k < |h| && 0 < gone < |h| && path in h[gone - 1].tree && forall m | gone <= m < |h| :: path !in h[m].tree
    ensures Counted(h, since, path, k) <==>
      h[k].date >= since && (k == gone || (k < gone && Changes(h, k, path) && forall m | k <= m < gone :: path in h[m].tree))
  {
    if path in h[k].tree { assert Touches(h, k, path) <==> Changes(h, k, path); }
    if k < gone && Counted(h, since, path, k) {
      StillThere(h, path, k, gone - 1);
      forall m | k <= m < gone ensures path in h[m].tree { assert ObjectAt(h, m, path).Some?; }
    }
    if k < gone && Changes(h, k, path) && forall m | k <= m < gone :: path in h[m].tree {
      forall b | k < b < |h| ensures !Born(h, b, path) { assert b < gone ==> path in h[b - 1].tree; }
    }
  }
}
