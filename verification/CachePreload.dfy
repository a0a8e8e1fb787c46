/**
 * The preload of the cache index from its database (src/ota_proxy/cache_index.py): which rows are kept,
 * and what a restart brings back.
 */
module CachePreload {
  import opened CacheIndex

  /** A row is worth keeping if its file is there; an empty file has none. */
  predicate Usable(row: Meta, files: set<Key>) { row.cacheSize == 0 || row.key in files }

  function UsableIn(rows: seq<Meta>, files: set<Key>): nat {
    if rows == [] then 0
    else UsableIn(rows[..|rows| - 1], files) + if Usable(rows[|rows| - 1], files) then 1 else 0
  }

  predicate DistinctRows(rows: seq<Meta>) {
    forall i, j | 0 <= i < j < |rows| :: rows[i].key != rows[j].key
  }

  /** The rows of a database, in some order. */
  ghost predicate RowsOf(rows: seq<Meta>, db: map<Key, Meta>) {
    && DistinctRows(rows)
    && (forall i | 0 <= i < |rows| :: rows[i].key in db && db[rows[i].key] == rows[i])
    && (forall k | k in db :: db[k] in rows && db[k].key == k)
  }

  /** Row i stays: its file is there, and fewer than `max` usable rows come before it. */
  predicate Stays(rows: seq<Meta>, files: set<Key>, max: nat, i: nat)
    requires i < |rows|
  {
    Usable(rows[i], files) && UsableIn(rows[..i], files) < max
  }

  function KeysOf(rows: seq<Meta>): set<Key> { set row | row in rows :: row.key }

  function KeySet(keys: seq<Key>): set<Key> { set k | k in keys }

  ghost predicate RowSplit(rows: seq<Meta>, files: set<Key>, max: nat, i: nat, res: map<Key, Entry>)
    requires i < |rows|
  {
    if Stays(rows, files, max, i) then rows[i].key in res && res[rows[i].key] == Build(rows[i]) else rows[i].key !in res
  }

  ghost predicate EachSplit(rows: seq<Meta>, files: set<Key>, max: nat, res: map<Key, Entry>) {
    forall i | 0 <= i < |rows| :: RowSplit(rows, files, max, i, res)
  }

  ghost predicate Parted(kept: set<Key>, toRemove: set<Key>, all: set<Key>) {
    kept + toRemove == all && kept !! toRemove
  }

  predicate Counted(rows: seq<Meta>, files: set<Key>, max: nat, count: nat) {
    count == if UsableIn(rows, files) < max then UsableIn(rows, files) else max
  }

  /** The rows are split into those kept in the index and those to be removed. */
  ghost predicate SplitInto(rows: seq<Meta>, files: set<Key>, max: nat, res: map<Key, Entry>, toRemove: seq<Key>) {
    && Parted(res.Keys, KeySet(toRemove), KeysOf(rows))
    && EachSplit(rows, files, max, res)
    && Counted(rows, files, max, |res|)
  }

  lemma {:induction false} NewKey(rows: seq<Meta>, row: Meta)
    requires DistinctRows(rows + [row])
    ensures row.key !in KeysOf(rows) && KeysOf(rows + [row]) == KeysOf(rows) + {row.key}
  {
    var all, n := rows + [row], |rows|;
    forall r | r in rows ensures r.key != row.key {
      var j :| 0 <= j < n && rows[j] == r;
      assert all[j] == r && all[n] == row;
    }
    forall k ensures k in KeysOf(all) <==> k in KeysOf(rows) + {row.key} {
      if k in KeysOf(rows) {
        var r :| r in rows && r.key == k;
        assert r in all;
      }
      assert all[n] == row;
    }
  }

  lemma {:induction false} CountOneMore(rows: seq<Meta>, row: Meta, files: set<Key>, max: nat, count: nat)
    requires Counted(rows, files, max, count)
    ensures Counted(rows + [row], files, max, if Usable(row, files) && count < max then count + 1 else count)
  {
    assert (rows + [row])[..|rows|] == rows;
  }

  lemma {:induction false} EachOneMore(rows: seq<Meta>, row: Meta, files: set<Key>, max: nat, res: map<Key, Entry>)
    requires EachSplit(rows, files, max, res) && Counted(rows, files, max, |res|)
    requires row.key !in KeysOf(rows) && row.key !in res
    ensures EachSplit(rows + [row], files, max,
                      if Usable(row, files) && |res| < max then res[row.key := Build(row)] else res)
  {
    var all, n := rows + [row], |rows|;
    assert all[..n] == rows && all[n] == row;
    var res' := if Usable(row, files) && |res| < max then res[row.key := Build(row)] else res;
    forall i | 0 <= i < |all| ensures RowSplit(all, files, max, i, res') {
      if i < n {
        assert all[i] == rows[i] && all[..i] == rows[..i];
        assert rows[i].key in KeysOf(rows);
        assert RowSplit(rows, files, max, i, res);
      }
    }
  }

  lemma {:induction false} KeepOne(
      rows: seq<Meta>, row: Meta, files: set<Key>, max: nat, res: map<Key, Entry>, toRemove: seq<Key>)
    requires SplitInto(rows, files, max, res, toRemove) && DistinctRows(rows + [row])
    requires Usable(row, files) && |res| < max
    ensures SplitInto(rows + [row], files, max, res[row.key := Build(row)], toRemove)
  {
    NewKey(rows, row);
    assert row.key !in res.Keys;
    CountOneMore(rows, row, files, max, |res|);
    EachOneMore(rows, row, files, max, res);
    AddOne(res, row.key, Build(row));
    PartOneMore(res.Keys, KeySet(toRemove), KeysOf(rows), row.key);
  }

  lemma {:induction false} DropOne(
      rows: seq<Meta>, row: Meta, files: set<Key>, max: nat, res: map<Key, Entry>, toRemove: seq<Key>)
    requires SplitInto(rows, files, max, res, toRemove) && DistinctRows(rows + [row])
    requires !(Usable(row, files) && |res| < max)
    ensures SplitInto(rows + [row], files, max, res, toRemove + [row.key])
  {
    NewKey(rows, row);
    assert row.key !in res.Keys;
    CountOneMore(rows, row, files, max, |res|);
    EachOneMore(rows, row, files, max, res);
    KeySetAppend(toRemove, row.key);
    PartOneMore(res.Keys, KeySet(toRemove), KeysOf(rows), row.key);
  }

  lemma {:induction false} KeySetAppend(keys: seq<Key>, k: Key)
    ensures KeySet(keys + [k]) == KeySet(keys) + {k}
  {}

  lemma {:induction false} PrefixDistinct(rows: seq<Meta>, n: nat)
    requires DistinctRows(rows) && n < |rows|
    ensures rows[..n + 1] == rows[..n] + [rows[n]] && DistinctRows(rows[..n] + [rows[n]])
  {
    assert rows[..n + 1] == rows[..n] + [rows[n]];
  }

  lemma {:induction false} PartOneMore(kept: set<Key>, toRemove: set<Key>, all: set<Key>, k: Key)
    requires Parted(kept, toRemove, all) && k !in all
    ensures Parted(kept + {k}, toRemove, all + {k}) && Parted(kept, toRemove + {k}, all + {k})
  {
    assert k !in kept && k !in toRemove;
  }

  lemma {:induction false} AddOne(res: map<Key, Entry>, k: Key, e: Entry)
    requires k !in res
    ensures res[k := e].Keys == res.Keys + {k} && |res[k := e]| == |res| + 1
  {
    assert |res[k := e].Keys| == |res.Keys| + 1;
  }

  /** The loop of _preload_from_db over the rows, most recently used first. */
  method PreloadFromDb(rows: seq<Meta>, files: set<Key>, max: nat) returns (res: map<Key, Entry>, toRemove: seq<Key>)
    requires DistinctRows(rows)
    ensures SplitInto(rows, files, max, res, toRemove)
    ensures |res| <= max
  {
    res, toRemove := map[], [];
    var count := 0;
    NothingSplit(files, max);
    assert rows[..0] == [];
    for n := 0 to |rows|
      invariant count == |res| && SplitInto(rows[..n], files, max, res, toRemove)
    {
      var row := rows[n];
      PrefixDistinct(rows, n);
      if count < max && Usable(row, files) {
        KeepOne(rows[..n], row, files, max, res, toRemove);
        res := res[row.key := Build(row)];
        count := |res|;
      } else {
        DropOne(rows[..n], row, files, max, res, toRemove);
        toRemove := toRemove + [row.key];
      }
    }
    assert rows[..|rows|] == rows;
  }

  lemma {:induction false} NothingSplit(files: set<Key>, max: nat)
    ensures SplitInto([], files, max, map[], [])
  {}

  /** _preload_cleanup_cache_db_entries: the rows go in batches of `size`. */
  method CleanupDb(db: map<Key, Meta>, exceed: seq<Key>, size: nat) returns (left: map<Key, Meta>)
    requires size > 0
    ensures left == Removed(db, exceed)
  {
    left := db;
    var done := 0;
    while done < |exceed|
      invariant 0 <= done <= |exceed|
      invariant left == Removed(db, exceed[..done])
    {
      var upto := if done + size <= |exceed| then done + size else |exceed|;
      left := Removed(left, exceed[done..upto]);
      assert exceed[..upto] == exceed[..done] + exceed[done..upto];
      done := upto;
    }
    assert exceed[..done] == exceed;
  }

  /** After a preload the database and the index have the same keys and say the same. */
  lemma {:induction false} PreloadMirrors(
      rows: seq<Meta>, db: map<Key, Meta>, files: set<Key>, max: nat, res: map<Key, Entry>, toRemove: seq<Key>)
    requires RowsOf(rows, db) && SplitInto(rows, files, max, res, toRemove)
    ensures Mirrors(res, Removed(db, toRemove))
  {
    var left := Removed(db, toRemove);
    forall k ensures k in res <==> k in left {
      if k in res {
        assert k in KeysOf(rows);
        var r :| r in rows && r.key == k;
        assert k !in KeySet(toRemove);
      }
      if k in left {
        assert db[k] in rows && db[k].key == k;
        assert k in KeysOf(rows) && k !in KeySet(toRemove);
      }
    }
    forall k | k in left ensures res[k] == Build(left[k]) {
      var i :| 0 <= i < |rows| && rows[i] == db[k];
      assert RowSplit(rows, files, max, i, res);
    }
  }

  /** What the preload keeps is, among the usable rows, the most recently used. */
  lemma {:induction false} PreloadKeepsTheRecent(rows: seq<Meta>, files: set<Key>, max: nat, i: nat, j: nat)
    requires i < |rows| && j < |rows| && Stays(rows, files, max, i) && !Stays(rows, files, max, j)
    requires Usable(rows[j], files)
    requires forall a, b | 0 <= a < b < |rows| :: rows[a].lastAccess >= rows[b].lastAccess
    ensures rows[i].lastAccess >= rows[j].lastAccess
  {
    if j < i {
      UsableGrows(rows, files, j, i);
    }
  }

  lemma {:induction false} UsableGrows(rows: seq<Meta>, files: set<Key>, i: nat, j: nat)
    requires i <= j <= |rows|
    ensures UsableIn(rows[..i], files) <= UsableIn(rows[..j], files)
    decreases j
  {
    if i < j {
      assert rows[..j][..j - 1] == rows[..j - 1];
      UsableGrows(rows, files, i, j - 1);
    }
  }

  /**
   * A session that ends drained, then a restart: every entry that comes back was in the index, just
   * so; a removed one stays removed.
   */
  lemma {:induction false} RemovedStaysRemoved(
      run: seq<State>, actions: seq<Action>, rows: seq<Meta>, files: set<Key>, max: nat,
      res: map<Key, Entry>, toRemove: seq<Key>)
    requires IsRun(run, actions) && NoOverlap(run, actions) && Drained(run[|actions|])
    requires RowsOf(rows, run[|actions|].db) && SplitInto(rows, files, max, res, toRemove)
    ensures forall k | k in res :: k in run[|actions|].index && res[k] == run[|actions|].index[k]
  {
    DrainedIsSubmap(run, actions, |actions|);
    PreloadMirrors(rows, run[|actions|].db, files, max, res, toRemove);
  }
}
