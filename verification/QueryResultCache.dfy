/** The persistent second-level cache (`core/caching/query_result_cache.py`): the
    `query_cache` table as a map from cache key to row. */
module ResultCache {
  import opened Wrappers

  /** The hash of statement and parameters stands for the pair itself. */
  datatype Key = Key(sql: string, params: seq<string>)

  /** A result row is its JSON text. */
  type Row = string

  type Rows = seq<Row>

  const DEFAULT_TTL_SECONDS := 3600

  datatype CachedRow = CachedRow(querySql: string, data: Rows, createdAt: int, expiresAt: Option<int>, userId: string,
                                  accessCount: nat, lastAccessedAt: Option<int>)

  /** The table's rows. */
  type Table2 = map<Key, CachedRow>

  /** SQLite's `text LIKE '%pattern%'`, given as a function of pattern and text. */
  type Like = (string, string) -> bool

  function Fetch(rows: Table2, k: Key, now: int): Option<Rows> {
    if k in rows && (rows[k].expiresAt.None? || rows[k].expiresAt.value > now) then Some(rows[k].data) else None
  }

  function Store(rows: Table2, k: Key, data: Rows, userId: string, ttl: int, now: int): Table2 {
    rows[k := CachedRow(k.sql, data, now, if ttl > 0 then Some(now + ttl) else None, userId, 0, None)]
  }

  function Touch(rows: Table2, k: Key, now: int): Table2 {
    if k in rows then rows[k := rows[k].(accessCount := rows[k].accessCount + 1, lastAccessedAt := Some(now))] else rows
  }

  predicate Matches(like: Like, row: CachedRow, pattern: string, userId: string) {
    && (pattern != "" ==> like(pattern, row.querySql))
    && (userId != "" ==> row.userId == userId)
  }

  /** Deleting by pattern or user; with neither, nothing is deleted. */
  function Purge(rows: Table2, like: Like, pattern: string, userId: string): Table2 {
    if pattern == "" && userId == "" then rows
    else map k | k in rows && !Matches(like, rows[k], pattern, userId) :: rows[k]
  }

  /** What is stored is fetched back until its time to live is over, or for ever without
      one; other keys, and accesses, make no difference. */
  lemma StoredIsFetched(rows: Table2, k: Key, data: Rows, userId: string, ttl: int, now: int, j: Key, later: int)
    ensures Fetch(Touch(Store(rows, k, data, userId, ttl, now), j, later), k, later) == if ttl <= 0 || later < now + ttl then Some(data) else None
    ensures j != k ==> Fetch(Store(rows, k, data, userId, ttl, now), j, later) == Fetch(rows, j, later)
  {
  }

  /** Deleting by pattern or user leaves exactly the rows that fail one of the filters
      given, as they were; with no filter all of them. */
  lemma PurgedExactly(rows: Table2, like: Like, pattern: string, userId: string, k: Key)
    ensures k in Purge(rows, like, pattern, userId) <==>
              k in rows && ((pattern == "" && userId == "") || (pattern != "" && !like(pattern, rows[k].querySql)) || (userId != "" && rows[k].userId != userId))
    ensures k in Purge(rows, like, pattern, userId) ==> Purge(rows, like, pattern, userId)[k] == rows[k]
  {
  }

  /** What a user stored is the user's, and is about that statement. */
  lemma StoredIsOwned(rows: Table2, k: Key, data: Rows, userId: string, ttl: int, now: int, like: Like)
    ensures userId != "" ==> k !in Purge(Store(rows, k, data, userId, ttl, now), like, "", userId)
    ensures forall other :: other != "" && other != userId ==> k in Purge(Store(rows, k, data, userId, ttl, now), like, "", other)
    ensures forall pattern :: pattern != "" ==> (k in Purge(Store(rows, k, data, userId, ttl, now), like, pattern, "") <==> !like(pattern, k.sql))
  {
  }

  class QueryResultCache {
    const like: Like
    var rows: Table2

    constructor (like: Like)
      ensures rows == map[] && this.like == like
    {
      this.like := like;
      rows := map[];
    }

    method GetCachedResult(k: Key, now: int) returns (r: Option<Rows>)
      ensures r == Fetch(rows, k, now)
    {
      if k in rows {
        var row := rows[k];
        if row.expiresAt.None? || row.expiresAt.value > now {
          return Some(row.data);
        }
      }
      return None;
    }

    method RecordAccess(k: Key, now: int)
      modifies this
      ensures rows == Touch(old(rows), k, now)
    {
      if k in rows {
        var row := rows[k];
        rows := rows[k := row.(accessCount := row.accessCount + 1, lastAccessedAt := Some(now))];
      }
    }

    method CacheResult(k: Key, data: Rows, userId: string, ttl: int, now: int)
      modifies this
      ensures rows == Store(old(rows), k, data, userId, ttl, now)
    {
      var expiresAt := if ttl > 0 then Some(now + ttl) else None;
      rows := rows[k := CachedRow(k.sql, data, now, expiresAt, userId, 0, None)];
    }

    method ClearAll() returns (deleted: nat)
      modifies this
      ensures rows == map[] && deleted == |old(rows)|
    {
      deleted := |rows|;
      rows := map[];
    }

    method InvalidateCache(pattern: string, userId: string) returns (deleted: nat)
      modifies this
      ensures rows == Purge(old(rows), like, pattern, userId)
      ensures deleted == |old(rows)| - |rows|
    {
      if pattern == "" && userId == "" {
        return 0;
      }
      var kept := Purge(rows, like, pattern, userId);
      KeysShrink(kept.Keys, rows.Keys);
      deleted := |rows| - |kept|;
      rows := kept;
    }
  }

  lemma KeysShrink(a: set<Key>, b: set<Key>)
    requires a <= b
    ensures |a| <= |b|
  {
    assert b == a + (b - a);
  }
}
