/** The older walk vault of `HDT_MCP/vault.py`: one module-level SQLite connection, and a
    `walk_records` table keyed by (user, date) whose rows are replaced on a second write.
    The database files are a map from path to table; the clock and the default path are
    parameters. */
module WalkVault {
  import opened Wrappers
  import opened Text
  import opened JsonValues
  import opened VaultStore

  /** A stored row: the step count, the record as written, and the insert time. */
  datatype Stored = Stored(steps: int, raw: Json, insertedAt: int)

  type WalkTable = map<(int, string), Stored>

  /** `db_path or _default_db_path()` */
  function Resolved(dbPath: Option<string>, defaultPath: string): string {
    if dbPath.Some? && dbPath.value != [] then dbPath.value else defaultPath
  }

  /** One record of `upsert_walk_records`: `r.get` on a non-dict raises, a falsy date is
      skipped, and a step count `int()` rejects raises. */
  function WriteOf(user: int, r: Json, now: int): Result<Option<((int, string), Stored)>, string> {
    if !r.JObj? then Failure("AttributeError")
    else
      var dt := GetOr(r, "date", JNull);
      if !Truthy(dt) then Success(None)
      else
        match CoerceInt(OrElse(GetOr(r, "steps", JNull), JInt(0)))
        case None => Failure("ValueError")
        case Some(steps) => Success(Some(((user, PyStr(dt)), Stored(steps, r, now))))
  }

  /** The writes a batch makes before it stops, and the error that stops it, if any. Each
      record is written as it is met, so the writes before a raise stay on the connection. */
  datatype Batch = Batch(writes: seq<((int, string), Stored)>, error: Option<string>)

  function BatchOf(user: int, rs: seq<Json>, now: int): Batch
    decreases |rs|
  {
    if rs == [] then Batch([], None)
    else
      var b := BatchOf(user, rs[..|rs| - 1], now);
      if b.error.Some? then b
      else
        match WriteOf(user, rs[|rs| - 1], now)
        case Failure(e) => Batch(b.writes, Some(e))
        case Success(None) => b
        case Success(Some(w)) => Batch(b.writes + [w], None)
  }

  /** Without an error every record with a truthy date is written once, keyed by the user
      and the text of its date, in order. */
  lemma {:induction false} BatchWrites(user: int, rs: seq<Json>, now: int)
    ensures var b := BatchOf(user, rs, now);
      |b.writes| <= |rs| &&
      forall i :: 0 <= i < |b.writes| ==>
        b.writes[i].0.0 == user && b.writes[i].1.insertedAt == now &&
        b.writes[i].1.raw.JObj? && Truthy(GetOr(b.writes[i].1.raw, "date", JNull)) &&
        b.writes[i].0.1 == PyStr(GetOr(b.writes[i].1.raw, "date", JNull))
    ensures BatchOf(user, rs, now).error.None? ==>
      forall r :: r in rs && r.JObj? && Truthy(GetOr(r, "date", JNull)) ==>
        exists i :: 0 <= i < |BatchOf(user, rs, now).writes| && BatchOf(user, rs, now).writes[i].1.raw == r
    decreases |rs|
  {
    if rs != [] {
      var init := rs[..|rs| - 1];
      BatchWrites(user, init, now);
      var b := BatchOf(user, init, now);
      if b.error.None? && BatchOf(user, rs, now).error.None? {
        forall r | r in rs && r.JObj? && Truthy(GetOr(r, "date", JNull))
          ensures exists i :: 0 <= i < |BatchOf(user, rs, now).writes| && BatchOf(user, rs, now).writes[i].1.raw == r
        {
          if r in init {
            var i :| 0 <= i < |b.writes| && b.writes[i].1.raw == r;
            assert BatchOf(user, rs, now).writes[i] == b.writes[i];
          } else {
            assert r == rs[|rs| - 1];
            var w := BatchOf(user, rs, now).writes;
            assert w[|w| - 1].1.raw == r;
          }
        }
      }
    }
  }

  /** A batch names the same rows, in the same order and with the same contents, whenever
      it is written; only the insert time differs. */
  lemma {:induction false} BatchAtAnyTime(user: int, rs: seq<Json>, now: int, later: int)
    ensures var b, c := BatchOf(user, rs, now), BatchOf(user, rs, later);
      b.error == c.error && |b.writes| == |c.writes| &&
      forall i :: 0 <= i < |b.writes| ==>
        b.writes[i].0 == c.writes[i].0 && b.writes[i].1.raw == c.writes[i].1.raw &&
        b.writes[i].1.steps == c.writes[i].1.steps && c.writes[i].1.insertedAt == later
    decreases |rs|
  {
    if rs != [] {
      BatchAtAnyTime(user, rs[..|rs| - 1], now, later);
      BatchWrites(user, rs, later);
    }
  }

  lemma {:induction false} LastAtSameKeys<K, V>(a: seq<(K, V)>, b: seq<(K, V)>, k: K)
    requires |a| == |b| && forall i :: 0 <= i < |a| ==> a[i].0 == b[i].0
    ensures LastAt(a, k) == LastAt(b, k)
    decreases |a|
  {
    if a != [] {
      LastAtSameKeys(a[..|a| - 1], b[..|b| - 1], k);
    }
  }

  /** `upsert_walk_records` is an idempotent write-through: writing the same records again,
      at any later time, leaves the table as that one later write would, so the earlier
      write leaves one row per (user, date) and no trace of its own. */
  lemma RewriteLeavesOneRow(t: WalkTable, user: int, rs: seq<Json>, now: int, later: int)
    ensures var first, second := BatchOf(user, rs, now).writes, BatchOf(user, rs, later).writes;
      Upserted(Upserted(t, first), second) == Upserted(t, second)
  {
    var first, second := BatchOf(user, rs, now).writes, BatchOf(user, rs, later).writes;
    BatchAtAnyTime(user, rs, now, later);
    var once := Upserted(t, first);
    var twice := Upserted(once, second);
    var direct := Upserted(t, second);
    forall k
      ensures (k in twice <==> k in direct) && (k in twice ==> twice[k] == direct[k])
    {
      LastAtSameKeys(first, second, k);
      UpsertedAt(t, first, k);
      UpsertedAt(once, second, k);
      UpsertedAt(t, second, k);
    }
  }

  /** The user's dates, newest first (`ORDER BY date DESC`); dates are unique per user. */
  function DatesDesc(t: WalkTable, user: int): (ds: seq<string>)
    ensures forall d :: d in ds <==> (user, d) in t
    ensures forall i, j :: 0 <= i < j < |ds| ==> StrLe(ds[j], ds[i]) && ds[i] != ds[j]
  {
    var asc := SortedSet(set k | k in t && k.0 == user :: k.1);
    var ds := seq(|asc|, i requires 0 <= i < |asc| => asc[|asc| - 1 - i]);
    DescMembers(t, user, asc, ds);
    ds
  }

  lemma DescMembers(t: WalkTable, user: int, asc: seq<string>, ds: seq<string>)
    requires forall x :: x in asc <==> x in set k | k in t && k.0 == user :: k.1
    requires |ds| == |asc| && forall i :: 0 <= i < |ds| ==> ds[i] == asc[|asc| - 1 - i]
    ensures forall d :: d in ds <==> (user, d) in t
  {
    forall d ensures d in ds <==> (user, d) in t {
      if (user, d) in t {
        var k := (user, d);
        assert k.1 == d;
        assert d in asc;
        var i :| 0 <= i < |asc| && asc[i] == d;
        assert ds[|asc| - 1 - i] == d;
      }
      if d in ds {
        var i :| 0 <= i < |ds| && ds[i] == d;
        assert asc[|asc| - 1 - i] == d;
        assert d in asc;
        assert d in set k | k in t && k.0 == user :: k.1;
        var k :| k in t && k.0 == user && k.1 == d;
        assert k == (user, d);
      }
    }
  }

  function RawsOf(t: WalkTable, user: int, ds: seq<string>): (r: seq<Json>)
    requires forall d :: d in ds ==> (user, d) in t
    ensures |r| == |ds| && forall i :: 0 <= i < |ds| ==> r[i] == t[(user, ds[i])].raw
  {
    seq(|ds|, i requires 0 <= i < |ds| => t[(user, ds[i])].raw)
  }

  /** SQLite's `LIMIT n`: a negative `n` sets no limit. */
  function Limited<T>(s: seq<T>, n: int): (r: seq<T>)
    ensures n >= 0 ==> |r| <= n
    ensures |r| <= |s| && r == s[..|r|]
    ensures n < 0 || n >= |s| ==> r == s
  {
    if n < 0 || n >= |s| then s else s[..n]
  }

  /** The module state: the database files by path, and the path of the open connection,
      whose database always exists. */
  class Vault {
    /** The committed tables, one per database file. */
    var files: map<string, WalkTable>
    var conn: Option<string>
    /** The open file's table as the connection sees it: the committed rows plus the rows
        of an upsert that raised before its commit. */
    var view: WalkTable

    ghost predicate Valid()
      reads this
    {
      conn.Some? ==> conn.value in files
    }

    /** Nothing is pending on the open connection: it sees the committed table. */
    ghost predicate Committed()
      requires Valid()
      reads this
    {
      conn.Some? ==> view == files[conn.value]
    }

    constructor (disk: map<string, WalkTable>)
      ensures Valid() && files == disk && conn == None && view == map[]
    {
      files := disk;
      conn := None;
      view := map[];
    }

    /** `init(db_path)`: the same path is a no-op (rows still pending stay visible);
        otherwise the old connection is closed, dropping what it had not committed, and a
        connection opens on the resolved path, whose table is created if missing. */
    method Init(dbPath: Option<string>, defaultPath: string)
      requires Valid()
      modifies this
      ensures Valid()
      ensures var p := Resolved(dbPath, defaultPath);
        (old(conn) == Some(p) ==> conn == old(conn) && files == old(files) && view == old(view)) &&
        (old(conn) != Some(p) ==>
          conn == Some(p) && files == (if p in old(files) then old(files) else old(files)[p := map[]]) &&
          view == files[p] && Committed())
    {
      var p := Resolved(dbPath, defaultPath);
      if conn == Some(p) {
        return;
      }
      conn := None;
      view := map[];
      if p !in files {
        files := files[p := map[]];
      }
      conn := Some(p);
      view := files[p];
    }

    /** `close()`: rows not yet committed are lost with the connection. */
    method Close()
      requires Valid()
      modifies this
      ensures Valid() && conn == None && files == old(files) && view == map[]
    {
      conn := None;
      view := map[];
    }

    /** `upsert_walk_records(user_id, records)` at time `now` (and `write_walk`, which only
        delegates): without a connection nothing happens and 0 is returned; otherwise each
        record is written on the connection as it is met, and only a batch that did not raise
        is committed, together with whatever an earlier raising batch had left pending. The
        answer is the number written, or the error of the record that raised. */
    method UpsertWalkRecords(user: int, records: seq<Json>, now: int) returns (r: Result<int, string>)
      requires Valid()
      modifies this
      ensures Valid() && conn == old(conn)
      ensures old(conn).None? ==> r == Success(0) && files == old(files) && view == old(view)
      ensures old(conn).Some? ==>
        var p := old(conn).value;
        var b := BatchOf(user, records, now);
        view == Upserted(old(view), b.writes) &&
        files == (if b.error.Some? then old(files) else old(files)[p := view]) &&
        r == if b.error.Some? then Failure(b.error.value) else Success(|b.writes|)
      ensures old(conn).Some? && r.Success? ==> Committed()
    {
      if conn.None? {
        return Success(0);
      }
      var p := conn.value;
      var n := 0;
      var i := 0;
      ghost var writes: seq<((int, string), Stored)> := [];
      while i < |records|
        invariant 0 <= i <= |records| && conn == old(conn) && Valid()
        invariant BatchOf(user, records[..i], now) == Batch(writes, None)
        invariant n == |writes|
        invariant files == old(files)
        invariant view == Upserted(old(view), writes)
      {
        assert records[..i + 1][..i] == records[..i];
        assert records[..i + 1][i] == records[i];
        var w := WriteOf(user, records[i], now);
        if w.Failure? {
          BatchStops(user, records, now, i + 1);
          return Failure(w.error);
        }
        if w.value.Some? {
          var kv := w.value.value;
          view := view[kv.0 := kv.1];
          writes := writes + [kv];
          n := n + 1;
        }
        i := i + 1;
      }
      assert records[..i] == records;
      files := files[p := view];
      r := Success(n);
    }

    /** `read_walk_records(user_id)`: the user's records as the connection sees them, newest
        date first; none without a connection. */
    function ReadWalkRecords(user: int): (r: seq<Json>)
      requires Valid()
      reads this
      ensures conn.None? ==> r == []
      ensures conn.Some? ==> var ds := DatesDesc(view, user);
        |r| == |ds| && forall i :: 0 <= i < |ds| ==> r[i] == view[(user, ds[i])].raw
    {
      if conn.None? then [] else RawsOf(view, user, DatesDesc(view, user))
    }

    /** `read_walk_latest(user_id, limit)`: the first `limit` of the newest-first records (all
        of them for a negative limit). */
    function ReadWalkLatest(user: int, limit: int): (r: seq<Json>)
      requires Valid()
      reads this
      ensures limit >= 0 ==> |r| <= limit
      ensures |r| <= |ReadWalkRecords(user)| && r == ReadWalkRecords(user)[..|r|]
      ensures limit < 0 || limit >= |ReadWalkRecords(user)| ==> r == ReadWalkRecords(user)
    {
      Limited(ReadWalkRecords(user), limit)
    }
  }

  /** A table holding one row of the user lists exactly that row's date, and reads back as
      that row's record. */
  lemma OneRowOneDate(user: int, d: string, row: Stored)
    ensures DatesDesc(map[(user, d) := row], user) == [d]
    ensures RawsOf(map[(user, d) := row], user, [d]) == [row.raw]
  {
    var t := map[(user, d) := row];
    var ds := DatesDesc(t, user);
    assert d in ds;
  }

  /** A dated record with five steps, and one whose step count `int()` rejects. */
  const GoodDay := JObj([("date", JStr("2025-01-01")), ("steps", JInt(5))])
  const BadDay := JObj([("date", JStr("2025-01-02")), ("steps", JStr("x"))])

  /** A batch whose second record has an unreadable step count: the first record is written
      on the connection, then the batch raises before its commit. */
  lemma RaisingBatch(user: int, now: int)
    ensures var b := BatchOf(user, [GoodDay, BadDay], now);
      b.error == Some("ValueError") && |b.writes| == 1 && b.writes[0].1.raw == GoodDay &&
      Upserted(map[], b.writes) == map[(user, "2025-01-01") := Stored(5, GoodDay, now)]
  {
    assert GetOr(GoodDay, "date", JNull) == JStr("2025-01-01");
    assert GetOr(GoodDay, "steps", JNull) == JInt(5);
    var w := ((user, PyStr(JStr("2025-01-01"))), Stored(5, GoodDay, now));
    assert WriteOf(user, GoodDay, now) == Success(Some(w));
    assert [GoodDay][..0] == [];
    assert BatchOf(user, [GoodDay], now) == Batch([w], None);
    assert GetOr(BadDay, "date", JNull) == JStr("2025-01-02");
    assert GetOr(BadDay, "steps", JNull) == JStr("x");
    assert ParseInt("x").None?;
    assert WriteOf(user, BadDay, now) == Failure("ValueError");
    assert [GoodDay, BadDay][..1] == [GoodDay];
    assert [w][..0] == [];
  }

  /** Upserting that batch, closing the vault and opening the same file again: the row the
      raising batch wrote was seen on the first connection but never committed, so the
      reopened file holds no record for the user. */
  method UncommittedRowsLost(path: string, user: int, now: int) returns (first: Result<int, string>, before: seq<Json>, after: seq<Json>)
    requires path != []
    ensures first == Failure("ValueError")
    ensures before == [GoodDay]
    ensures after == []
  {
    var v := new Vault(map[]);
    v.Init(Some(path), path);
    RaisingBatch(user, now);
    first := v.UpsertWalkRecords(user, [GoodDay, BadDay], now);
    OneRowOneDate(user, "2025-01-01", Stored(5, GoodDay, now));
    before := v.ReadWalkRecords(user);
    v.Close();
    v.Init(Some(path), path);
    after := v.ReadWalkRecords(user);
  }

  /** Once a prefix of the batch has raised, the batch stops there. */
  lemma {:induction false} BatchStops(user: int, rs: seq<Json>, now: int, j: nat)
    requires 0 < j <= |rs| && BatchOf(user, rs[..j], now).error.Some?
    ensures BatchOf(user, rs, now) == BatchOf(user, rs[..j], now)
    decreases |rs|
  {
    if j == |rs| {
      assert rs[..j] == rs;
    } else {
      var init := rs[..|rs| - 1];
      assert init[..j] == rs[..j];
      BatchStops(user, init, now, j);
    }
  }

  /** Writing one record again replaces its row rather than adding one: the table holds the
      same single row for its (user, date). */
  lemma SameRecordTwice(t: WalkTable, user: int, rec: Json, now: int)
    requires rec.JObj? && Truthy(GetOr(rec, "date", JNull))
    requires CoerceInt(OrElse(GetOr(rec, "steps", JNull), JInt(0))).Some?
    ensures var b := BatchOf(user, [rec], now);
      b.error.None? && |b.writes| == 1 &&
      Upserted(Upserted(t, b.writes), b.writes) == Upserted(t, b.writes) &&
      Upserted(t, b.writes)[(user, PyStr(GetOr(rec, "date", JNull)))].raw == rec
  {
    var b := BatchOf(user, [rec], now);
    assert [rec][..0] == [];
    RewriteLeavesOneRow(t, user, [rec], now, now);
  }
}
