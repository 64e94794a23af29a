/** The `leituras` table: one row per stored reading, an auto-incremented id,
    and the orderings and filters the queries use. SQL text, connections and
    callbacks are not modelled; each statement is one step on an in-memory
    sequence of rows. */
module Readings {
  import opened Common
  import opened Timestamps

  /** One row of `leituras`. `alerta` is the stored 1/0; `umidade` None is
      SQL NULL; `numero` is kept as the request sent it. */
  datatype Reading = Reading(
    id: nat,
    temperatura: real,
    umidade: Option<real>,
    alerta: int,
    numero: JsValue,
    timestamp: string)

  /** Row ids grow strictly with position. */
  ghost predicate IdsIncreasing(rows: seq<Reading>)
  {
    forall i, j :: 0 <= i < j < |rows| ==> rows[i].id < rows[j].id
  }

  /** The table, with the AUTOINCREMENT counter (the largest id handed out). */
  class Table {
    var rows: seq<Reading>
    var lastId: nat

    ghost predicate Valid()
      reads this
    {
      IdsIncreasing(rows) && forall i :: 0 <= i < |rows| ==> rows[i].id <= lastId
    }

    constructor()
      ensures Valid() && rows == [] && lastId == 0
    {
      rows := [];
      lastId := 0;
    }

    /** `INSERT INTO leituras ... VALUES (...)`. `ok` says whether the engine
        accepted the statement. On success the row gets id `lastId + 1` (the
        statement's `lastID`) and is appended; on failure nothing changes. */
    method Insert(temperatura: real, umidade: Option<real>, alerta: int, numero: JsValue,
                  timestamp: string, ok: bool) returns (r: Outcome<nat>)
      requires Valid()
      modifies this
      ensures Valid()
      ensures ok ==> (r == Resolved(old(lastId) + 1) && lastId == old(lastId) + 1
        && rows == old(rows) + [Reading(old(lastId) + 1, temperatura, umidade, alerta, numero, timestamp)])
      ensures !ok ==> r == Rejected && rows == old(rows) && lastId == old(lastId)
    {
      if !ok {
        return Rejected;
      }
      lastId := lastId + 1;
      rows := rows + [Reading(lastId, temperatura, umidade, alerta, numero, timestamp)];
      r := Resolved(lastId);
    }

    /** `SELECT * FROM leituras WHERE id = ?`. */
    function Lookup(id: nat): (r: Option<Reading>)
      reads this
      ensures r.Some? ==> r.value in rows && r.value.id == id
      ensures r.None? ==> forall x :: x in rows ==> x.id != id
    {
      FindId(rows, id)
    }
  }

  function FindId(rows: seq<Reading>, id: nat): (r: Option<Reading>)
    ensures r.Some? ==> r.value in rows && r.value.id == id
    ensures r.None? ==> forall x :: x in rows ==> x.id != id
  {
    if |rows| == 0 then None
    else if rows[|rows| - 1].id == id then Some(rows[|rows| - 1])
    else FindId(rows[..|rows| - 1], id)
  }

  /** In a table whose ids increase, looking up the id of a stored row finds
      that row. */
  lemma {:induction false} FindIdFinds(rows: seq<Reading>, row: Reading)
    requires IdsIncreasing(rows) && row in rows
    ensures FindId(rows, row.id) == Some(row)
  {
    var last := |rows| - 1;
    if rows[last] != row {
      var k :| 0 <= k < |rows| && rows[k] == row;
      assert k < last && rows[k].id < rows[last].id;
      assert rows[..last][k] == row;
      FindIdFinds(rows[..last], row);
    }
  }

  /** Timestamps in non-increasing order (ORDER BY timestamp DESC). */
  ghost predicate Descending(s: seq<Reading>)
  {
    forall i, j :: 0 <= i < j < |s| ==> LexLe(s[j].timestamp, s[i].timestamp)
  }

  /** Timestamps in non-decreasing order. */
  ghost predicate Ascending(s: seq<Reading>)
  {
    forall i, j :: 0 <= i < j < |s| ==> LexLe(s[i].timestamp, s[j].timestamp)
  }

  /** A row no older than every row of a descending sequence can go in front. */
  lemma DescendingCons(h: Reading, s: seq<Reading>)
    requires Descending(s)
    requires forall j :: 0 <= j < |s| ==> LexLe(s[j].timestamp, h.timestamp)
    ensures Descending([h] + s)
  {
    forall i, j | 0 <= i < j < |[h] + s|
      ensures LexLe(([h] + s)[j].timestamp, ([h] + s)[i].timestamp)
    {
      if i > 0 { assert ([h] + s)[i] == s[i - 1]; }
      assert ([h] + s)[j] == s[j - 1];
    }
  }

  /** A row strictly newer than the head of a descending sequence is newer
      than all of it. */
  lemma {:induction false} AboveAll(x: Reading, s: seq<Reading>)
    requires Descending(s) && |s| > 0 && !LexLe(x.timestamp, s[0].timestamp)
    ensures forall j :: 0 <= j < |s| ==> LexLe(s[j].timestamp, x.timestamp)
  {
    LexLeTotal(x.timestamp, s[0].timestamp);
    forall j | 0 <= j < |s| ensures LexLe(s[j].timestamp, x.timestamp) {
      if j > 0 { LexLeTransitive(s[j].timestamp, s[0].timestamp, x.timestamp); }
    }
  }

  /** The head of a descending sequence bounds any mix of its tail and a
      row not newer than the head. */
  lemma BelowHead(s: seq<Reading>, x: Reading, rest: seq<Reading>)
    requires Descending(s) && |s| > 0 && LexLe(x.timestamp, s[0].timestamp)
    requires forall y :: y in rest ==> y == x || y in s[1..]
    ensures forall j :: 0 <= j < |rest| ==> LexLe(rest[j].timestamp, s[0].timestamp)
  {
    forall j | 0 <= j < |rest| ensures LexLe(rest[j].timestamp, s[0].timestamp) {
      var y := rest[j];
      assert y in rest;
      if y != x {
        var k :| 0 <= k < |s[1..]| && s[1..][k] == y;
        assert s[k + 1] == y;
      }
    }
  }

  /** Place `x` in a descending sequence after every row whose timestamp is
      not below its own, so rows with equal timestamps keep table order. */
  function InsertDesc(x: Reading, s: seq<Reading>): (r: seq<Reading>)
    requires Descending(s)
    ensures forall y :: y in r <==> y == x || y in s
    ensures multiset(r) == multiset(s) + multiset{x}
    ensures Descending(r)
  {
    if |s| == 0 then [x]
    else if !LexLe(x.timestamp, s[0].timestamp) then
      AboveAll(x, s);
      DescendingCons(x, s);
      [x] + s
    else
      assert Descending(s[1..]);
      var rest := InsertDesc(x, s[1..]);
      BelowHead(s, x, rest);
      DescendingCons(s[0], rest);
      assert s == [s[0]] + s[1..];
      [s[0]] + rest
  }

  /** The engine's ORDER BY timestamp DESC. SQLite leaves the order of equal
      timestamps open; this is the stable choice. */
  function SortDesc(rows: seq<Reading>): (r: seq<Reading>)
    ensures multiset(r) == multiset(rows)
    ensures Descending(r)
  {
    if |rows| == 0 then []
    else
      assert rows == rows[..|rows| - 1] + [rows[|rows| - 1]];
      InsertDesc(rows[|rows| - 1], SortDesc(rows[..|rows| - 1]))
  }

  /** `rows.reverse()`. */
  function Reverse(s: seq<Reading>): (r: seq<Reading>)
    ensures |r| == |s|
    ensures forall i :: 0 <= i < |s| ==> r[i] == s[|s| - 1 - i]
  {
    if |s| == 0 then [] else [s[|s| - 1]] + Reverse(s[..|s| - 1])
  }

  /** Reversing keeps every row, as often as it occurs. */
  lemma {:induction false} ReverseMultiset(s: seq<Reading>)
    ensures multiset(Reverse(s)) == multiset(s)
  {
    if |s| > 0 {
      var init, last := s[..|s| - 1], s[|s| - 1];
      ReverseMultiset(init);
      assert Reverse(s) == [last] + Reverse(init);
      assert s == init + [last];
    }
  }

  /** Reversing a descending sequence gives an ascending one. */
  lemma ReverseDescending(s: seq<Reading>)
    requires Descending(s)
    ensures Ascending(Reverse(s))
  {
  }

  /** `DATE(timestamp) = DATE(d)` for a `YYYY-MM-DD` argument: the date prefix. */
  predicate OnDate(r: Reading, d: string)
  {
    |r.timestamp| >= 10 && r.timestamp[..10] == d
  }

  /** `WHERE DATE(timestamp) = DATE(d)`, keeping the table order. */
  function FilterDate(rows: seq<Reading>, d: string): (r: seq<Reading>)
    ensures forall x :: x in r ==> x in rows && OnDate(x, d)
    ensures forall x :: x in rows && OnDate(x, d) ==> x in r
    ensures multiset(r) <= multiset(rows)
  {
    if |rows| == 0 then []
    else
      var rest := FilterDate(rows[1..], d);
      assert rows == [rows[0]] + rows[1..];
      if OnDate(rows[0], d) then [rows[0]] + rest else rest
  }

  /** The filter keeps every row of the date exactly as often as it is
      stored, and no other row. */
  lemma {:induction false} FilterDateCounts(rows: seq<Reading>, d: string)
    ensures forall x :: multiset(FilterDate(rows, d))[x] == if OnDate(x, d) then multiset(rows)[x] else 0
    decreases |rows|
  {
    if |rows| > 0 {
      FilterDateCounts(rows[1..], d);
      assert rows == [rows[0]] + rows[1..];
      assert multiset(rows) == multiset{rows[0]} + multiset(rows[1..]);
    }
  }
}
