/** `salvarLeitura` and `obterLeituras`, the store operations used by the
    relay controller and the protected data route. */
module DatabaseService {
  import opened Common
  import opened Timestamps
  import opened Readings

  /** The object `salvarLeitura` receives. */
  datatype Dados = Dados(temperatura: real, umidade: Option<real>, alerta: bool, numero: JsValue,
                         timestamp: string)

  /** The stamp `salvarLeitura` generates itself: now minus three hours, as
      ISO text, first 'T' made a space, cut to 19 characters. */
  function NowStamp(nowMs: int, isoOf: int -> string): (s: string)
    ensures |s| <= 19
  {
    StampFromIso(isoOf(ShiftToBrasilia(nowMs)))
  }

  /** The row `salvarLeitura` inserts: a falsy humidity becomes NULL, the
      alert flag becomes 1 or 0, and the caller's timestamp is not used. */
  function SavedRow(id: nat, dados: Dados, stamp: string): (r: Reading)
    ensures r.id == id && r.temperatura == dados.temperatura && r.numero == dados.numero
    ensures r.umidade.None? <==> (dados.umidade.None? || dados.umidade.value == 0.0)
    ensures r.umidade.Some? ==> r.umidade == dados.umidade
    ensures (r.alerta == 0 || r.alerta == 1) && (r.alerta == 1 <==> dados.alerta)
    ensures r.timestamp == stamp
  {
    Reading(id, dados.temperatura, FalsyToNull(dados.umidade), if dados.alerta then 1 else 0,
            dados.numero, stamp)
  }

  /** Whatever timestamp the caller puts in `dados`, the same row is stored. */
  lemma CallerTimestampIgnored(id: nat, dados: Dados, other: string, stamp: string)
    ensures SavedRow(id, dados.(timestamp := other), stamp) == SavedRow(id, dados, stamp)
  {
  }

  /** When the clock's ISO text is canonical, the stored stamp is a
      well-formed `YYYY-MM-DD HH:MM:SS` text with the shifted instant's date. */
  lemma NowStampWellFormed(nowMs: int, isoOf: int -> string)
    requires CanonicalIso(isoOf(ShiftToBrasilia(nowMs)))
    ensures StoredStamp(NowStamp(nowMs, isoOf))
    ensures |NowStamp(nowMs, isoOf)| == 19 && NowStamp(nowMs, isoOf)[10] == ' '
    ensures DateOf(NowStamp(nowMs, isoOf)) == DateOf(isoOf(ShiftToBrasilia(nowMs)))
  {
    StampFromCanonical(isoOf(ShiftToBrasilia(nowMs)));
  }

  /** `salvarLeitura(dados)`: resolves with the new row's id, or rejects
      (leaving the table as it was) when the insert fails. */
  method SalvarLeitura(table: Table, dados: Dados, nowMs: int, isoOf: int -> string, ok: bool)
    returns (r: Outcome<nat>)
    requires table.Valid()
    modifies table
    ensures table.Valid()
    ensures ok ==> (r == Resolved(old(table.lastId) + 1) && table.lastId == old(table.lastId) + 1
      && table.rows == old(table.rows) + [SavedRow(old(table.lastId) + 1, dados, NowStamp(nowMs, isoOf))])
    ensures !ok ==> (r == Rejected && table.rows == old(table.rows) && table.lastId == old(table.lastId))
  {
    var stamp := StampFromIso(isoOf(ShiftToBrasilia(nowMs)));
    r := table.Insert(dados.temperatura, FalsyToNull(dados.umidade), if dados.alerta then 1 else 0,
                      dados.numero, stamp, ok);
  }

  /** `obterLeituras`'s default limit. */
  const DefaultLimit: int := 100

  /** How many rows `LIMIT limite` keeps; SQLite reads a negative limit as
      "no limit". */
  function LimitCount(limite: int, available: nat): (n: nat)
    ensures n <= available
    ensures limite >= 0 ==> n == if limite < available then limite else available
    ensures limite < 0 ==> n == available
  {
    if limite < 0 || limite >= available then available else limite
  }

  /** In a descending sequence every row after position n is no newer than
      any row before it. */
  lemma KeptRowsAreNewest(s: seq<Reading>, n: nat)
    requires Descending(s) && n <= |s|
    ensures forall x, y :: x in s[..n] && y in s[n..] ==> LexLe(y.timestamp, x.timestamp)
  {
    forall x, y | x in s[..n] && y in s[n..] ensures LexLe(y.timestamp, x.timestamp) {
      var i :| 0 <= i < n && s[..n][i] == x;
      var j :| 0 <= j < |s| - n && s[n..][j] == y;
      assert s[i] == x && s[n + j] == y;
    }
  }

  /** `obterLeituras(limite)`: `SELECT * FROM leituras ORDER BY timestamp DESC
      LIMIT ?`. Resolves with at most `limite` rows, newest first, none of the
      rows left out newer than a row kept; rejects when the query fails. */
  function ObterLeituras(rows: seq<Reading>, limite: int, queryOk: bool): (r: Outcome<seq<Reading>>)
    ensures r.Rejected? <==> !queryOk
    ensures r.Resolved? ==> (
      && Descending(r.value)
      && multiset(r.value) <= multiset(rows)
      && |r.value| == LimitCount(limite, |rows|)
      && forall x, y :: x in r.value && y in multiset(rows) - multiset(r.value) ==>
           LexLe(y.timestamp, x.timestamp))
  {
    if !queryOk then Rejected
    else
      var sorted := SortDesc(rows);
      var n := LimitCount(limite, |sorted|);
      KeptRowsAreNewest(sorted, n);
      assert sorted == sorted[..n] + sorted[n..];
      assert multiset(rows) - multiset(sorted[..n]) == multiset(sorted[n..]);
      Resolved(sorted[..n])
  }

  /** Called with the default limit, at most 100 rows come back. */
  lemma DefaultCallIsBounded(rows: seq<Reading>)
    ensures ObterLeituras(rows, DefaultLimit, true).Resolved?
    ensures |ObterLeituras(rows, DefaultLimit, true).value| <= 100
  {
  }
}
