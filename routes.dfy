/** The public routes: POST /leitura (the device endpoint) and
    GET /sensor-data (history for the dashboard). Each request is one atomic
    step; whether the engine accepts a statement is an input. */
module Routes {
  import opened Common
  import opened Alert
  import opened Timestamps
  import opened Readings
  import opened Messages
  import opened App

  // ---------------------------------------------------------------- POST /leitura

  /** `req.body` of POST /leitura. `umidade` is absent or a number. */
  datatype LeituraBody = LeituraBody(temperatura: JsValue, umidade: Option<real>, numero: JsValue)

  /** `typeof temperatura === 'number' && numero` is truthy. */
  predicate LeituraValid(b: LeituraBody)
  {
    IsNumber(b.temperatura) && Truthy(b.numero)
  }

  /** The row the INSERT writes: humidity `umidade || null`, alert 1/0, and
      the timestamp the column default produces (`stamp`). */
  function LeituraRow(id: nat, b: LeituraBody, stamp: string): (r: Reading)
    requires LeituraValid(b)
  {
    Reading(id, b.temperatura.n, FalsyToNull(b.umidade),
            if LeituraAlert(b.temperatura.n, b.umidade) then 1 else 0, b.numero, stamp)
  }

  function LeituraMessage(alerta: bool): string
  {
    if alerta then "ALERTA ATIVADO" else "Leitura normal"
  }

  /** The re-read callback: `SELECT *, strftime(...) AS formattedTime ...
      WHERE id = lastID`, then the ATUALIZAR_DASHBOARD broadcast and the 201
      answer; or 500 when the query fails. */
  function RereadOutcome(row: Reading, alerta: bool, rereadOk: bool): Handled
  {
    if !rereadOk then Handled(Reply(500, ErroBanco), [])
    else
      var ft := FormattedTime(row.timestamp);
      Handled(Reply(201, LeituraCriada(alerta, LeituraMessage(alerta), ft)),
              [Broadcast(AtualizarDashboard(RowUpdate(row, ft, ft)))])
  }

  /** What POST /leitura does, given whether the INSERT and the re-read
      succeed, the id the INSERT would get, and the column default's stamp. */
  function LeituraOutcome(b: LeituraBody, insertOk: bool, rereadOk: bool, newId: nat,
                          stamp: string): Handled
  {
    if !LeituraValid(b) then Handled(Reply(400, DadosInvalidos), [])
    else InsertOutcome(b, insertOk, rereadOk, newId, stamp)
  }

  /** What POST /leitura does once the body passed validation: the INSERT,
      then the re-read; or 500 when the INSERT fails. */
  function InsertOutcome(b: LeituraBody, insertOk: bool, rereadOk: bool, newId: nat,
                         stamp: string): Handled
    requires LeituraValid(b)
  {
    if !insertOk then Handled(Reply(500, ErroBanco), [])
    else
      var row := LeituraRow(newId, b, stamp);
      var rest := RereadOutcome(row, LeituraAlert(b.temperatura.n, b.umidade), rereadOk);
      Handled(rest.reply, [Inserted(row)] + rest.effects)
  }

  /** The three answers of POST /leitura and when each is given; a 400 has no
      side effect, and no error answer comes with a broadcast. */
  lemma LeituraStatus(b: LeituraBody, insertOk: bool, rereadOk: bool, newId: nat, stamp: string)
    ensures var h := LeituraOutcome(b, insertOk, rereadOk, newId, stamp);
      && (h.reply.status == 400 <==> !LeituraValid(b))
      && (h.reply.status == 201 <==> LeituraValid(b) && insertOk && rereadOk)
      && (h.reply.status == 500 <==> LeituraValid(b) && !(insertOk && rereadOk))
      && (h.reply.status == 400 ==> h.effects == [] && h.reply.body == DadosInvalidos)
      && (h.reply.status != 201 ==> BroadcastEvents(h.effects) == [])
      && (h.reply.status == 500 ==> h.reply.body == ErroBanco)
  {
  }

  /** The stored row: id is the new lastID, humidity is NULL exactly when the
      request's humidity is absent or zero, and the alert is stored as 1/0
      following the 26/20 degree, 80/20 % rule. */
  lemma LeituraStoredRow(b: LeituraBody, insertOk: bool, rereadOk: bool, newId: nat, stamp: string)
    requires LeituraValid(b) && insertOk
    ensures var rows := InsertedRows(LeituraOutcome(b, insertOk, rereadOk, newId, stamp).effects);
      && |rows| == 1 && rows[0].id == newId && rows[0].timestamp == stamp
      && rows[0].temperatura == b.temperatura.n && rows[0].numero == b.numero
      && (rows[0].umidade.None? <==> b.umidade.None? || b.umidade.value == 0.0)
      && (rows[0].alerta == 1 <==> LeituraAlert(b.temperatura.n, b.umidade))
      && (rows[0].alerta == 0 || rows[0].alerta == 1)
  {
    var h := LeituraOutcome(b, insertOk, rereadOk, newId, stamp);
    var row := LeituraRow(newId, b, stamp);
    if rereadOk {
      assert h.effects == [Inserted(row)] + [Broadcast(h.effects[1].event)];
    } else {
      assert h.effects == [Inserted(row)] + [];
    }
  }

  /** A 201 comes after exactly one insert and one ATUALIZAR_DASHBOARD
      broadcast, in that order; the broadcast carries the inserted row (id =
      lastID) with `localTime` equal to `formattedTime`, and the message is
      'ALERTA ATIVADO' exactly when the alert holds. */
  lemma LeituraSuccess(b: LeituraBody, newId: nat, stamp: string)
    requires LeituraValid(b)
    ensures var h := LeituraOutcome(b, true, true, newId, stamp);
      && |h.effects| == 2
      && h.effects[0].Inserted? && h.effects[0].row.id == newId
      && h.effects[1].Broadcast? && h.effects[1].event.AtualizarDashboard?
      && var u := h.effects[1].event.update;
         && u.RowUpdate? && u.row == h.effects[0].row && u.localTime == u.formattedTime
         && h.reply.body.LeituraCriada?
         && h.reply.body.alerta == LeituraAlert(b.temperatura.n, b.umidade)
         && (h.reply.body.message == "ALERTA ATIVADO" <==> h.reply.body.alerta)
         && (!h.reply.body.alerta ==> h.reply.body.message == "Leitura normal")
         && h.reply.body.timestamp == u.formattedTime
  {
    assert "ALERTA ATIVADO" != "Leitura normal";
  }

  /** POST /leitura never broadcasts an ALERTA event, whatever happens. */
  lemma LeituraNeverRaisesAlerta(b: LeituraBody, insertOk: bool, rereadOk: bool,
                                 newId: nat, stamp: string)
    ensures var events := BroadcastEvents(LeituraOutcome(b, insertOk, rereadOk, newId, stamp).effects);
      forall e :: e in events ==> e.AtualizarDashboard?
  {
  }

  /** A humidity of 0 triggers the device rule (0 < 20) but is stored as
      NULL, and the rule applied to the stored row does not fire: the stored
      flag cannot be recomputed from the stored values. */
  lemma ZeroHumidityFlagNotRecomputable(newId: nat, stamp: string)
    ensures var b := LeituraBody(Num(23.0), Some(0.0), Str("X"));
      && LeituraValid(b)
      && LeituraRow(newId, b, stamp).alerta == 1
      && LeituraRow(newId, b, stamp).umidade == None
      && !LeituraAlert(LeituraRow(newId, b, stamp).temperatura, LeituraRow(newId, b, stamp).umidade)
  {
  }

  /** Two concrete readings: 27.5 degrees with
      no humidity raises the alert and stores NULL humidity; 23 degrees at
      70 % does not. */
  lemma LeituraScenarios(newId: nat, stamp: string)
    ensures var h := LeituraOutcome(LeituraBody(Num(27.5), None, Str("X")), true, true, newId, stamp);
      h.reply.status == 201 && h.reply.body.alerta && h.reply.body.message == "ALERTA ATIVADO"
      && h.effects[0].row.umidade == None && h.effects[0].row.alerta == 1
    ensures var h := LeituraOutcome(LeituraBody(Num(23.0), Some(70.0), Str("X")), true, true, newId, stamp);
      h.reply.status == 201 && !h.reply.body.alerta && h.reply.body.message == "Leitura normal"
  {
  }

  /** The POST /leitura handler acting on the server: INSERT, then the
      re-read callback. */
  method PostLeitura(srv: Server, b: LeituraBody, insertOk: bool, rereadOk: bool, stamp: string)
    returns (reply: Reply)
    requires srv.Valid()
    modifies srv, srv.table, srv.hub
    ensures srv.Valid()
    ensures var h := LeituraOutcome(b, insertOk, rereadOk, old(srv.table.lastId) + 1, stamp);
      && reply == h.reply
      && srv.trace == old(srv.trace) + h.effects
      && srv.table.rows == old(srv.table.rows) + InsertedRows(h.effects)
      && srv.table.lastId == old(srv.table.lastId) + |InsertedRows(h.effects)|
      && Delivered(old(srv.hub.outbox), srv.hub.outbox, srv.hub.clients, srv.hub.readyState,
                   BroadcastEvents(h.effects))
    ensures srv.hub.clients == old(srv.hub.clients) && srv.hub.readyState == old(srv.hub.readyState)
  {
    if !LeituraValid(b) {
      DeliveredNothing(srv.hub.outbox, srv.hub.clients, srv.hub.readyState);
      return Reply(400, DadosInvalidos);
    }
    reply := InsertLeitura(srv, b, insertOk, rereadOk, stamp);
  }

  /** The INSERT of a validated reading, then the re-read callback. */
  method InsertLeitura(srv: Server, b: LeituraBody, insertOk: bool, rereadOk: bool, stamp: string)
    returns (reply: Reply)
    requires srv.Valid() && LeituraValid(b)
    modifies srv, srv.table, srv.hub
    ensures srv.Valid()
    ensures var h := InsertOutcome(b, insertOk, rereadOk, old(srv.table.lastId) + 1, stamp);
      && reply == h.reply
      && srv.trace == old(srv.trace) + h.effects
      && srv.table.rows == old(srv.table.rows) + InsertedRows(h.effects)
      && srv.table.lastId == old(srv.table.lastId) + |InsertedRows(h.effects)|
      && Delivered(old(srv.hub.outbox), srv.hub.outbox, srv.hub.clients, srv.hub.readyState,
                   BroadcastEvents(h.effects))
    ensures srv.hub.clients == old(srv.hub.clients) && srv.hub.readyState == old(srv.hub.readyState)
  {
    DeliveredNothing(srv.hub.outbox, srv.hub.clients, srv.hub.readyState);
    var alerta := LeituraAlert(b.temperatura.n, b.umidade);
    var r := srv.table.Insert(b.temperatura.n, FalsyToNull(b.umidade), if alerta then 1 else 0,
                              b.numero, stamp, insertOk);
    if r.Rejected? {
      return Reply(500, ErroBanco);
    }
    var row := LeituraRow(r.value, b, stamp);
    srv.trace := srv.trace + [Inserted(row)];
    ghost var rest := RereadOutcome(row, alerta, rereadOk);
    InsertThenReread(b, rereadOk, r.value, stamp);
    reply := Reread(srv, row, alerta, rereadOk);
    assert srv.trace == old(srv.trace) + ([Inserted(row)] + rest.effects);
  }

  /** After a successful INSERT the effects are the insert followed by the
      re-read's, and the new row is the only insert. */
  lemma {:induction false} InsertThenReread(b: LeituraBody, rereadOk: bool, newId: nat, stamp: string)
    requires LeituraValid(b)
    ensures var row := LeituraRow(newId, b, stamp);
      var rest := RereadOutcome(row, LeituraAlert(b.temperatura.n, b.umidade), rereadOk);
      var h := InsertOutcome(b, true, rereadOk, newId, stamp);
      && h == Handled(rest.reply, [Inserted(row)] + rest.effects)
      && InsertedRows(h.effects) == [row]
      && BroadcastEvents(h.effects) == BroadcastEvents(rest.effects)
  {
    var row := LeituraRow(newId, b, stamp);
    var rest := RereadOutcome(row, LeituraAlert(b.temperatura.n, b.umidade), rereadOk);
    InsertedRowsAppend([Inserted(row)], rest.effects);
    BroadcastEventsAppend([Inserted(row)], rest.effects);
    SingleEffect(Inserted(row));
    if rereadOk {
      assert rest.effects == [rest.effects[0]];
      SingleEffect(rest.effects[0]);
    }
  }

  /** The re-read callback acting on the server: `SELECT ... WHERE id =
      lastID` finds `row`, which the INSERT just stored. */
  method Reread(srv: Server, row: Reading, alerta: bool, rereadOk: bool) returns (reply: Reply)
    requires srv.Valid() && row in srv.table.rows
    modifies srv, srv.hub
    ensures var h := RereadOutcome(row, alerta, rereadOk);
      && reply == h.reply
      && srv.trace == old(srv.trace) + h.effects
      && Delivered(old(srv.hub.outbox), srv.hub.outbox, srv.hub.clients, srv.hub.readyState,
                   BroadcastEvents(h.effects))
    ensures srv.hub.clients == old(srv.hub.clients) && srv.hub.readyState == old(srv.hub.readyState)
  {
    if !rereadOk {
      DeliveredNothing(srv.hub.outbox, srv.hub.clients, srv.hub.readyState);
      return Reply(500, ErroBanco);
    }
    FindIdFinds(srv.table.rows, row);
    var found := srv.table.Lookup(row.id);
    var ft := FormattedTime(found.value.timestamp);
    var update := AtualizarDashboard(RowUpdate(found.value, ft, ft));
    srv.BroadcastData(update);
    reply := Reply(201, LeituraCriada(alerta, LeituraMessage(alerta), ft));
    SingleEffect(Broadcast(update));
  }

  // ---------------------------------------------------------------- GET /sensor-data

  /** A row of the GET /sensor-data answer: the selected columns plus
      `strftime('%Y-%m-%d %H:%M:%S', timestamp) AS formattedTime`. */
  datatype SensorRow = SensorRow(id: nat, temperatura: real, umidade: Option<real>, alerta: int,
                                 numero: JsValue, formattedTime: Option<string>)

  /** The WHERE clause is added only for a truthy `date`. */
  function SelectByDate(rows: seq<Reading>, date: Option<string>): (r: seq<Reading>)
    ensures date.None? || date.value == "" ==> r == rows
  {
    if date.Some? && date.value != "" then FilterDate(rows, date.value) else rows
  }

  /** ORDER BY timestamp DESC, then `rows.reverse()`: oldest first. */
  function SensorDataRows(rows: seq<Reading>, date: Option<string>): (r: seq<Reading>)
    ensures Ascending(r)
    ensures multiset(r) == multiset(SelectByDate(rows, date))
  {
    var sorted := SortDesc(SelectByDate(rows, date));
    ReverseDescending(sorted);
    ReverseMultiset(sorted);
    Reverse(sorted)
  }

  function ToSensorRow(r: Reading): SensorRow
  {
    SensorRow(r.id, r.temperatura, r.umidade, r.alerta, r.numero, FormattedTime(r.timestamp))
  }

  function Project(rows: seq<Reading>): (r: seq<SensorRow>)
    ensures |r| == |rows| && forall i :: 0 <= i < |rows| ==> r[i] == ToSensorRow(rows[i])
  {
    if |rows| == 0 then [] else [ToSensorRow(rows[0])] + Project(rows[1..])
  }

  /** The answer of GET /sensor-data: the rows as JSON, or a 500 when the
      query fails. */
  datatype SensorDataReply = SensorDataOk(data: seq<SensorRow>) | SensorDataError(reply: Reply)

  function GetSensorData(rows: seq<Reading>, date: Option<string>, queryOk: bool): (r: SensorDataReply)
    ensures r.SensorDataError? <==> !queryOk
    ensures r.SensorDataError? ==> r.reply == Reply(500, ErroBanco)
    ensures r.SensorDataOk? ==> r.data == Project(SensorDataRows(rows, date))
  {
    if queryOk then SensorDataOk(Project(SensorDataRows(rows, date))) else SensorDataError(Reply(500, ErroBanco))
  }

  /** With a date, the answer holds exactly the stored rows of that date,
      each as often as stored, oldest first. */
  lemma SensorDataForDate(rows: seq<Reading>, d: string)
    requires d != ""
    ensures Ascending(SensorDataRows(rows, Some(d)))
    ensures forall x :: x in SensorDataRows(rows, Some(d)) <==> x in rows && OnDate(x, d)
    ensures multiset(SensorDataRows(rows, Some(d))) <= multiset(rows)
    ensures forall x ::
              multiset(SensorDataRows(rows, Some(d)))[x] == if OnDate(x, d) then multiset(rows)[x] else 0
  {
    var r := SensorDataRows(rows, Some(d));
    FilterDateCounts(rows, d);
    forall x ensures x in r <==> x in rows && OnDate(x, d) {
      assert x in r <==> x in multiset(r);
      assert x in FilterDate(rows, d) <==> x in multiset(FilterDate(rows, d));
    }
  }

  /** Without a date every stored row comes back: there is no limit. */
  lemma SensorDataWithoutDate(rows: seq<Reading>)
    ensures multiset(SensorDataRows(rows, None)) == multiset(rows)
    ensures |SensorDataRows(rows, None)| == |rows|
  {
    assert |multiset(SensorDataRows(rows, None))| == |multiset(rows)|;
  }

  /** Read-after-write: a row just appended is in the answer for its own date. */
  lemma ReadAfterWrite(rows: seq<Reading>, row: Reading)
    requires |row.timestamp| >= 10
    ensures row in SensorDataRows(rows + [row], Some(DateOf(row.timestamp)))
  {
    var d := DateOf(row.timestamp);
    assert OnDate(row, d);
    SensorDataForDate(rows + [row], d);
  }

  /** Persist before broadcast: when POST /leitura answers 201, the row it
      broadcast is already in the table and is returned by GET /sensor-data
      for its date. */
  lemma LeituraVisibleToHistory(rows: seq<Reading>, b: LeituraBody, newId: nat, stamp: string)
    requires LeituraValid(b) && |stamp| >= 10
    ensures var h := LeituraOutcome(b, true, true, newId, stamp);
      h.effects[1].event.update.row in SensorDataRows(rows + InsertedRows(h.effects), Some(DateOf(stamp)))
  {
    var h := LeituraOutcome(b, true, true, newId, stamp);
    LeituraStoredRow(b, true, true, newId, stamp);
    assert InsertedRows(h.effects) == [h.effects[1].event.update.row];
    ReadAfterWrite(rows, h.effects[1].event.update.row);
  }
}
