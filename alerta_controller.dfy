/** POST /api/alerta, the relay endpoint: token check, validation, the 26/20
    degree and 95/40 % rule, a WhatsApp message, the store, and one or two
    live broadcasts. The WhatsApp client is reduced to two answers (is it
    ready, did the send succeed) and the clock to its readings. */
module AlertaController {
  import opened Common
  import opened Alert
  import opened Timestamps
  import opened Readings
  import opened Messages
  import opened App
  import opened Auth
  import opened DatabaseService

  /** `req.body` of POST /alerta. */
  datatype AlertaBody = AlertaBody(temperatura: JsValue, umidade: JsValue, numero: JsValue)

  /** Both readings have `typeof === 'number'` and `numero` is truthy. */
  predicate AlertaValid(b: AlertaBody)
  {
    IsNumber(b.temperatura) && IsNumber(b.umidade) && Truthy(b.numero)
  }

  /** The WhatsApp text: the critical variant when the rule fires. */
  function WhatsMessage(t: real, u: real): WhatsText
  {
    if RelayAlert(t, u) then CriticalText(t, u) else NormalText(t, u)
  }

  /** The object handed to `salvarLeitura`; `iso` is the controller's own
      shifted ISO text without its `Z`. */
  function AlertaDados(b: AlertaBody, iso: string): Dados
    requires AlertaValid(b)
  {
    Dados(b.temperatura.n, Some(b.umidade.n), RelayAlert(b.temperatura.n, b.umidade.n), b.numero, iso)
  }

  /** What the controller does once the message went out: store the reading,
      broadcast ATUALIZAR_DASHBOARD and, when the rule fires, ALERTA, then
      answer 200; or answer 500 when the store fails. */
  function SaveOutcome(b: AlertaBody, saveOk: bool, newId: nat, iso: string, savedStamp: string,
                       localStamp: string): Handled
    requires AlertaValid(b)
  {
    var t := b.temperatura.n;
    var u := b.umidade.n;
    var alerta := RelayAlert(t, u);
    if !saveOk then Handled(Reply(500, FalhaProcessamento), [])
    else
      var row := SavedRow(newId, AlertaDados(b, iso), savedStamp);
      var update := Broadcast(AtualizarDashboard(RelayUpdate(newId, t, u, alerta, b.numero, localStamp)));
      var raised := if alerta then [Broadcast(Alerta(AlertData(t, u, b.numero, localStamp)))] else [];
      Handled(Reply(200, AlertaProcessado(alerta, newId, localStamp)), [Inserted(row), update] + raised)
  }

  /** What the controller does, given whether the WhatsApp client is ready,
      whether the send and the store succeed, the id the store would give,
      the controller's ISO text, the stamp the store writes and the pt-BR
      local time text. */
  function AlertaOutcome(b: AlertaBody, ready: bool, sendOk: bool, saveOk: bool, newId: nat,
                         iso: string, savedStamp: string, localStamp: string): Handled
  {
    if !AlertaValid(b) then Handled(Reply(400, AlertaInvalido), [])
    else if !ready then Handled(Reply(503, WhatsAppDesconectado), [])
    else if !sendOk then Handled(Reply(500, FalhaProcessamento), [])
    else SendOutcome(b, saveOk, newId, iso, savedStamp, localStamp)
  }

  /** What the controller does once the message went out: the message is
      the first effect, the store and the broadcasts follow. */
  function SendOutcome(b: AlertaBody, saveOk: bool, newId: nat, iso: string, savedStamp: string,
                       localStamp: string): Handled
    requires AlertaValid(b)
  {
    var rest := SaveOutcome(b, saveOk, newId, iso, savedStamp, localStamp);
    Handled(rest.reply, [Sent(b.numero, WhatsMessage(b.temperatura.n, b.umidade.n))] + rest.effects)
  }

  /** The four answers and when each is given. Nothing happens before a 400
      or a 503; a failure after the message went out leaves the message as
      the only effect; nothing is stored or broadcast unless the answer is
      200. */
  lemma AlertaStatus(b: AlertaBody, ready: bool, sendOk: bool, saveOk: bool, newId: nat,
                     iso: string, savedStamp: string, localStamp: string)
    ensures var h := AlertaOutcome(b, ready, sendOk, saveOk, newId, iso, savedStamp, localStamp);
      && (h.reply.status == 400 <==> !AlertaValid(b))
      && (h.reply.status == 503 <==> AlertaValid(b) && !ready)
      && (h.reply.status == 500 <==> AlertaValid(b) && ready && !(sendOk && saveOk))
      && (h.reply.status == 200 <==> AlertaValid(b) && ready && sendOk && saveOk)
      && (h.reply.status == 400 || h.reply.status == 503 ==> h.effects == [])
      && (h.reply.status == 500 ==> h.reply.body == FalhaProcessamento && |h.effects| <= 1)
      && (h.reply.status == 500 && |h.effects| == 1 ==> h.effects[0].Sent? && sendOk && !saveOk)
      && (h.reply.status != 200 ==> InsertedRows(h.effects) == [] && BroadcastEvents(h.effects) == [])
  {
    var h := AlertaOutcome(b, ready, sendOk, saveOk, newId, iso, savedStamp, localStamp);
    if h.reply.status == 500 && |h.effects| == 1 {
      assert h.effects == [h.effects[0]];
    }
  }

  /** The inserts and broadcasts of a successful store-and-publish step. */
  lemma {:induction false} PublishTrace(row: Reading, update: Event, raised: seq<Effect>)
    requires raised == [] || (|raised| == 1 && raised[0].Broadcast?)
    ensures InsertedRows([Inserted(row), Broadcast(update)] + raised) == [row]
    ensures BroadcastEvents([Inserted(row), Broadcast(update)] + raised) ==
      [update] + (if raised == [] then [] else [raised[0].event])
  {
    var a, c := [Inserted(row)], [Broadcast(update)];
    assert [Inserted(row), Broadcast(update)] + raised == a + (c + raised);
    InsertedRowsAppend(a, c + raised);
    InsertedRowsAppend(c, raised);
    BroadcastEventsAppend(a, c + raised);
    BroadcastEventsAppend(c, raised);
    SingleEffect(Inserted(row));
    SingleEffect(Broadcast(update));
    if raised != [] {
      assert raised == [raised[0]];
      SingleEffect(raised[0]);
    }
  }

  /** A message in front of a trace adds no insert and no broadcast. */
  lemma SentFirst(sent: Effect, rest: seq<Effect>)
    requires sent.Sent?
    ensures InsertedRows([sent] + rest) == InsertedRows(rest)
    ensures BroadcastEvents([sent] + rest) == BroadcastEvents(rest)
  {
    InsertedRowsAppend([sent], rest);
    BroadcastEventsAppend([sent], rest);
    SingleEffect(sent);
  }

  /** A 200: the message goes out first, then the row is stored, then
      ATUALIZAR_DASHBOARD is broadcast, then (only when the rule fires)
      ALERTA. The critical text is chosen exactly when the rule fires, and
      the id in the reply and in the broadcast is the stored row's id. */
  lemma AlertaSuccess(b: AlertaBody, newId: nat, iso: string, savedStamp: string, localStamp: string)
    requires AlertaValid(b)
    ensures var h := AlertaOutcome(b, true, true, true, newId, iso, savedStamp, localStamp);
      var alerta := RelayAlert(b.temperatura.n, b.umidade.n);
      && h.reply == Reply(200, AlertaProcessado(alerta, newId, localStamp))
      && |h.effects| == (if alerta then 4 else 3)
      && h.effects[0] == Sent(b.numero, h.effects[0].text)
      && (h.effects[0].text.CriticalText? <==> alerta)
      && h.effects[0].text.temperatura == b.temperatura.n && h.effects[0].text.umidade == b.umidade.n
      && h.effects[1].Inserted? && h.effects[1].row.id == newId && h.effects[1].row.timestamp == savedStamp
      && (h.effects[1].row.alerta == 1 <==> alerta)
      && h.effects[2] == Broadcast(AtualizarDashboard(
           RelayUpdate(newId, b.temperatura.n, b.umidade.n, alerta, b.numero, localStamp)))
      && (alerta ==> h.effects[3] == Broadcast(Alerta(AlertData(b.temperatura.n, b.umidade.n, b.numero, localStamp))))
      && InsertedRows(h.effects) == [h.effects[1].row]
  {
    var h := AlertaOutcome(b, true, true, true, newId, iso, savedStamp, localStamp);
    var rest := SaveOutcome(b, true, newId, iso, savedStamp, localStamp).effects;
    assert h.effects == [h.effects[0]] + rest;
    PublishTrace(rest[0].row, rest[1].event, rest[2..]);
    assert rest == [rest[0], rest[1]] + rest[2..];
    SentFirst(h.effects[0], rest);
  }

  /** The live events of one POST /alerta, as a list: none unless the
      answer is 200; then ATUALIZAR_DASHBOARD, followed by ALERTA when the
      rule fires. */
  lemma AlertaEventList(b: AlertaBody, ready: bool, sendOk: bool, saveOk: bool, newId: nat,
                        iso: string, savedStamp: string, localStamp: string)
    ensures var h := AlertaOutcome(b, ready, sendOk, saveOk, newId, iso, savedStamp, localStamp);
      BroadcastEvents(h.effects) ==
        if h.reply.status != 200 then []
        else
          var t, u := b.temperatura.n, b.umidade.n;
          [AtualizarDashboard(RelayUpdate(newId, t, u, RelayAlert(t, u), b.numero, localStamp))] +
          (if RelayAlert(t, u) then [Alerta(AlertData(t, u, b.numero, localStamp))] else [])
  {
    var h := AlertaOutcome(b, ready, sendOk, saveOk, newId, iso, savedStamp, localStamp);
    if h.reply.status == 200 {
      var rest := SaveOutcome(b, saveOk, newId, iso, savedStamp, localStamp).effects;
      assert h.effects == [h.effects[0]] + rest;
      assert rest == [rest[0], rest[1]] + rest[2..];
      PublishTrace(rest[0].row, rest[1].event, rest[2..]);
      SentFirst(h.effects[0], rest);
    } else if h.effects != [] {
      assert h.effects == [h.effects[0]];
      SingleEffect(h.effects[0]);
    }
  }

  /** ATUALIZAR_DASHBOARD comes first and ALERTA right after it; an ALERTA is
      sent exactly when the answer is 200 and the rule fires. */
  lemma AlertaBroadcasts(b: AlertaBody, ready: bool, sendOk: bool, saveOk: bool, newId: nat,
                         iso: string, savedStamp: string, localStamp: string)
    ensures var h := AlertaOutcome(b, ready, sendOk, saveOk, newId, iso, savedStamp, localStamp);
      var events := BroadcastEvents(h.effects);
      && (h.reply.status == 200 ==>
            && |events| == (if RelayAlert(b.temperatura.n, b.umidade.n) then 2 else 1)
            && events[0].AtualizarDashboard?
            && (|events| == 2 ==> events[1].Alerta?))
      && ((exists e :: e in events && e.Alerta?) <==>
            h.reply.status == 200 && RelayAlert(b.temperatura.n, b.umidade.n))
  {
    AlertaEventList(b, ready, sendOk, saveOk, newId, iso, savedStamp, localStamp);
    var events := BroadcastEvents(AlertaOutcome(b, ready, sendOk, saveOk, newId, iso, savedStamp, localStamp).effects);
    if |events| == 2 {
      assert events[1] in events;
    }
  }

  /** Every ALERTA event the system sends carries readings that fire the
      relay rule. */
  lemma AlertaEventsAreCritical(b: AlertaBody, ready: bool, sendOk: bool, saveOk: bool, newId: nat,
                                iso: string, savedStamp: string, localStamp: string)
    ensures var events := BroadcastEvents(AlertaOutcome(b, ready, sendOk, saveOk, newId, iso, savedStamp, localStamp).effects);
      forall e :: e in events && e.Alerta? ==> RelayAlert(e.alert.temperatura, e.alert.umidade)
  {
    AlertaEventList(b, ready, sendOk, saveOk, newId, iso, savedStamp, localStamp);
  }

  /** A humidity of 0 fires the rule (0 < 40) and is broadcast as 0, but the
      stored row has NULL humidity. */
  lemma ZeroHumidityStoredAsNull(newId: nat, iso: string, savedStamp: string, localStamp: string)
    ensures var h := AlertaOutcome(AlertaBody(Num(23.0), Num(0.0), Str("X")), true, true, true,
                                   newId, iso, savedStamp, localStamp);
      && h.reply.body.alerta
      && h.effects[1].row.umidade == None
      && h.effects[2].event.update.umidade == 0.0
  {
  }

  /** The part of the controller after the message went out: `salvarLeitura`,
      then the broadcasts, then the 200 answer. */
  method SaveAndPublish(srv: Server, b: AlertaBody, saveOk: bool, saveNowMs: int,
                        isoOf: int -> string, iso: string, localStamp: string)
    returns (reply: Reply)
    requires srv.Valid() && AlertaValid(b)
    modifies srv, srv.table, srv.hub
    ensures srv.Valid()
    ensures var h := SaveOutcome(b, saveOk, old(srv.table.lastId) + 1, iso, NowStamp(saveNowMs, isoOf),
                                 localStamp);
      && reply == h.reply
      && srv.trace == old(srv.trace) + h.effects
      && srv.table.rows == old(srv.table.rows) + InsertedRows(h.effects)
      && srv.table.lastId == old(srv.table.lastId) + |InsertedRows(h.effects)|
      && Delivered(old(srv.hub.outbox), srv.hub.outbox, srv.hub.clients, srv.hub.readyState,
                   BroadcastEvents(h.effects))
    ensures srv.hub.clients == old(srv.hub.clients) && srv.hub.readyState == old(srv.hub.readyState)
  {
    ghost var h := SaveOutcome(b, saveOk, srv.table.lastId + 1, iso, NowStamp(saveNowMs, isoOf), localStamp);
    var t := b.temperatura.n;
    var u := b.umidade.n;
    var alerta := RelayAlert(t, u);
    var dados := AlertaDados(b, iso);
    var saved := SalvarLeitura(srv.table, dados, saveNowMs, isoOf, saveOk);
    if saved.Rejected? {
      return Reply(500, FalhaProcessamento);
    }
    var id := saved.value;
    var row := SavedRow(id, dados, NowStamp(saveNowMs, isoOf));
    srv.trace := srv.trace + [Inserted(row)];
    var update := AtualizarDashboard(RelayUpdate(id, t, u, alerta, b.numero, localStamp));
    var alert := if alerta then Some(Alerta(AlertData(t, u, b.numero, localStamp))) else None;
    ghost var raised := if alerta then [Broadcast(alert.value)] else [];
    Notify(srv, update, alert);
    reply := Reply(200, AlertaProcessado(alerta, id, localStamp));
    assert h.effects == [Inserted(row), Broadcast(update)] + raised;
    PublishTrace(row, update, raised);
    assert srv.trace == old(srv.trace) + h.effects;
  }

  /** The two `broadcastData` calls of the controller: ATUALIZAR_DASHBOARD,
      then ALERTA when there is one. */
  method Notify(srv: Server, update: Event, alert: Option<Event>)
    modifies srv, srv.hub
    ensures var events := [update] + (if alert.Some? then [alert.value] else []);
      && srv.trace == old(srv.trace) + [Broadcast(update)] + (if alert.Some? then [Broadcast(alert.value)] else [])
      && Delivered(old(srv.hub.outbox), srv.hub.outbox, srv.hub.clients, srv.hub.readyState,
                   events)
    ensures srv.hub.clients == old(srv.hub.clients) && srv.hub.readyState == old(srv.hub.readyState)
  {
    srv.BroadcastData(update);
    if alert.Some? {
      ghost var mid := srv.hub.outbox;
      srv.BroadcastData(alert.value);
      DeliveredThen(old(srv.hub.outbox), mid, srv.hub.outbox, srv.hub.clients, srv.hub.readyState,
                    [update], [alert.value]);
    }
  }

  /** The controller acting on the server. `nowMs` is the controller's
      `new Date()`, `saveNowMs` the one inside `salvarLeitura`, `isoOf` is
      `toISOString` and `localeOf` is `toLocaleString('pt-BR')`. */
  method HandleAlerta(srv: Server, b: AlertaBody, ready: bool, sendOk: bool, saveOk: bool,
                      nowMs: int, saveNowMs: int, isoOf: int -> string, localeOf: int -> string)
    returns (reply: Reply)
    requires srv.Valid()
    modifies srv, srv.table, srv.hub
    ensures srv.Valid()
    ensures var h := AlertaOutcome(b, ready, sendOk, saveOk, old(srv.table.lastId) + 1,
                                   IsoWithoutZ(isoOf(ShiftToBrasilia(nowMs))), NowStamp(saveNowMs, isoOf),
                                   localeOf(nowMs));
      && reply == h.reply
      && srv.trace == old(srv.trace) + h.effects
      && srv.table.rows == old(srv.table.rows) + InsertedRows(h.effects)
      && srv.table.lastId == old(srv.table.lastId) + |InsertedRows(h.effects)|
      && Delivered(old(srv.hub.outbox), srv.hub.outbox, srv.hub.clients, srv.hub.readyState,
                   BroadcastEvents(h.effects))
    ensures srv.hub.clients == old(srv.hub.clients) && srv.hub.readyState == old(srv.hub.readyState)
  {
    if !AlertaValid(b) {
      DeliveredNothing(srv.hub.outbox, srv.hub.clients, srv.hub.readyState);
      return Reply(400, AlertaInvalido);
    }
    if !ready {
      DeliveredNothing(srv.hub.outbox, srv.hub.clients, srv.hub.readyState);
      return Reply(503, WhatsAppDesconectado);
    }
    if !sendOk {
      DeliveredNothing(srv.hub.outbox, srv.hub.clients, srv.hub.readyState);
      return Reply(500, FalhaProcessamento);
    }
    reply := SendAndSave(srv, b, saveOk, nowMs, saveNowMs, isoOf, localeOf);
  }

  /** The controller after a successful send: the message is recorded, then
      the store and the broadcasts. */
  method SendAndSave(srv: Server, b: AlertaBody, saveOk: bool,
                     nowMs: int, saveNowMs: int, isoOf: int -> string, localeOf: int -> string)
    returns (reply: Reply)
    requires srv.Valid() && AlertaValid(b)
    modifies srv, srv.table, srv.hub
    ensures srv.Valid()
    ensures var h := SendOutcome(b, saveOk, old(srv.table.lastId) + 1,
                                 IsoWithoutZ(isoOf(ShiftToBrasilia(nowMs))), NowStamp(saveNowMs, isoOf),
                                 localeOf(nowMs));
      && reply == h.reply
      && srv.trace == old(srv.trace) + h.effects
      && srv.table.rows == old(srv.table.rows) + InsertedRows(h.effects)
      && srv.table.lastId == old(srv.table.lastId) + |InsertedRows(h.effects)|
      && Delivered(old(srv.hub.outbox), srv.hub.outbox, srv.hub.clients, srv.hub.readyState,
                   BroadcastEvents(h.effects))
    ensures srv.hub.clients == old(srv.hub.clients) && srv.hub.readyState == old(srv.hub.readyState)
  {
    var sent := Sent(b.numero, WhatsMessage(b.temperatura.n, b.umidade.n));
    srv.trace := srv.trace + [sent];
    var iso := IsoWithoutZ(isoOf(ShiftToBrasilia(nowMs)));
    ghost var rest := SaveOutcome(b, saveOk, srv.table.lastId + 1, iso, NowStamp(saveNowMs, isoOf), localeOf(nowMs));
    SentFirst(sent, rest.effects);
    reply := SaveAndPublish(srv, b, saveOk, saveNowMs, isoOf, iso, localeOf(nowMs));
    assert srv.trace == old(srv.trace) + ([sent] + rest.effects);
  }

  /** POST /api/alerta: the token middleware, then the controller. */
  function AlertaRouteOutcome(header: Option<string>, apiToken: Option<string>, b: AlertaBody,
                              ready: bool, sendOk: bool, saveOk: bool, newId: nat,
                              iso: string, savedStamp: string, localStamp: string): Handled
  {
    match Authenticate(header, apiToken)
    case Reject(r) => Handled(r, [])
    case CallNext => AlertaOutcome(b, ready, sendOk, saveOk, newId, iso, savedStamp, localStamp)
  }

  /** A request without the right token gets 401 and has no effect at all:
      no message, no row, no broadcast. With the right token, the answer is
      the controller's. */
  lemma UnauthorizedHasNoEffect(header: Option<string>, apiToken: Option<string>, b: AlertaBody,
                                ready: bool, sendOk: bool, saveOk: bool, newId: nat,
                                iso: string, savedStamp: string, localStamp: string)
    ensures var h := AlertaRouteOutcome(header, apiToken, b, ready, sendOk, saveOk, newId, iso, savedStamp, localStamp);
      && (header != Some("Bearer " + TokenText(apiToken)) ==>
            h == Handled(Reply(401, AcessoNaoAutorizado), []))
      && (header == Some("Bearer " + TokenText(apiToken)) ==>
            h == AlertaOutcome(b, ready, sendOk, saveOk, newId, iso, savedStamp, localStamp))
  {
  }

  method PostAlerta(srv: Server, header: Option<string>, apiToken: Option<string>, b: AlertaBody,
                    ready: bool, sendOk: bool, saveOk: bool,
                    nowMs: int, saveNowMs: int, isoOf: int -> string, localeOf: int -> string)
    returns (reply: Reply)
    requires srv.Valid()
    modifies srv, srv.table, srv.hub
    ensures srv.Valid()
    ensures var h := AlertaRouteOutcome(header, apiToken, b, ready, sendOk, saveOk, old(srv.table.lastId) + 1,
                                        IsoWithoutZ(isoOf(ShiftToBrasilia(nowMs))), NowStamp(saveNowMs, isoOf),
                                        localeOf(nowMs));
      && reply == h.reply
      && srv.trace == old(srv.trace) + h.effects
      && srv.table.rows == old(srv.table.rows) + InsertedRows(h.effects)
      && srv.table.lastId == old(srv.table.lastId) + |InsertedRows(h.effects)|
      && Delivered(old(srv.hub.outbox), srv.hub.outbox, srv.hub.clients, srv.hub.readyState,
                   BroadcastEvents(h.effects))
    ensures srv.hub.clients == old(srv.hub.clients) && srv.hub.readyState == old(srv.hub.readyState)
  {
    var d := Authenticate(header, apiToken);
    if d.Reject? {
      return d.reply;
    }
    reply := HandleAlerta(srv, b, ready, sendOk, saveOk, nowMs, saveNowMs, isoOf, localeOf);
  }
}
