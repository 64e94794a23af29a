/** What the backend emits: HTTP replies, live-channel events and the ordered
    trace of side effects a request performs. `JSON.stringify` and the
    rendering of numbers into message text are not modelled; texts are kept as
    the structured values they are built from. */
module Messages {
  import opened Common
  import opened Readings

  /** Payload of an `ATUALIZAR_DASHBOARD` event. POST /leitura sends the re-read
      row plus `formattedTime` and `localTime`; POST /alerta builds its own
      object whose `timestamp` is the pt-BR local time text. */
  datatype DashboardData =
    | RowUpdate(row: Reading, formattedTime: Option<string>, localTime: Option<string>)
    | RelayUpdate(id: nat, temperatura: real, umidade: real, alerta: bool, numero: JsValue,
                  timestamp: string)

  /** Payload of an `ALERTA` event: the reading and the
      "Valores criticos detectados!" text built from it. */
  datatype AlertData = AlertData(temperatura: real, umidade: real, numero: JsValue, timestamp: string)

  /** `{type, data}` objects handed to `broadcastData`. */
  datatype Event =
    | AtualizarDashboard(update: DashboardData)
    | Alerta(alert: AlertData)

  /** The WhatsApp text: the critical variant or the normal-reading variant,
      each quoting temperature and humidity. */
  datatype WhatsText = CriticalText(temperatura: real, umidade: real) | NormalText(temperatura: real, umidade: real)

  /** One observable side effect of a request, in the order it happens. */
  datatype Effect =
    | Sent(numero: JsValue, text: WhatsText)
    | Inserted(row: Reading)
    | Broadcast(event: Event)

  /** JSON bodies of the replies. */
  datatype Body =
    | DadosInvalidos                 // POST /leitura: { error: 'Dados inválidos' }
    | ErroBanco                      // { error: 'Erro no banco de dados', details }
    | LeituraCriada(alerta: bool, message: string, timestamp: Option<string>)
    | AlertaInvalido                 // POST /alerta: { erro: 'Dados inválidos', detalhes }
    | WhatsAppDesconectado           // { erro: 'WhatsApp não conectado', solucao }
    | FalhaProcessamento             // { erro: 'Falha no processamento', detalhes }
    | AlertaProcessado(alerta: bool, idRegistro: nat, localTimestamp: string)
    | AcessoNaoAutorizado            // { erro: 'Acesso não autorizado' }
    | FalhaInterna                   // { erro: 'Falha interna' }

  datatype Reply = Reply(status: int, body: Body)

  /** What one request does: its reply and its side effects in order. */
  datatype Handled = Handled(reply: Reply, effects: seq<Effect>)

  /** The rows a trace inserts, in order. */
  function InsertedRows(effects: seq<Effect>): (rows: seq<Reading>)
    ensures |rows| <= |effects|
  {
    if |effects| == 0 then []
    else
      assert effects == [effects[0]] + effects[1..];
      (if effects[0].Inserted? then [effects[0].row] else []) + InsertedRows(effects[1..])
  }

  /** The events a trace broadcasts, in order. */
  function BroadcastEvents(effects: seq<Effect>): (events: seq<Event>)
    ensures |events| <= |effects|
  {
    if |effects| == 0 then []
    else
      assert effects == [effects[0]] + effects[1..];
      (if effects[0].Broadcast? then [effects[0].event] else []) + BroadcastEvents(effects[1..])
  }

  /** The inserts of two traces run one after the other. */
  lemma {:induction false} InsertedRowsAppend(a: seq<Effect>, b: seq<Effect>)
    ensures InsertedRows(a + b) == InsertedRows(a) + InsertedRows(b)
    decreases |a|
  {
    if |a| > 0 {
      assert (a + b)[1..] == a[1..] + b;
      InsertedRowsAppend(a[1..], b);
    } else {
      assert a + b == b;
    }
  }

  /** The broadcasts of two traces run one after the other. */
  lemma {:induction false} BroadcastEventsAppend(a: seq<Effect>, b: seq<Effect>)
    ensures BroadcastEvents(a + b) == BroadcastEvents(a) + BroadcastEvents(b)
    decreases |a|
  {
    if |a| > 0 {
      assert (a + b)[1..] == a[1..] + b;
      BroadcastEventsAppend(a[1..], b);
    } else {
      assert a + b == b;
    }
  }

  /** The one-effect traces. */
  lemma SingleEffect(e: Effect)
    ensures InsertedRows([e]) == if e.Inserted? then [e.row] else []
    ensures BroadcastEvents([e]) == if e.Broadcast? then [e.event] else []
  {
    assert [e][1..] == [];
  }

  /** A row is among a trace's inserts exactly when the trace inserts it. */
  lemma {:induction false} InsertedRowsMembers(effects: seq<Effect>)
    ensures forall x :: x in InsertedRows(effects) <==> Inserted(x) in effects
    decreases |effects|
  {
    if |effects| > 0 {
      InsertedRowsMembers(effects[1..]);
      assert effects == [effects[0]] + effects[1..];
    }
  }

  /** An event is among a trace's broadcasts exactly when the trace
      broadcasts it. */
  lemma {:induction false} BroadcastEventsMembers(effects: seq<Effect>)
    ensures forall e :: e in BroadcastEvents(effects) <==> Broadcast(e) in effects
    decreases |effects|
  {
    if |effects| > 0 {
      BroadcastEventsMembers(effects[1..]);
      assert effects == [effects[0]] + effects[1..];
    }
  }
}
