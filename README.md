# ESP32 sensor monitoring: a Dafny model of its core

This backend collects temperature and humidity readings sent by an ESP32 board. The readings go into
a SQLite table `leituras`. A WhatsApp message goes to a phone number, and every browser with the
React dashboard open gets a WebSocket push. A seed script fills the table with three weeks of
synthetic readings.

This project models the sequential core of that system in Dafny and proves what each piece promises:

- **Alert rules** (`alert.dfy`). There are two different rules:
  - `POST /leitura` uses 26/20 °C and 80/20 %.
  - `POST /alerta` and the seed script use 26/20 °C and 95/40 %.
  - The model keeps both rules and proves exactly where they disagree.
- **The reading table** (`readings.dfy`). It is a class holding the rows and the last id that
  `AUTOINCREMENT` gave out.
  - `Insert` fails without change when the store fails.
  - The queries are the re-read by id, the `ORDER BY timestamp DESC` sort (a permutation, descending),
    `reverse()` and the date filter.
- **Timestamps** (`timestamps.dfy`):
  - the −3 h shift to Brasília time;
  - the three ways the code turns an ISO text into a stored or displayed stamp;
  - the `strftime('%Y-%m-%d %H:%M:%S', timestamp)` column;
  - the dashboard's "today".
- **Effects and replies** (`messages.dfy`). Each request is handled as one atomic step.
  - It gives a reply and an ordered trace of effects: WhatsApp send, insert, and broadcast of
    `ATUALIZAR_DASHBOARD` or `ALERTA`.
  - The trace determines the new table rows and what every open socket receives.
- **The server** (`app.js` → `app.dfy`):
  - the `activeClients` set, with connect and close;
  - `broadcastData`, which delivers to exactly the open sockets and never changes the set;
  - the `/api` fallback predicate and the 500 error handler.
- **The bearer-token middleware** (`auth.dfy`).
- **`salvarLeitura` / `obterLeituras`** (`database_service.dfy`).
- **`POST /leitura` and `GET /sensor-data`** (`routes.dfy`).
- **`handleAlerta` behind `POST /alerta`** (`alerta_controller.dfy`). It follows the source's order:
  validation, readiness gate, send, save, broadcast, then the alert broadcast.
- **The dashboard page** (`dashboard.dfy`):
  - `extractTime`;
  - the initial load, the live reducer with `slice(-200)` and the date selection, as a state class;
  - the 10-row table, the highlight predicates and the chart axis clamps.
- **The seed script `populateDB.js`** (`populate.dfy`):
  - the day, hour and minute loops, as methods with invariants, over the reading table;
  - the 133 five-minute slots per day;
  - the relay alert flag and the stamp text;
  - the progress log written every 100 inserts.

Parts of the system that the model cannot compute are passed in as parameters:

- **Oracles.** These are booleans for WhatsApp readiness, send success, and the outcome of every
  database call.
- **Clocks.** These are millisecond instants.
- **Calendar and locale formatting.** These are functions from instants to text.
- **Random values.** These are functions from the insert index to a value.

## Model

| member | source | states |
|---|---|---|
| Alert.RelayAlertFlag | node-backend/populateDB.js:44-49 | the stored flag is 0 or 1, and it is 1 exactly when temperature > 26, < 20 or humidity > 95, < 40 |
| Alert.LeituraQuietRegion | node-backend/src/routes/index.js:97 | `/leitura` raises no alert iff 20 ≤ t ≤ 26 and the humidity is absent or within 20..80; an absent humidity acts like an in-range one |
| Alert.RelayQuietRegion | node-backend/src/controllers/alertaController.js:19 | `/alerta` raises no alert iff 20 ≤ t ≤ 26 and 40 ≤ u ≤ 95 |
| Alert.RulesDisagreeExactly | node-backend/src/routes/index.js:97 | the two rules differ exactly when the temperature is in range and the humidity is in [20,40) or (80,95]; only `/leitura` alerts on (80,95] |
| Alert.RulesDisagreeOnExample | node-backend/src/controllers/alertaController.js:19 | 23 °C / 90 % alerts only on `/leitura`; 23 °C / 30 % alerts only on `/alerta` |
| Common.FalsyToNull | node-backend/src/routes/index.js:102 | `umidade \|\| null` is null exactly for an absent or zero humidity; otherwise the value is kept |
| Timestamps.ShiftToBrasilia | node-backend/populateDB.js:9-12 | the shifted instant is exactly 10,800,000 ms earlier |
| Timestamps.ShiftPreservesOrder | node-backend/src/services/databaseService.js:7-8 | the shift keeps the order of instants and the distance between them |
| Timestamps.DateOf | node-backend/src/routes/index.js:78 | the date of a stamp is its 10-character prefix (a shorter text is kept as is, by convention of the model; no row of that length is ever on a date) |
| Timestamps.StampFromIso | node-backend/src/services/databaseService.js:11-13 | first 'T' made a space, then cut to 19 characters: never longer than 19 |
| Timestamps.FormattedTimeShape | node-backend/src/routes/index.js:72 | a formatted time is a well-formed `YYYY-MM-DD HH:MM:SS` stamp with the same date; a stored stamp is its own formatted time; a 'T'-separated stamp gets a space |
| Timestamps.StampFromCanonical | node-backend/src/services/databaseService.js:11-13 | on a `toISOString` text the result is date + space + time, 19 characters, well formed, same date |
| Timestamps.SeedStampAgrees | node-backend/populateDB.js:52-54 | removing everything from the first '.' gives the same stamp as the 19-character cut |
| Timestamps.IsoWithoutZOnCanonical | node-backend/src/controllers/alertaController.js:44 | removing the 'Z' from a `toISOString` text leaves its first 23 characters |
| Timestamps.DatePartOfCanonical | dashboard-page/dashboard-temp/src/pages/Dashboard/index.jsx:13-15 | `split('T')[0]` of an ISO text is its date, the same date as its stored stamp |
| Readings.Table.constructor | node-backend/src/routes/index.js:17-25 | a new table has no rows and no id given out |
| Readings.Table.Insert | node-backend/src/routes/index.js:99-104 | on success the row gets id lastId + 1 and is appended; on failure nothing changes and the call rejects |
| Readings.Table.Lookup | node-backend/src/routes/index.js:107-111 | `WHERE id = ?` finds a row with that id, or none when no row has it |
| Readings.FindId | node-backend/src/routes/index.js:107-111 | the row found has the id asked for; none means no row has it |
| Readings.FindIdFinds | node-backend/src/routes/index.js:107-113 | with increasing ids, the re-read of an inserted row's id returns that row |
| Readings.SortDesc | node-backend/src/routes/index.js:81 | `ORDER BY timestamp DESC` gives a permutation of the rows in descending timestamp order |
| Readings.Reverse | node-backend/src/routes/index.js:85 | position i of the result holds position n-1-i of the input |
| Readings.ReverseMultiset | node-backend/src/routes/index.js:85 | reversing keeps every row exactly once |
| Readings.ReverseDescending | node-backend/src/routes/index.js:81-85 | reversing a descending list gives an ascending one |
| Readings.FilterDate | node-backend/src/routes/index.js:76-79 | keeps only rows of the given date, and every stored row of that date |
| Readings.FilterDateCounts | node-backend/src/routes/index.js:76-79 | every row of the date is kept exactly as often as it is stored, and no other row |
| App.Hub.constructor | node-backend/src/app.js:19 | no clients at start |
| App.Hub.Connect | node-backend/src/app.js:21-23 | a connection adds the socket, open, and changes no delivered message |
| App.Hub.Disconnect | node-backend/src/app.js:25-28 | a close removes the socket; closing an absent socket leaves the set unchanged |
| App.Hub.SetReadyState | node-backend/src/app.js:44 | a socket's ready state changes without touching the set or the deliveries |
| App.Hub.Broadcast | node-backend/src/app.js:42-48 | every OPEN member receives the event once, nobody else receives anything, and the set is unchanged |
| App.DeliveredThen | node-backend/src/app.js:42-48 | two broadcasts in a row deliver both events, in order, to the same open members |
| App.Fallback | node-backend/src/app.js:51-56 | a path goes to the next handler iff it starts with `/api`; otherwise index.html is sent |
| App.FallbackExamples | node-backend/src/app.js:52 | `/api/leitura` and `/apidocs` pass on; `/` and `/dashboard/api` get the page |
| App.HandleUncaught | node-backend/src/app.js:59-62 | any uncaught error gives 500 with `erro` 'Falha interna' |
| App.Server.constructor | node-backend/src/app.js:14-19 | the server starts with an empty table, no clients and no effects |
| App.Server.BroadcastData | node-backend/src/app.js:42-48 | the trace grows by one broadcast; delivery is as for the hub, and the client set is unchanged |
| Auth.Authenticate | node-backend/src/middlewares/authMiddleware.js:4-12 | `next` is called iff the header equals exactly "Bearer " + the token text; every other case is 401 'Acesso não autorizado' |
| Auth.MissingHeaderRejected | node-backend/src/middlewares/authMiddleware.js:5-10 | no header gives 401 whatever the token |
| Auth.UnsetTokenAcceptsLiteralUndefined | node-backend/src/middlewares/authMiddleware.js:2-7 | with API_TOKEN unset the only header accepted is "Bearer undefined" |
| Auth.EmptyTokenAcceptsBareScheme | node-backend/src/middlewares/authMiddleware.js:7 | with an empty API_TOKEN the header "Bearer " is accepted |
| Auth.SchemeIsExact | node-backend/src/middlewares/authMiddleware.js:7 | a lower-case scheme or a double space is refused |
| DatabaseService.NowStamp | node-backend/src/services/databaseService.js:6-13 | the generated stamp is at most 19 characters |
| DatabaseService.SavedRow | node-backend/src/services/databaseService.js:15-23 | the stored humidity is null iff it is absent or zero, else kept; alerta is 1/0 following the flag; the stamp is the generated one |
| DatabaseService.CallerTimestampIgnored | node-backend/src/services/databaseService.js:22 | the caller's `dados.timestamp` has no influence on the stored row |
| DatabaseService.NowStampWellFormed | node-backend/src/services/databaseService.js:6-13 | for a canonical ISO text the stamp is 19 characters, has a space at index 10, is well formed, and carries the shifted instant's date |
| DatabaseService.SalvarLeitura | node-backend/src/services/databaseService.js:3-30 | resolves with the new lastID and appends the saved row; on an insert error rejects and changes nothing |
| DatabaseService.LimitCount | node-backend/src/services/databaseService.js:35 | `LIMIT n` keeps min(n, available) rows; a negative limit keeps all |
| DatabaseService.KeptRowsAreNewest | node-backend/src/services/databaseService.js:35 | in a descending list, every kept row is at least as new as every dropped row |
| DatabaseService.ObterLeituras | node-backend/src/services/databaseService.js:32-43 | rejects iff the query fails; otherwise the rows are descending, drawn from the table, as many as the limit allows, and never older than a row left out |
| DatabaseService.DefaultCallIsBounded | node-backend/src/services/databaseService.js:32 | the default call returns at most 100 rows |
| Routes.LeituraStatus | node-backend/src/routes/index.js:93-113 | 400 iff the body is invalid, with no effect; 500 'Erro no banco de dados' iff the insert or the re-read fails; 201 otherwise; no broadcast unless 201 |
| Routes.LeituraStoredRow | node-backend/src/routes/index.js:97-102 | the single inserted row has the new id and the column stamp; humidity is null iff falsy; alerta is 1/0 following the `/leitura` rule |
| Routes.LeituraSuccess | node-backend/src/routes/index.js:107-132 | on success: insert then one `ATUALIZAR_DASHBOARD` carrying the inserted row with localTime = formattedTime; the message is 'ALERTA ATIVADO' iff alerta, else 'Leitura normal' |
| Routes.LeituraNeverRaisesAlerta | node-backend/src/routes/index.js:116-125 | `/leitura` never broadcasts an `ALERTA` event |
| Routes.ZeroHumidityFlagNotRecomputable | node-backend/src/routes/index.js:97-102 | a zero humidity raises the flag but is stored as null, so the stored row no longer shows why |
| Routes.LeituraScenarios | node-backend/src/routes/index.js:97-132 | 27.5 °C without humidity gives 'ALERTA ATIVADO' with a null humidity; 23 °C / 70 % gives 'Leitura normal' |
| Routes.PostLeitura | node-backend/src/routes/index.js:90-137 | the reply, the trace, the new rows, the id counter (one more per inserted row) and the deliveries are those of the request's outcome; the client set is unchanged |
| Routes.InsertLeitura | node-backend/src/routes/index.js:99-113 | the reply, trace, rows, id counter and deliveries follow the outcome of the insert callback for a valid body |
| Routes.InsertThenReread | node-backend/src/routes/index.js:99-113 | a successful insert is the insert effect followed by the re-read step; it inserts exactly that row |
| Routes.Reread | node-backend/src/routes/index.js:107-132 | the re-read step's reply, trace and deliveries follow its outcome |
| Routes.SelectByDate | node-backend/src/routes/index.js:76-79 | without a date, or with an empty one, no filter applies |
| Routes.SensorDataRows | node-backend/src/routes/index.js:76-85 | the answer is ascending by timestamp and is a permutation of the selected rows |
| Routes.Project | node-backend/src/routes/index.js:70-74 | one output row per row, in order, with the selected columns and formattedTime |
| Routes.GetSensorData | node-backend/src/routes/index.js:67-87 | a query error gives 500 'Erro no banco de dados'; otherwise the projected ascending answer |
| Routes.SensorDataForDate | node-backend/src/routes/index.js:76-85 | with a date: ascending, and it holds every stored row of that date exactly as often as stored, and nothing else |
| Routes.SensorDataWithoutDate | node-backend/src/routes/index.js:65-85 | without a date every row is returned; no 50-row limit applies |
| Routes.ReadAfterWrite | node-backend/src/routes/index.js:76-79 | a newly appended row is in the answer for its own date |
| Routes.LeituraVisibleToHistory | node-backend/src/routes/index.js:99-125 | the row broadcast by `/leitura` is returned afterwards by `/sensor-data` for its date |
| AlertaController.AlertaStatus | node-backend/src/controllers/alertaController.js:11-100 | 400 iff invalid, 503 iff valid but not ready, both with no effect; 500 'Falha no processamento' iff the send or the save fails, with at most the send done; 200 otherwise; no insert or broadcast unless 200 |
| AlertaController.AlertaSuccess | node-backend/src/controllers/alertaController.js:28-92 | on success: send (critical text iff alerta), insert with the new id, `ATUALIZAR_DASHBOARD` with that id, then `ALERTA` iff alerta; the reply is 200 with alerta and idRegistro |
| AlertaController.AlertaEventList | node-backend/src/controllers/alertaController.js:61-85 | the exact broadcast list: none unless 200, else the update, then the alert iff alerta |
| AlertaController.AlertaBroadcasts | node-backend/src/controllers/alertaController.js:61-85 | an `ALERTA` is broadcast iff the request succeeds with alerta, and it comes after the update |
| AlertaController.AlertaEventsAreCritical | node-backend/src/controllers/alertaController.js:74-85 | every `ALERTA` event carries readings that break the 95/40 rule |
| AlertaController.ZeroHumidityStoredAsNull | node-backend/src/controllers/alertaController.js:47-71 | at 0 % the alert fires, the stored humidity is null, and the broadcast still says 0 |
| AlertaController.SaveAndPublish | node-backend/src/controllers/alertaController.js:47-92 | the reply, trace, rows, id counter and deliveries of the save-and-broadcast step follow its outcome |
| AlertaController.Notify | node-backend/src/controllers/alertaController.js:61-85 | the update and then the optional alert are traced and delivered in that order |
| AlertaController.HandleAlerta | node-backend/src/controllers/alertaController.js:7-101 | the reply, trace, rows, id counter and deliveries follow the handler's outcome; the client set is unchanged |
| AlertaController.SendAndSave | node-backend/src/controllers/alertaController.js:28-100 | the reply, trace, rows, id counter and deliveries follow the outcome of the try block after the readiness gate |
| AlertaController.UnauthorizedHasNoEffect | node-backend/src/routes/index.js:141 | without the exact bearer header, `/alerta` answers 401 with no effect; with it, the handler's outcome |
| AlertaController.PostAlerta | node-backend/src/routes/index.js:141 | the route's reply, trace, rows, id counter and deliveries follow the middleware-then-handler outcome |
| Dashboard.ExtractTime | dashboard-page/dashboard-temp/src/pages/Dashboard/index.jsx:25-34 | the label is never longer than its input |
| Dashboard.ExtractTimeAfterSpace | dashboard-page/dashboard-temp/src/pages/Dashboard/index.jsx:27-29 | with a space: the text after the first space, up to the next space |
| Dashboard.ExtractTimeAfterT | dashboard-page/dashboard-temp/src/pages/Dashboard/index.jsx:30-32 | with no space but a 'T': at most 8 characters after the first 'T', stopping at the next 'T' |
| Dashboard.ExtractTimeOtherwise | dashboard-page/dashboard-temp/src/pages/Dashboard/index.jsx:26-33 | missing or empty gives ''; a text with neither separator is returned unchanged |
| Dashboard.ExtractTimeOfStamp | dashboard-page/dashboard-temp/src/pages/Dashboard/index.jsx:27-29 | a stored stamp gives its `HH:MM:SS` |
| Dashboard.ExtractTimeOfIso | dashboard-page/dashboard-temp/src/pages/Dashboard/index.jsx:30-32 | an ISO text gives its `HH:MM:SS` |
| Dashboard.ExtractTimeOfLocale | dashboard-page/dashboard-temp/src/pages/Dashboard/index.jsx:27-29 | a pt-BR `dd/mm/yyyy, hh:mm:ss` text gives its time |
| Dashboard.IsoAndStampSameLabel | dashboard-page/dashboard-temp/src/pages/Dashboard/index.jsx:25-34 | an ISO text and the stamp made from it get the same label |
| Dashboard.LoadedRowLabel | dashboard-page/dashboard-temp/src/pages/Dashboard/index.jsx:43-46 | a loaded row is labelled with its stored time; with no formattedTime the label is '' |
| Dashboard.LiveAndReloadedLabels | dashboard-page/dashboard-temp/src/pages/Dashboard/index.jsx:63-68 | a `/leitura` row pushed live and the same row loaded later show the same values and label |
| Dashboard.RelayItemLabel | dashboard-page/dashboard-temp/src/pages/Dashboard/index.jsx:65-68 | an `/alerta` push is labelled with the time of its pt-BR stamp |
| Dashboard.KeepLast | dashboard-page/dashboard-temp/src/pages/Dashboard/index.jsx:69 | `slice(-200)` keeps the last min(n, 200) items |
| Dashboard.LiveAppend | dashboard-page/dashboard-temp/src/pages/Dashboard/index.jsx:64-70 | the new item is last, the list has between 1 and 200 items, and it is a suffix of the old list plus the item |
| Dashboard.LiveSeriesKeepsNewest | dashboard-page/dashboard-temp/src/pages/Dashboard/index.jsx:64-70 | any series of pushes leaves the last 200 of all the items |
| Dashboard.TableRows | dashboard-page/dashboard-temp/src/pages/Dashboard/index.jsx:372 | the table shows the first min(n, 10) items |
| Dashboard.TableShowsOldest | dashboard-page/dashboard-temp/src/pages/Dashboard/index.jsx:372 | after a load the table shows the 10 oldest readings of the answer, not the newest |
| Dashboard.LiveUpdateAndTable | dashboard-page/dashboard-temp/src/pages/Dashboard/index.jsx:372 | a live push shows in the table only while fewer than 10 items are held; at 200 the table slides by one |
| Dashboard.HighlightVersusAlertRules | dashboard-page/dashboard-temp/src/pages/Dashboard/index.jsx:127-132 | a hot alert is highlighted, a cold one is not; humidity outside 40..95 is highlighted, but 80..90 alerts on `/leitura` without highlight; a null humidity is always highlighted |
| Dashboard.SeqMin | dashboard-page/dashboard-temp/src/pages/Dashboard/index.jsx:113 | `Math.min` of the values is one of them and no greater than any |
| Dashboard.SeqMax | dashboard-page/dashboard-temp/src/pages/Dashboard/index.jsx:114 | `Math.max` of the values is one of them and no smaller than any |
| Dashboard.UmidAxisWithinPercent | dashboard-page/dashboard-temp/src/pages/Dashboard/index.jsx:243-244 | the humidity axis starts at 0 or above and ends at 100 or below, and it contains every point when all points are percentages |
| Dashboard.TempAxisAndPoints | dashboard-page/dashboard-temp/src/pages/Dashboard/index.jsx:165-166 | the temperature axis starts at or above 0; it contains every non-negative point and no negative one; it is non-empty iff some reading is above −5 |
| Dashboard.BannerForDay | dashboard-page/dashboard-temp/src/pages/Dashboard/index.jsx:47-49 | loading a day turns the banner on iff a stored row of that day has alerta set |
| Dashboard.ProjectKeepsAlerta | dashboard-page/dashboard-temp/src/pages/Dashboard/index.jsx:47 | `data.some(item => item.alerta)` over the projection is the same test over the rows |
| Dashboard.DashboardState.constructor | dashboard-page/dashboard-temp/src/pages/Dashboard/index.jsx:9-16 | the page starts on today's date in live mode, loads the data or shows the error, and shows the banner iff a loaded row has an alert |
| Dashboard.DashboardState.Load | dashboard-page/dashboard-temp/src/pages/Dashboard/index.jsx:37-55 | a load replaces the items or sets the error; it sets the banner and never clears it; loading ends |
| Dashboard.DashboardState.OnMessage | dashboard-page/dashboard-temp/src/pages/Dashboard/index.jsx:61-76 | an update appends through the 200-item window; `ALERTA` turns the banner on; nothing else changes |
| Dashboard.DashboardState.OnSocketError | dashboard-page/dashboard-temp/src/pages/Dashboard/index.jsx:77-80 | sets the live-connection error and nothing else |
| Dashboard.DashboardState.SelectDate | dashboard-page/dashboard-temp/src/pages/Dashboard/index.jsx:90-94 | the same date changes nothing; a new date reloads, and live mode is on iff it is today |
| Populate.SlotIsKept | node-backend/populateDB.js:26-28 | every slot index is a kept clock between 07:00 and 18:00, and its index maps back |
| Populate.KeptIsSlot | node-backend/populateDB.js:26-28 | every clock the loops keep is one of the 133 slots |
| Populate.SlotsIncreasing | node-backend/populateDB.js:26-31 | slots come in strictly increasing clock order |
| Populate.ProgressLogLines | node-backend/populateDB.js:64-67 | after n inserts there are n/100 progress lines; line j reports count 100(j+1) and that insert's stamp |
| Populate.SeededRowsShape | node-backend/populateDB.js:36-62 | seeded row i has id first+i, a humidity, the fixed number, and an alerta of 1/0 following the 95/40 rule; its stamp is well formed for a canonical ISO time |
| Populate.SeedReadingFields | node-backend/populateDB.js:30-62 | the reading written at (day, hour, minute) is built from that slot's instant shifted by −3 h |
| Populate.SeedPlanStep | node-backend/populateDB.js:56-67 | one successful insert extends the table, the count and the log exactly as planned |
| Populate.PopularBancoDeDados | node-backend/populateDB.js:14-78 | the table gains exactly the first `totalInserido` seeded rows, the id counter grows by `totalInserido`, and the log is theirs; it stops at the first failed insert; it completes iff all 19×133 inserts succeed |
| Populate.SeedDay | node-backend/populateDB.js:26-69 | a day inserts its 133 slots in order, or stops at its first failure |
| Populate.InsertSlot | node-backend/populateDB.js:28-67 | one loop body: it inserts this slot's reading iff the insert succeeds, and logs when the count reaches a multiple of 100 |

## Left out

- SQLite itself is not modelled. This covers the SQL text, `db.serialize`, the three `CREATE TABLE` statements, the
  `SIGINT` handlers and closing the database. The table is an in-memory sequence with an id counter, and every
  database call has a success flag passed in.
- `strftime('%Y-%m-%d %H:%M:%S', timestamp)` is modelled only for 19-character stamps. SQLite's own parsing of
  shorter forms and fractions, its range checks and its day-overflow normalisation are not modelled, and
  `FormattedTimeShape` holds for valid calendar stamps only.
- The `numero` column is `TEXT NOT NULL`. SQLite's conversion of a numeric or boolean `numero` to text is not
  modelled: the request's value is kept as it is in the stored row.
- `DATE(timestamp) = DATE(date)` is modelled as "the first 10 characters equal the date". SQLite's date parsing is
  not part of this model, and neither is the SQL injection through the interpolated `date`.
- The `timestamp` column default (`strftime(... 'localtime')`) is passed to `PostLeitura` as a text. Which
  separator the live schema gives it (a 'T' in `routes/index.js`, something else in `config/database.js`) is not
  fixed by the model. `FormattedTime` accepts both.
- Ties in `ORDER BY timestamp DESC` have no order in SQLite. The model picks one admissible order: a stable
  insertion sort.
- The WhatsApp client (`whatsapp.js`, `whatsappService.js`) is not part of this model. `isClientReady` and the
  success of `enviarMensagem` are booleans passed in.
- The WebSocket and HTTP libraries are not modelled. This covers the `wss`/`http.createServer` set-up, static files,
  the browser socket lifecycle (opening, cleanup on unmount) and `JSON.stringify`. What a socket receives is
  modelled as a list of events per client.
- The `if (req.app.locals.broadcastData)` guard at routes/index.js:117 is taken as always true, because `app.js`
  always defines the function.
- Clocks, calendars and locales are not modelled. Current instants, `toISOString`, `toLocaleString('pt-BR')`,
  `setDate`/`setHours` and `process.env.TZ` are parameters.
  - Populate.PopularBancoDeDados: the number of days (19, from 2025-04-14 to 2025-05-02) is a constant. It is not
    computed from calendar arithmetic.
- Populate.SeedReading: `Math.sin`/`Math.random`/`Math.round`/`toFixed` value generation is not modelled. The
  temperature and the integer humidity of each insert are functions passed in.
- Floating point is not modelled: readings are reals and NaN does not occur. The dashboard averages and `toFixed`
  display are left out.
- JavaScript coercion of a non-number humidity on `/leitura` is not modelled. A JSON `null` would compare as 0 in
  `umidade < 20.0`. The body's humidity is absent-or-number.
- Chart.js rendering, zoom, alert audio, the loading and error screens, and React effect scheduling are not
  modelled. Each handler of the page is one atomic state change.
- `GET /`, `GET /health` and `GET /dados` (`dadosController.js` forwards `obterLeituras()` with the default limit)
  are not modelled.
- `error.message` in the 500 replies (shown only in development) is not modelled. Console logging is not modelled.
- Concurrent requests are not modelled. Each request is one atomic step.
- The dashboard computes "today" with UTC (`toISOString`), while stamps are Brasília time. The model takes
  `nowIso` as given and does not relate the two.
- Dashboard.ExtractTime: its own contract bounds only the length. The exact result for each branch is stated by
  the `ExtractTimeAfter…` and `ExtractTimeOtherwise` lemmas.
- DatabaseService.NowStamp: its own contract bounds only the length. The shape for a canonical ISO text is stated
  by `NowStampWellFormed`.
