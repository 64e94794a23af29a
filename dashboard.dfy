/** The browser dashboard: the clock label it extracts from a time text, the
    items it keeps (loaded history plus live updates, the last 200), the
    readings table, the point highlights and the chart axes, and the
    component state the page mutates (data, alert banner, selected date,
    live mode, loading and error flags). */
module Dashboard {
  import opened Common
  import opened Alert
  import opened Timestamps
  import opened Readings
  import opened Messages
  import opened Routes

  // ---------------------------------------------------------------- clock labels

  /** `extractTime`: '' for a missing or empty text; the field after the
      first space; else up to 8 characters after the first `T`; else the
      text itself. */
  function ExtractTime(s: Option<string>): (r: string)
    ensures s.Some? ==> |r| <= |s.value|
  {
    if s.None? || s.value == "" then ""
    else if ' ' in s.value then SecondField(s.value, ' ')
    else if 'T' in s.value then Prefix(SecondField(s.value, 'T'), 8)
    else s.value
  }

  /** With a space, `extractTime` returns the text between the first space
      and the next space (or the end). */
  lemma ExtractTimeAfterSpace(s: string)
    requires ' ' in s
    ensures var r, k := ExtractTime(Some(s)), IndexOf(s, ' ');
      && k < |s| && s[k] == ' ' && ' ' !in s[..k]
      && ' ' !in r && r <= s[k + 1..]
      && (k + 1 + |r| == |s| || s[k + 1 + |r|] == ' ')
  {
    IndexOfFirst(s, ' ');
    var k := IndexOf(s, ' ');
    IndexOfFirst(s[k + 1..], ' ');
    assert ' ' !in s[..k] by {
      forall j | 0 <= j < k ensures s[..k][j] != ' ' { assert s[..k][j] == s[j]; }
    }
  }

  /** With a `T` and no space, `extractTime` returns at most 8 characters
      after the first `T`, stopping at the next `T`. */
  lemma ExtractTimeAfterT(s: string)
    requires ' ' !in s && 'T' in s
    ensures var r, k := ExtractTime(Some(s)), IndexOf(s, 'T');
      && k < |s| && s[k] == 'T' && 'T' !in s[..k]
      && 'T' !in r && r <= s[k + 1..] && |r| <= 8
      && (|r| == 8 || k + 1 + |r| == |s| || s[k + 1 + |r|] == 'T')
  {
    IndexOfFirst(s, 'T');
    var k := IndexOf(s, 'T');
    IndexOfFirst(s[k + 1..], 'T');
    assert 'T' !in s[..k] by {
      forall j | 0 <= j < k ensures s[..k][j] != 'T' { assert s[..k][j] == s[j]; }
    }
  }

  /** A missing or empty text gives ''; a text with neither a space nor a
      `T` comes back unchanged. */
  lemma ExtractTimeOtherwise(s: string)
    ensures ExtractTime(None) == "" && ExtractTime(Some("")) == ""
    ensures ' ' !in s && 'T' !in s ==> ExtractTime(Some(s)) == s
  {
  }

  /** On a stored `YYYY-MM-DD HH:MM:SS` text the label is its clock part. */
  lemma ExtractTimeOfStamp(ts: string)
    requires StoredStamp(ts)
    ensures ExtractTime(Some(ts)) == ts[11..19]
  {
    IndexOfFirst(ts, ' ');
    var k := IndexOf(ts, ' ');
    forall j | 0 <= j < 10 ensures ts[j] != ' ' {
      assert j in StampSeparators || IsDigit(ts[j]);
    }
    var rest := ts[11..];
    assert ' ' !in rest by {
      forall j | 0 <= j < |rest| ensures rest[j] != ' ' {
        assert rest[j] == ts[11 + j];
        assert 11 + j in StampSeparators || IsDigit(ts[11 + j]);
      }
    }
    IndexOfFirst(rest, ' ');
    assert rest[..IndexOf(rest, ' ')] == rest;
  }

  /** On a `toISOString` text the label is the clock part after the `T`. */
  lemma ExtractTimeOfIso(iso: string)
    requires CanonicalIso(iso)
    ensures ExtractTime(Some(iso)) == iso[11..19]
  {
    assert ' ' !in iso by {
      forall j | 0 <= j < |iso| ensures iso[j] != ' ' {
        assert j in IsoSeparators || IsDigit(iso[j]);
      }
    }
    IndexOfCanonicalT(iso);
    var rest := iso[11..];
    assert 'T' !in rest by {
      forall j | 0 <= j < |rest| ensures rest[j] != 'T' {
        assert rest[j] == iso[11 + j];
        assert 11 + j in IsoSeparators || IsDigit(iso[11 + j]);
      }
    }
    IndexOfFirst(rest, 'T');
    assert rest[..IndexOf(rest, 'T')] == rest;
  }

  /** Positions of the non-digit characters of `dd/mm/yyyy, hh:mm:ss`. */
  const LocaleSeparators: set<int> := {2, 5, 10, 11, 14, 17}

  /** The `dd/mm/yyyy, hh:mm:ss` text of `toLocaleString('pt-BR')`. */
  predicate LocaleText(s: string)
  {
    && |s| == 20
    && s[2] == '/' && s[5] == '/' && s[10] == ',' && s[11] == ' ' && s[14] == ':' && s[17] == ':'
    && forall i :: 0 <= i < 20 && i !in LocaleSeparators ==> IsDigit(s[i])
  }

  /** On a pt-BR local time text the label is the clock part after the space. */
  lemma ExtractTimeOfLocale(s: string)
    requires LocaleText(s)
    ensures ExtractTime(Some(s)) == s[12..20]
  {
    IndexOfFirst(s, ' ');
    var k := IndexOf(s, ' ');
    forall j | 0 <= j < 11 ensures s[j] != ' ' {
      assert j in LocaleSeparators || IsDigit(s[j]);
    }
    var rest := s[12..];
    assert ' ' !in rest by {
      forall j | 0 <= j < |rest| ensures rest[j] != ' ' {
        assert rest[j] == s[12 + j];
        assert 12 + j in LocaleSeparators || IsDigit(s[12 + j]);
      }
    }
    IndexOfFirst(rest, ' ');
    assert rest[..IndexOf(rest, ' ')] == rest;
  }

  /** An ISO text and the stamp stored from it get the same label. */
  lemma IsoAndStampSameLabel(iso: string)
    requires CanonicalIso(iso)
    ensures ExtractTime(Some(iso)) == ExtractTime(Some(StampFromIso(iso))) == iso[11..19]
  {
    StampFromCanonical(iso);
    ExtractTimeOfIso(iso);
    ExtractTimeOfStamp(StampFromIso(iso));
  }

  // ---------------------------------------------------------------- items

  /** One entry of `sensorData`: the fields the page reads. */
  datatype Item = Item(temperatura: real, umidade: Option<real>, alerta: bool, localTime: Option<string>)

  /** `a || b` on texts that may be missing. */
  function OrElse(a: Option<string>, b: Option<string>): Option<string>
  {
    if a.Some? && a.value != "" then a else b
  }

  /** A history row with `localTime: item.formattedTime || item.timestamp`;
      the history answer has no `timestamp` column, so the fallback is
      `undefined`. */
  function InitialItem(r: SensorRow): Item
  {
    Item(r.temperatura, r.umidade, r.alerta != 0, OrElse(r.formattedTime, None))
  }

  function InitialItems(data: seq<SensorRow>): seq<Item>
  {
    seq(|data|, i requires 0 <= i < |data| => InitialItem(data[i]))
  }

  /** A live ATUALIZAR_DASHBOARD payload with `localTime: data.formattedTime
      || data.timestamp`; the relay payload has no `formattedTime`. */
  function LiveItem(d: DashboardData): Item
  {
    match d
    case RowUpdate(row, ft, _) =>
      Item(row.temperatura, row.umidade, row.alerta != 0, OrElse(ft, Some(row.timestamp)))
    case RelayUpdate(_, t, u, a, _, ts) => Item(t, Some(u), a, Some(ts))
  }

  /** A history row whose stamp `strftime` formats is labelled with the
      stamp's clock part; one it does not format gets an empty label. */
  lemma LoadedRowLabel(row: Reading)
    ensures FormattedTime(row.timestamp).Some? ==>
      ExtractTime(InitialItem(ToSensorRow(row)).localTime) == row.timestamp[11..19]
    ensures FormattedTime(row.timestamp).None? ==>
      InitialItem(ToSensorRow(row)).localTime.None? && ExtractTime(InitialItem(ToSensorRow(row)).localTime) == ""
  {
    FormattedTimeShape(row.timestamp);
    var ft := FormattedTime(row.timestamp);
    if ft.Some? {
      ExtractTimeOfStamp(ft.value);
      assert ft.value[11..19] == row.timestamp[11..19];
    }
  }

  /** The broadcast of POST /leitura and a later reload give a row the same
      label when its stamp is formattable; otherwise the live item keeps the
      raw stamp while the reloaded item has none. */
  lemma LiveAndReloadedLabels(row: Reading)
    ensures var ft := FormattedTime(row.timestamp);
      var live := LiveItem(RowUpdate(row, ft, ft));
      var loaded := InitialItem(ToSensorRow(row));
      && live.temperatura == loaded.temperatura && live.umidade == loaded.umidade
      && live.alerta == loaded.alerta
      && (ft.Some? ==> ExtractTime(live.localTime) == ExtractTime(loaded.localTime) == row.timestamp[11..19])
      && (ft.None? ==> live.localTime == Some(row.timestamp) && loaded.localTime.None?)
  {
    LoadedRowLabel(row);
  }

  /** A relay update is labelled with the clock part of its pt-BR time. */
  lemma RelayItemLabel(id: nat, t: real, u: real, a: bool, numero: JsValue, ts: string)
    requires LocaleText(ts)
    ensures var it := LiveItem(RelayUpdate(id, t, u, a, numero, ts));
      it.umidade == Some(u) && it.alerta == a && ExtractTime(it.localTime) == ts[12..20]
  {
    ExtractTimeOfLocale(ts);
  }

  // ---------------------------------------------------------------- live window

  /** How many items `newData.slice(-200)` keeps. */
  const LiveWindow: nat := 200

  /** `slice(-200)`: the last 200 items, or all of them. */
  function KeepLast<T>(s: seq<T>): (r: seq<T>)
    ensures |r| == if |s| <= LiveWindow then |s| else LiveWindow
    ensures r == s[|s| - |r|..]
  {
    if |s| <= LiveWindow then s else s[|s| - LiveWindow..]
  }

  /** The updater `prev => [...prev, item].slice(-200)`: the item becomes the
      last entry, at most 200 entries remain, and they are the newest ones. */
  function LiveAppend<T>(prev: seq<T>, x: T): (r: seq<T>)
    ensures 0 < |r| <= LiveWindow && r[|r| - 1] == x
    ensures |r| == if |prev| < LiveWindow then |prev| + 1 else LiveWindow
    ensures r == (prev + [x])[|prev| + 1 - |r|..]
  {
    KeepLast(prev + [x])
  }

  /** A series of live updates applied one after the other. */
  function LiveSeries<T>(prev: seq<T>, xs: seq<T>): seq<T>
    decreases |xs|
  {
    if |xs| == 0 then prev else LiveSeries(LiveAppend(prev, xs[0]), xs[1..])
  }

  /** Cutting to the last 200 before appending changes nothing. */
  lemma KeepLastAbsorbs<T>(a: seq<T>, b: seq<T>)
    ensures KeepLast(KeepLast(a) + b) == KeepLast(a + b)
  {
    if |a| > LiveWindow {
      var k := KeepLast(a);
      assert k + b == (a + b)[|a| - LiveWindow..];
    }
  }

  /** After any non-empty series of live updates the page holds the last 200
      of everything it has seen: the loaded items followed by the updates. */
  lemma {:induction false} LiveSeriesKeepsNewest<T>(prev: seq<T>, xs: seq<T>)
    requires |xs| > 0
    ensures LiveSeries(prev, xs) == KeepLast(prev + xs)
    decreases |xs|
  {
    var next := KeepLast(prev + [xs[0]]);
    if |xs| == 1 {
      assert prev + xs == prev + [xs[0]];
    } else {
      calc {
        LiveSeries(prev, xs);
        LiveSeries(next, xs[1..]);
        { LiveSeriesKeepsNewest(next, xs[1..]); }
        KeepLast(next + xs[1..]);
        { KeepLastAbsorbs(prev + [xs[0]], xs[1..]); }
        KeepLast(prev + [xs[0]] + xs[1..]);
        { assert prev + [xs[0]] + xs[1..] == prev + xs; }
        KeepLast(prev + xs);
      }
    }
  }

  // ---------------------------------------------------------------- readings table

  /** How many rows `sensorData.slice(0, 10)` shows. */
  const TableSize: nat := 10

  /** The readings table: the first 10 entries. */
  function TableRows<T>(s: seq<T>): (r: seq<T>)
    ensures |r| == if |s| <= TableSize then |s| else TableSize
    ensures r <= s
  {
    if |s| <= TableSize then s else s[..TableSize]
  }

  /** After a history load the table shows the oldest rows of the answer,
      not the newest: every shown row is no newer than every hidden one. */
  lemma TableShowsOldest(rows: seq<Reading>, date: Option<string>)
    ensures var answer := SensorDataRows(rows, date);
      var table := TableRows(InitialItems(Project(answer)));
      && |table| == (if |answer| <= TableSize then |answer| else TableSize)
      && (forall i :: 0 <= i < |table| ==> table[i] == InitialItem(ToSensorRow(answer[i])))
      && forall i, j :: 0 <= i < |table| <= j < |answer| ==>
           LexLe(answer[i].timestamp, answer[j].timestamp)
  {
  }

  /** A live update reaches the table only while it has fewer than 10
      entries; once it has 10 the table changes only when the window slides. */
  lemma LiveUpdateAndTable<T>(prev: seq<T>, x: T)
    ensures |prev| < TableSize ==> TableRows(LiveAppend(prev, x)) == prev + [x]
    ensures TableSize <= |prev| < LiveWindow ==> TableRows(LiveAppend(prev, x)) == TableRows(prev)
    ensures LiveWindow <= |prev| ==>
      TableRows(LiveAppend(prev, x)) == prev[|prev| - LiveWindow + 1..|prev| - LiveWindow + 1 + TableSize]
  {
    var r := LiveAppend(prev, x);
    if TableSize <= |prev| < LiveWindow {
      assert r[..TableSize] == prev[..TableSize];
    }
  }

  // ---------------------------------------------------------------- highlights

  /** A temperature point is drawn red above 25 degrees. */
  predicate TempHighlighted(t: real)
  {
    t > 25.0
  }

  /** The number a humidity compares as: JSON `null` compares as 0. */
  function UmidNumber(u: Option<real>): real
  {
    if u.None? then 0.0 else u.value
  }

  /** A humidity point is drawn red below 60 % or above 90 %. */
  predicate UmidHighlighted(u: Option<real>)
  {
    UmidNumber(u) < 60.0 || UmidNumber(u) > 90.0
  }

  /** How the highlights relate to the alert rules: a hot alert is always
      red, a cold alert never is, and 25..26 degrees is red without an alert;
      every humidity outside the relay band is red, 80..90 % alerts on the
      device rule without being red, and a missing humidity is red although
      the device rule ignores it. */
  lemma HighlightVersusAlertRules(t: real, u: real)
    ensures t > TempHigh ==> TempHighlighted(t)
    ensures t < TempLow ==> !TempHighlighted(t)
    ensures 25.0 < t <= TempHigh ==> TempHighlighted(t) && TempLow <= t
    ensures u < 40.0 || u > 95.0 ==> UmidHighlighted(Some(u))
    ensures 80.0 < u <= 90.0 ==> LeituraAlert(t, Some(u)) && !UmidHighlighted(Some(u))
    ensures UmidHighlighted(None)
    ensures TempLow <= t <= TempHigh ==> !LeituraAlert(t, None)
  {
  }

  // ---------------------------------------------------------------- chart axes

  /** `Math.min(...values)` of a non-empty list. */
  function SeqMin(s: seq<real>): (m: real)
    requires |s| > 0
    ensures m in s && forall x :: x in s ==> m <= x
  {
    if |s| == 1 then s[0]
    else
      var m := SeqMin(s[1..]);
      assert forall x :: x in s ==> x == s[0] || x in s[1..];
      if s[0] <= m then s[0] else m
  }

  /** `Math.max(...values)` of a non-empty list. */
  function SeqMax(s: seq<real>): (m: real)
    requires |s| > 0
    ensures m in s && forall x :: x in s ==> x <= m
  {
    if |s| == 1 then s[0]
    else
      var m := SeqMax(s[1..]);
      assert forall x :: x in s ==> x == s[0] || x in s[1..];
      if s[0] >= m then s[0] else m
  }

  function Max(a: real, b: real): real { if a >= b then a else b }
  function Min(a: real, b: real): real { if a <= b then a else b }

  datatype Axis = Axis(lo: real, hi: real)

  function TempValues(items: seq<Item>): seq<real>
  {
    seq(|items|, i requires 0 <= i < |items| => items[i].temperatura)
  }

  function UmidValues(items: seq<Item>): seq<real>
  {
    seq(|items|, i requires 0 <= i < |items| => UmidNumber(items[i].umidade))
  }

  /** The temperature axis, `max(0, min - 5)` to `max + 5`; the chart is
      drawn only when there is data. */
  function TempAxis(items: seq<Item>): Axis
    requires |items| > 0
  {
    Axis(Max(0.0, SeqMin(TempValues(items)) - 5.0), SeqMax(TempValues(items)) + 5.0)
  }

  /** The humidity axis, `max(0, min - 5)` to `min(100, max + 5)`. */
  function UmidAxis(items: seq<Item>): Axis
    requires |items| > 0
  {
    Axis(Max(0.0, SeqMin(UmidValues(items)) - 5.0), Min(100.0, SeqMax(UmidValues(items)) + 5.0))
  }

  /** The humidity axis starts at 0 or above and ends at 100 or below, and
      when every humidity is a percentage every point lies on it. */
  lemma UmidAxisWithinPercent(items: seq<Item>)
    requires |items| > 0
    ensures 0.0 <= UmidAxis(items).lo && UmidAxis(items).hi <= 100.0
    ensures (forall i :: 0 <= i < |items| ==> 0.0 <= UmidNumber(items[i].umidade) <= 100.0) ==>
      && UmidAxis(items).lo <= UmidAxis(items).hi
      && forall i :: 0 <= i < |items| ==>
           UmidAxis(items).lo <= UmidNumber(items[i].umidade) <= UmidAxis(items).hi
  {
    var vs := UmidValues(items);
    forall i | 0 <= i < |items| ensures SeqMin(vs) <= UmidNumber(items[i].umidade) <= SeqMax(vs) {
      assert vs[i] == UmidNumber(items[i].umidade);
      assert vs[i] in vs;
    }
  }

  /** The temperature axis starts at 0 or above: points at or above zero lie
      on it, a reading below zero falls under its bottom, and the axis is a
      proper range exactly when some reading is above -5 degrees. */
  lemma TempAxisAndPoints(items: seq<Item>)
    requires |items| > 0
    ensures 0.0 <= TempAxis(items).lo
    ensures forall i :: 0 <= i < |items| && items[i].temperatura >= 0.0 ==>
      TempAxis(items).lo <= items[i].temperatura <= TempAxis(items).hi
    ensures forall i :: 0 <= i < |items| && items[i].temperatura < 0.0 ==>
      items[i].temperatura < TempAxis(items).lo
    ensures TempAxis(items).lo < TempAxis(items).hi <==>
      exists i :: 0 <= i < |items| && items[i].temperatura > -5.0
  {
    var vs := TempValues(items);
    forall i | 0 <= i < |items| ensures SeqMin(vs) <= items[i].temperatura <= SeqMax(vs) {
      assert vs[i] == items[i].temperatura;
      assert vs[i] in vs;
    }
    var k :| 0 <= k < |vs| && vs[k] == SeqMax(vs);
    assert items[k].temperatura == SeqMax(vs);
  }

  // ---------------------------------------------------------------- page state

  /** What `fetch('/api/sensor-data...')` yields: the JSON rows, a non-ok
      status, or a rejection with its message. */
  datatype FetchResult = FetchOk(data: seq<SensorRow>) | FetchNotOk | FetchFailed(message: string)

  /** The texts the page shows on its error screen. */
  datatype PageError =
    | LoadFailed                 // 'Erro ao carregar dados'
    | FetchError(message: string)
    | LiveConnectionFailed       // 'Erro na conexão em tempo real'

  function FetchErrorOf(response: FetchResult): PageError
    requires !response.FetchOk?
  {
    if response.FetchNotOk? then LoadFailed else FetchError(response.message)
  }

  /** `data.some(item => item.alerta)`. */
  predicate SomeAlerta(data: seq<SensorRow>)
  {
    exists i :: 0 <= i < |data| && data[i].alerta != 0
  }

  /** The banner after loading a day's history is raised exactly when some
      stored reading of that day carries the alert flag. */
  lemma BannerForDay(rows: seq<Reading>, d: string)
    requires d != ""
    ensures SomeAlerta(Project(SensorDataRows(rows, Some(d)))) <==>
      exists x :: x in rows && OnDate(x, d) && x.alerta != 0
  {
    var answer := SensorDataRows(rows, Some(d));
    SensorDataForDate(rows, d);
    ProjectKeepsAlerta(answer);
  }

  /** Projecting rows to the answer keeps which rows carry the flag. */
  lemma ProjectKeepsAlerta(answer: seq<Reading>)
    ensures SomeAlerta(Project(answer)) <==> exists x :: x in answer && x.alerta != 0
  {
    var data := Project(answer);
    if SomeAlerta(data) {
      var i :| 0 <= i < |data| && data[i].alerta != 0;
      assert answer[i] in answer;
    }
    if x :| x in answer && x.alerta != 0 {
      var i :| 0 <= i < |answer| && answer[i] == x;
      assert data[i].alerta != 0;
    }
  }

  /** The `Dashboard` component's state. */
  class DashboardState {
    var sensorData: seq<Item>
    var loading: bool
    var error: Option<PageError>
    var alertaAtivo: bool
    var selectedDate: string
    var realTimeEnabled: bool

    /** Mounting: today's date (`toISOString().split('T')[0]`) selected, live
        mode on, banner off, then the first history load. */
    constructor(nowIso: string, response: FetchResult)
      ensures selectedDate == DatePart(nowIso) && realTimeEnabled && !loading
      ensures response.FetchOk? ==> sensorData == InitialItems(response.data) && error.None?
      ensures !response.FetchOk? ==> sensorData == [] && error == Some(FetchErrorOf(response))
      ensures alertaAtivo <==> response.FetchOk? && SomeAlerta(response.data)
    {
      sensorData := [];
      loading := true;
      error := None;
      alertaAtivo := false;
      selectedDate := DatePart(nowIso);
      realTimeEnabled := true;
      new;
      Load(response);
      realTimeEnabled := selectedDate == DatePart(nowIso);
    }

    /** `fetchInitialData`: the rows replace the data and may raise the
        banner, a failure sets the error; loading ends either way. Nothing
        here clears the banner or an earlier error. */
    method Load(response: FetchResult)
      modifies this
      ensures !loading
      ensures sensorData == if response.FetchOk? then InitialItems(response.data) else old(sensorData)
      ensures error == if response.FetchOk? then old(error) else Some(FetchErrorOf(response))
      ensures alertaAtivo == (old(alertaAtivo) || (response.FetchOk? && SomeAlerta(response.data)))
      ensures selectedDate == old(selectedDate) && realTimeEnabled == old(realTimeEnabled)
    {
      if response.FetchOk? {
        sensorData := InitialItems(response.data);
        if SomeAlerta(response.data) {
          alertaAtivo := true;
        }
      } else {
        error := Some(FetchErrorOf(response));
      }
      loading := false;
    }

    /** The socket's `onmessage`: an ATUALIZAR_DASHBOARD update is appended
        within the 200-item window, an ALERTA raises the banner. */
    method OnMessage(ev: Event)
      modifies this
      ensures sensorData == if ev.AtualizarDashboard? then LiveAppend(old(sensorData), LiveItem(ev.update))
                            else old(sensorData)
      ensures alertaAtivo == (old(alertaAtivo) || ev.Alerta?)
      ensures loading == old(loading) && error == old(error)
      ensures selectedDate == old(selectedDate) && realTimeEnabled == old(realTimeEnabled)
    {
      if ev.AtualizarDashboard? {
        sensorData := LiveAppend(sensorData, LiveItem(ev.update));
      }
      if ev.Alerta? {
        alertaAtivo := true;
      }
    }

    /** The socket's `onerror`. */
    method OnSocketError()
      modifies this
      ensures error == Some(LiveConnectionFailed)
      ensures sensorData == old(sensorData) && loading == old(loading) && alertaAtivo == old(alertaAtivo)
      ensures selectedDate == old(selectedDate) && realTimeEnabled == old(realTimeEnabled)
    {
      error := Some(LiveConnectionFailed);
    }

    /** Picking a date: an unchanged date re-runs nothing; a new one reloads
        the history and turns live mode on exactly when it is today. */
    method SelectDate(d: string, nowIso: string, response: FetchResult)
      modifies this
      ensures d == old(selectedDate) ==>
        && sensorData == old(sensorData) && loading == old(loading) && error == old(error)
        && alertaAtivo == old(alertaAtivo) && selectedDate == old(selectedDate)
        && realTimeEnabled == old(realTimeEnabled)
      ensures d != old(selectedDate) ==>
        && selectedDate == d
        && (realTimeEnabled <==> d == DatePart(nowIso))
        && !loading
        && sensorData == (if response.FetchOk? then InitialItems(response.data) else old(sensorData))
        && error == (if response.FetchOk? then old(error) else Some(FetchErrorOf(response)))
        && alertaAtivo == (old(alertaAtivo) || (response.FetchOk? && SomeAlerta(response.data)))
    {
      if d == selectedDate {
        return;
      }
      selectedDate := d;
      Load(response);
      realTimeEnabled := d == DatePart(nowIso);
    }
  }
}
