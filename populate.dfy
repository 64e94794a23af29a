/** The seed script that fills the readings table with synthetic history:
    every day from 2025-04-14 to 2025-05-02, one reading every five minutes
    from 07:00 to 18:00, flagged by the relay alert rule and stamped with the
    Brasilia-shifted time. The generated values, the local-time calendar and
    the `toISOString` text are inputs. */
module Populate {
  import opened Common
  import opened Alert
  import opened Timestamps
  import opened Readings

  /** Readings per day: hours 7..17 at every fifth minute, plus 18:00. */
  const SlotsPerDay: nat := 133

  /** Calendar days from 2025-04-14 to 2025-05-02, both included. */
  const SeedDays: nat := 19

  /** Readings the script writes when every insert succeeds. */
  const SeedTotal: nat := SeedDays * SlotsPerDay

  const NumeroTeste: string := "5511987654321"

  // ---------------------------------------------------------------- day slots

  datatype Clock = Clock(hora: nat, minuto: nat)

  /** The clocks the hour and minute loops reach without `continue`. */
  predicate Kept(c: Clock)
  {
    7 <= c.hora <= 18 && c.minuto < 60 && c.minuto % 5 == 0 && !(c.hora == 18 && c.minuto > 0)
  }

  /** The k-th clock of a day, in loop order. */
  function Slot(k: nat): Clock
    requires k < SlotsPerDay
  {
    Clock(7 + k / 12, (k % 12) * 5)
  }

  /** The position of a clock in the day's loop order. */
  function SlotIndex(c: Clock): nat
    requires c.hora >= 7
  {
    (c.hora - 7) * 12 + c.minuto / 5
  }

  /** `a` comes strictly before `b` on the same day. */
  predicate Earlier(a: Clock, b: Clock)
  {
    a.hora < b.hora || (a.hora == b.hora && a.minuto < b.minuto)
  }

  /** Every slot is a kept clock at or after 07:00 and no later than 18:00,
      and it sits at its own position. */
  lemma SlotIsKept(k: nat)
    requires k < SlotsPerDay
    ensures Kept(Slot(k)) && SlotIndex(Slot(k)) == k
    ensures 7 * 60 <= Slot(k).hora * 60 + Slot(k).minuto <= 18 * 60
  {
  }

  /** Every kept clock is one of the 133 slots: together with SlotIsKept the
      slots are exactly the kept clocks, each once. */
  lemma KeptIsSlot(c: Clock)
    requires Kept(c)
    ensures SlotIndex(c) < SlotsPerDay && Slot(SlotIndex(c)) == c
  {
    var k := SlotIndex(c);
    assert k / 12 == c.hora - 7 && k % 12 == c.minuto / 5;
  }

  /** Slots come out in strictly increasing time order. */
  lemma SlotsIncreasing(j: nat, k: nat)
    requires j < k < SlotsPerDay
    ensures Earlier(Slot(j), Slot(k))
  {
  }

  // ---------------------------------------------------------------- planned rows

  /** What the script takes from outside: the generated temperature and
      humidity of the n-th reading, the local-time instant of a day and clock
      (`setDate`/`setHours`), `toISOString`, and whether the n-th insert
      succeeds. */
  datatype Sources = Sources(
    temperatura: nat -> real,
    umidade: nat -> int,
    instant: (nat, nat, nat) -> int,
    isoOf: int -> string,
    insertOk: nat -> bool)

  /** The n-th reading the script writes, before the table gives it an id:
      day n / 133 at slot n % 133, humidity stored as given (never NULL), the
      relay flag, the fixed number, and the stamp of the instant shifted by
      -3 h. */
  function SeedReading(id: nat, n: nat, src: Sources): Reading
  {
    var c := Slot(n % SlotsPerDay);
    var t := src.temperatura(n);
    var u := src.umidade(n);
    Reading(id, t, Some(u as real), RelayAlertFlag(t, u as real), Str(NumeroTeste),
            SeedStamp(src.isoOf(ShiftToBrasilia(src.instant(n / SlotsPerDay, c.hora, c.minuto)))))
  }

  /** The first `count` readings, with consecutive ids from `firstId`. */
  function SeededRows(firstId: nat, count: nat, src: Sources): seq<Reading>
  {
    seq(count, i requires 0 <= i < count => SeedReading(firstId + i, i, src))
  }

  /** One console line `Inseridos N registros... Ultimo: stamp`. */
  datatype Progress = Progress(count: nat, ultimo: string)

  /** The progress lines after `count` inserts: after each insert, a line
      when the new count is a multiple of 100, quoting that insert's stamp. */
  function ProgressLog(firstId: nat, count: nat, src: Sources): seq<Progress>
  {
    if count == 0 then []
    else
      ProgressLog(firstId, count - 1, src)
      + if count % 100 == 0 then [Progress(count, SeedReading(firstId + count - 1, count - 1, src).timestamp)]
        else []
  }

  /** The log holds exactly one line per full hundred: the j-th says 100 *
      (j + 1) and quotes the stamp of that reading. */
  lemma {:induction false} ProgressLogLines(firstId: nat, count: nat, src: Sources)
    ensures |ProgressLog(firstId, count, src)| == count / 100
    ensures forall j :: 0 <= j < count / 100 ==>
      ProgressLog(firstId, count, src)[j]
        == Progress(100 * (j + 1), SeedReading(firstId + 100 * j + 99, 100 * j + 99, src).timestamp)
  {
    if count > 0 {
      ProgressLogLines(firstId, count - 1, src);
      HundredStep(count - 1);
    }
  }

  /** Every seeded row carries the relay flag as 1/0, a humidity, the test
      number and a `YYYY-MM-DD HH:MM:SS` stamp whenever `toISOString` gives a
      canonical text; ids are consecutive. */
  lemma SeededRowsShape(firstId: nat, count: nat, src: Sources)
    ensures var rows := SeededRows(firstId, count, src);
      && |rows| == count
      && forall i :: 0 <= i < count ==>
        && rows[i].id == firstId + i
        && rows[i].umidade.Some? && rows[i].numero == Str(NumeroTeste)
        && (rows[i].alerta == 1 <==> RelayAlert(rows[i].temperatura, rows[i].umidade.value))
        && (rows[i].alerta == 0 || rows[i].alerta == 1)
    ensures forall i :: 0 <= i < count ==>
      var c := Slot(i % SlotsPerDay);
      var iso := src.isoOf(ShiftToBrasilia(src.instant(i / SlotsPerDay, c.hora, c.minuto)));
      CanonicalIso(iso) ==> StoredStamp(SeededRows(firstId, count, src)[i].timestamp)
  {
    var rows := SeededRows(firstId, count, src);
    forall i | 0 <= i < count
      ensures rows[i].id == firstId + i && rows[i].numero == Str(NumeroTeste)
      ensures rows[i].umidade.Some? && (rows[i].alerta == 0 || rows[i].alerta == 1)
      ensures rows[i].alerta == 1 <==> RelayAlert(rows[i].temperatura, rows[i].umidade.value)
      ensures var c := Slot(i % SlotsPerDay);
        var iso := src.isoOf(ShiftToBrasilia(src.instant(i / SlotsPerDay, c.hora, c.minuto)));
        CanonicalIso(iso) ==> StoredStamp(rows[i].timestamp)
    {
      assert rows[i] == SeedReading(firstId + i, i, src);
      var c := Slot(i % SlotsPerDay);
      var iso := src.isoOf(ShiftToBrasilia(src.instant(i / SlotsPerDay, c.hora, c.minuto)));
      assert rows[i].timestamp == SeedStamp(iso);
      if CanonicalIso(iso) {
        SeedStampAgrees(iso);
        StampFromCanonical(iso);
      }
    }
  }

  /** One more insert appends one more planned row. */
  lemma SeededRowsStep(firstId: nat, count: nat, src: Sources)
    ensures SeededRows(firstId, count + 1, src)
         == SeededRows(firstId, count, src) + [SeedReading(firstId + count, count, src)]
  {
  }

  /** How the number of whole hundreds grows by one insert. */
  lemma HundredStep(count: nat)
    ensures (count + 1) % 100 == 0 ==> (count + 1) / 100 == count / 100 + 1 && 100 * (count / 100) + 99 == count
    ensures (count + 1) % 100 != 0 ==> (count + 1) / 100 == count / 100
  {
  }

  /** Appending the next planned reading to a table holding the first `n`
      gives the first `n + 1`. */
  lemma PlanStep(before: seq<Reading>, rows: seq<Reading>, firstId: nat, n: nat, src: Sources)
    requires rows == before + SeededRows(firstId, n, src)
    ensures rows + [SeedReading(firstId + n, n, src)] == before + SeededRows(firstId, n + 1, src)
  {
    SeededRowsStep(firstId, n, src);
  }

  /** The global position of a day's slot: day `day`, slot `k`. */
  lemma DaySlotPosition(day: nat, k: nat)
    requires k < SlotsPerDay
    ensures (day * SlotsPerDay + k) / SlotsPerDay == day
    ensures (day * SlotsPerDay + k) % SlotsPerDay == k
  {
  }

  /** The n-th planned reading, read off the day and clock it falls on. */
  lemma SeedReadingFields(id: nat, n: nat, day: nat, hora: nat, minuto: nat, src: Sources)
    requires n / SlotsPerDay == day && Slot(n % SlotsPerDay) == Clock(hora, minuto)
    ensures SeedReading(id, n, src)
      == Reading(id, src.temperatura(n), Some(src.umidade(n) as real),
                 RelayAlertFlag(src.temperatura(n), src.umidade(n) as real), Str(NumeroTeste),
                 SeedStamp(src.isoOf(ShiftToBrasilia(src.instant(day, hora, minuto)))))
  {
  }

  /** The minute loop at hour `hora`, step `step` (minute `5 * step`) is at
      slot `(hora - 7) * 12 + step`. */
  lemma SlotOfLoop(hora: nat, step: nat)
    requires 7 <= hora <= 18 && step < 12 && (hora == 18 ==> step == 0)
    ensures (hora - 7) * 12 + step < SlotsPerDay
    ensures Slot((hora - 7) * 12 + step) == Clock(hora, 5 * step)
  {
    KeptIsSlot(Clock(hora, 5 * step));
  }

  // ---------------------------------------------------------------- the script

  /** The state after the first `n` planned inserts succeeded: the table
      rows are what was there before plus the planned rows with consecutive
      ids from `firstId`, the last id is the last of those, and the log holds
      one line per hundred. */
  predicate SeedPlan(rows: seq<Reading>, lastId: nat, before: seq<Reading>, firstId: nat, n: nat,
                     log: seq<Progress>, src: Sources)
  {
    && lastId + 1 == firstId + n
    && rows == before + SeededRows(firstId, n, src)
    && log == ProgressLog(firstId, n, src)
    && forall i :: 0 <= i < n ==> src.insertOk(i)
  }

  /** A successful n-th insert extends the plan by one row, and by one log
      line at each hundred. */
  lemma SeedPlanStep(rows: seq<Reading>, lastId: nat, before: seq<Reading>, firstId: nat, n: nat,
                     log: seq<Progress>, src: Sources)
    requires SeedPlan(rows, lastId, before, firstId, n, log, src) && src.insertOk(n)
    ensures var row := SeedReading(firstId + n, n, src);
      SeedPlan(rows + [row], lastId + 1, before, firstId, n + 1,
               log + (if (n + 1) % 100 == 0 then [Progress(n + 1, row.timestamp)] else []), src)
  {
    PlanStep(before, rows, firstId, n, src);
  }

  /** The seeding state of a table. */
  ghost predicate Seeded(table: Table, before: seq<Reading>, firstId: nat, n: nat,
                         log: seq<Progress>, src: Sources)
    reads table
  {
    table.Valid() && SeedPlan(table.rows, table.lastId, before, firstId, n, log, src)
  }

  /** `popularBancoDeDados`: create the table, then one insert per day and
      slot, counting the inserts and logging every hundredth; the first
      failure (of the table creation or of an insert) ends the run. Returns
      the count, the progress lines and whether the final summary is logged. */
  method PopularBancoDeDados(table: Table, tableOk: bool, src: Sources)
    returns (totalInserido: nat, progress: seq<Progress>, completed: bool)
    requires table.Valid()
    modifies table
    ensures table.Valid()
    ensures totalInserido <= SeedTotal
    ensures table.rows == old(table.rows) + SeededRows(old(table.lastId) + 1, totalInserido, src)
    ensures table.lastId == old(table.lastId) + totalInserido
    ensures progress == ProgressLog(old(table.lastId) + 1, totalInserido, src)
    ensures !tableOk ==> totalInserido == 0 && !completed
    ensures forall n :: 0 <= n < totalInserido ==> src.insertOk(n)
    ensures completed <==> tableOk && totalInserido == SeedTotal
    ensures tableOk && totalInserido < SeedTotal ==> !src.insertOk(totalInserido)
  {
    totalInserido, progress, completed := 0, [], false;
    if !tableOk {
      return;
    }
    ghost var firstId := table.lastId + 1;
    assert SeededRows(firstId, 0, src) == [];
    for day := 0 to SeedDays
      invariant totalInserido == day * SlotsPerDay
      invariant Seeded(table, old(table.rows), firstId, totalInserido, progress, src)
    {
      var ok;
      ok, totalInserido, progress := SeedDay(table, day, totalInserido, progress, src, firstId, old(table.rows));
      if !ok {
        return;
      }
    }
    completed := true;
  }

  /** The hour and minute loops of one day: 133 inserts, or fewer when one
      fails, in which case the count stops at the failing insert. */
  method SeedDay(table: Table, day: nat, n: nat, log: seq<Progress>, src: Sources,
                 ghost firstId: nat, ghost before: seq<Reading>)
    returns (ok: bool, n': nat, log': seq<Progress>)
    requires day < SeedDays && n == day * SlotsPerDay
    requires Seeded(table, before, firstId, n, log, src)
    modifies table
    ensures Seeded(table, before, firstId, n', log', src)
    ensures ok ==> n' == n + SlotsPerDay
    ensures !ok ==> n <= n' < n + SlotsPerDay && !src.insertOk(n')
  {
    n', log' := n, log;
    for hora := 7 to 19
      invariant n' == n + if hora <= 18 then (hora - 7) * 12 else SlotsPerDay
      invariant Seeded(table, before, firstId, n', log', src)
    {
      var minuto := 0;
      ghost var step := 0;
      while minuto < 60
        invariant minuto == 5 * step && step <= 12
        invariant n' == n + if hora == 18 && step > 0 then SlotsPerDay else (hora - 7) * 12 + step
        invariant Seeded(table, before, firstId, n', log', src)
      {
        if hora == 18 && minuto > 0 {
          minuto, step := minuto + 5, step + 1;
          continue;
        }
        SlotOfLoop(hora, step);
        DaySlotPosition(day, (hora - 7) * 12 + step);
        ok, n', log' := InsertSlot(table, day, hora, minuto, n', log', src, firstId, before);
        if !ok {
          return;
        }
        minuto, step := minuto + 5, step + 1;
      }
    }
    ok := true;
  }

  /** One iteration of the minute loop that reaches the insert: the reading
      of day `day` at `hora:minuto` is the `n`-th. On success the count goes
      up by one, the planned row is appended and a progress line is added at
      each hundred; on failure nothing changes. */
  method InsertSlot(table: Table, day: nat, hora: nat, minuto: nat, n: nat, log: seq<Progress>,
                    src: Sources, ghost firstId: nat, ghost before: seq<Reading>)
    returns (ok: bool, n': nat, log': seq<Progress>)
    requires n / SlotsPerDay == day && Slot(n % SlotsPerDay) == Clock(hora, minuto)
    requires Seeded(table, before, firstId, n, log, src)
    modifies table
    ensures ok == src.insertOk(n) && n' == if ok then n + 1 else n
    ensures Seeded(table, before, firstId, n', log', src)
  {
    var instante := ShiftToBrasilia(src.instant(day, hora, minuto));
    var temperatura := src.temperatura(n);
    var umidade := src.umidade(n);
    var alerta := RelayAlertFlag(temperatura, umidade as real);
    var timestampFormatado := SeedStamp(src.isoOf(instante));
    var r := table.Insert(temperatura, Some(umidade as real), alerta, Str(NumeroTeste),
                          timestampFormatado, src.insertOk(n));
    if r.Rejected? {
      return false, n, log;
    }
    ok, n', log' := true, n + 1, log;
    if n' % 100 == 0 {
      log' := log + [Progress(n', timestampFormatado)];
    }
    SeedReadingFields(firstId + n, n, day, hora, minuto, src);
    SeedPlanStep(old(table.rows), old(table.lastId), before, firstId, n, log, src);
  }
}
