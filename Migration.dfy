/**
 * The row loop of `main` as the script runs it: one object holding the
 * pending batch, its counter and the per-table statistics, updated in place
 * row by row. Each method is proved to do what the matching function of
 * the Pipeline module says.
 */
module Migration {
  import opened Wrappers
  import opened Values
  import opened Attributes
  import opened Queries
  import opened Statistics
  import opened Pipeline

  class Migrator<R> {
    const env: Env<R>
    const dry: bool
    /** `influx_batch_json` and `influx_batch_size_cur`. */
    var batch: seq<R>
    var cur: nat
    /** `statistics`. */
    var stats: NameTally
    /** What `_attributes_raw` last held, if it was ever assigned. */
    var lastRaw: Option<Scalar>
    /** The uncaught exception that ended the run, if any. */
    var halt: Option<Fault>
    var finished: bool
    /** Every `influx.write` call, in order. */
    var writes: seq<seq<R>>
    /** The data-carrying lines printed so far. */
    var diags: seq<Diagnostic>
    ghost var appended: seq<R>
    ghost var flushes: seq<seq<R>>
    ghost var named: seq<Sighting>

    ghost function Snapshot(): Progress<R>
      reads this
    {
      Progress(dry, batch, cur, stats, lastRaw, halt, finished, writes, diags, appended, flushes, named)
    }

    ghost predicate Valid()
      reads this
    {
      Inv(Snapshot())
    }

    constructor (env: Env<R>, dry: bool)
      ensures this.env == env
      ensures Snapshot() == Initial(dry)
      ensures Valid()
    {
      this.env := env;
      this.dry := dry;
      batch, cur, stats, lastRaw, halt, finished := [], 0, map[], None, None, false;
      writes, diags := [], [];
      appended, flushes, named := [], [], [];
    }

    /** The column extraction of homeassistant2influxdb.py:185-201, with the
        attribute dictionary reshaped in place. */
    method DecodeRow(kind: TableKind, row: Row) returns (r: Option<Decoded>)
      ensures r == Decode(kind, row, env.parseJson)
    {
      if kind == States {
        if |row| < 3 {
          return None;
        }
        var parsed := env.parseJson(row[2]);
        if parsed.None? || |row| < 5 {
          return None;
        }
        var attrs := new AttrDict(parsed.value);
        attrs.RenameFriendlyNameInPlace();
        r := Some(Decoded(RenameEntityValue(row[0]), row[1], attrs.entries, row[3], row[4]));
      } else {
        if |row| < 5 {
          return None;
        }
        var parsed := env.parseJson(row[4]);
        if parsed.None? || |row| < 7 {
          return None;
        }
        var attrs := new AttrDict(parsed.value);
        attrs.CreateStatisticsAttributesInPlace(row[1], row[2], row[3]);
        r := Some(Decoded(RenameEntityValue(row[0]), row[1], attrs.entries, row[5], row[6]));
      }
    }

    /** The friendly-name counter update of homeassistant2influxdb.py:229-240.
        A step of `Apply`, which restores `Valid()` around it. */
    method Count(obs: Observation, row: Row)
      modifies this
      ensures Snapshot() == Observe(old(Snapshot()), obs, row)
    {
      if FriendlyNameKey in obs.attributes {
        var e, n := obs.entityId, obs.attributes[FriendlyNameKey];
        var t, isNew := CountSighting(stats, e, n);
        if isNew {
          diags := diags + [NewName(e, n, t[e].Keys, row)];
        }
        stats, named := t, named + [Sighting(e, n)];
      }
    }

    /** The append and flush of homeassistant2influxdb.py:242-249, which only
        happen before the final write. A step of `Apply`, which restores
        `Valid()` around it. */
    method Push(record: R)
      requires !finished
      modifies this
      ensures Snapshot() == Append(old(Snapshot()), record)
    {
      batch := batch + [record];
      cur := cur + 1;
      appended := appended + [record];
      if cur >= BatchCapacity {
        if !dry {
          writes := writes + [batch];
        }
        flushes := flushes + [batch];
        cur := 0;
        batch := [];
      }
    }

    /** The foreign calls one row goes through (homeassistant2influxdb.py:184-226):
        extraction, `strptime`, `State`/`Event` and the converter, each only
        when the one before it succeeded. */
    method Examine(kind: TableKind, row: Row) returns (o: Outcome<R>)
      ensures o == Classify(kind, row, env)
    {
      var decoded := DecodeRow(kind, row);
      if decoded.None? {
        return DecodeFault;
      }
      var d := decoded.value;
      var time := env.parseTime(d.timeRaw);
      if time.None? {
        return TimeFault;
      }
      var obs := Observation(d.entityId, d.state, d.attributes, d.eventType, time.value);
      var built := env.construct(obs);
      if built == Raised {
        return ConstructFault;
      } else if built == InvalidEntityFormat {
        return InvalidEntity;
      }
      var data := env.convert(obs);
      if data.Falsy? {
        return Suppressed;
      } else if data.ConverterRaised? {
        return ConvertFault;
      }
      o := Converted(obs, data.data);
    }

    /** What the loop does with a row whose fate is `o`. */
    method Apply(kind: TableKind, row: Row, o: Outcome<R>)
      requires Valid()
      modifies this
      ensures Snapshot() == Settle(old(Snapshot()), kind, row, o)
      ensures Valid()
    {
      SettlePreservesInv(Snapshot(), kind, row, o);
      if halt.Some? || finished {
        return;
      }
      if |row| > AttributesColumn(kind) {
        lastRaw := Some(row[AttributesColumn(kind)]);
      }
      match o {
        case DecodeFault =>
          if lastRaw.None? {
            halt := Some(UnboundAttributes);
          } else {
            diags := diags + [DecodeFailed(row, lastRaw.value)];
          }
        case TimeFault =>
          halt := Some(TimestampRejected);
        case ConstructFault =>
          halt := Some(ConstructionRaised);
        case ConvertFault =>
          halt := Some(ConversionRaised);
        case InvalidEntity =>
        case Suppressed =>
        case Converted(obs, record) =>
          Count(obs, row);
          Push(record);
      }
    }

    /** One pass of `for row in cursor`. */
    method ProcessRow(kind: TableKind, row: Row)
      requires Valid()
      modifies this
      ensures Snapshot() == Step(old(Snapshot()), kind, row, env)
      ensures Valid()
    {
      var o := Examine(kind, row);
      Apply(kind, row, o);
    }

    /** `statistics = {}` at the head of each table. */
    method StartTable()
      requires Valid()
      modifies this
      ensures Snapshot() == Pipeline.StartTable(old(Snapshot()))
      ensures Valid()
    {
      StartTablePreservesInv(Snapshot());
      if halt.None? {
        stats := map[];
        named := [];
      }
    }

    /** The rows of one table, from a fresh counter map. */
    method RunTable(kind: TableKind, rows: seq<Row>)
      requires Valid()
      modifies this
      ensures Snapshot() == RunRows(Pipeline.StartTable(old(Snapshot())), kind, rows, env)
      ensures Valid()
    {
      StartTable();
      ghost var start := Snapshot();
      for i := 0 to |rows|
        invariant Valid()
        invariant Snapshot() == RunRows(start, kind, rows[..i], env)
      {
        RunRowsSnoc(start, kind, rows, i, env);
        ProcessRow(kind, rows[i]);
      }
      assert rows[..|rows|] == rows;
    }

    /** The final write and the report of homeassistant2influxdb.py:261-274;
        a halted run prints no report. */
    method Finish() returns (report: Option<seq<ReportEntry>>)
      requires Valid() && !finished
      modifies this
      ensures Snapshot() == Pipeline.Finish(old(Snapshot()))
      ensures Valid()
      ensures report.Some? <==> halt.None?
      ensures report.Some? ==> Summarizes(report.value, stats)
    {
      FinishPreservesInv(Snapshot());
      if halt.Some? {
        return None;
      }
      if !dry {
        writes := writes + [batch];
      }
      finished := true;
      var r := BuildReport(stats);
      report := Some(r);
    }
  }

  /** The whole migration for the `--table` key `argTables`, reading the
      rows of each table from `input`. */
  method Migrate<R>(dry: bool, argTables: string, input: TableKind -> seq<Row>, env: Env<R>)
      returns (m: Migrator<R>, report: Option<seq<ReportEntry>>)
    ensures m.Snapshot() == Pipeline.Migrate(dry, argTables, input, env)
    ensures report.Some? <==> m.halt.None?
    ensures report.Some? ==> Summarizes(report.value, m.stats)
  {
    m := new Migrator(env, dry);
    var tables := GetTables(argTables);
    if tables.None? {
      m.halt := Some(NoTables);
      return m, None;
    }
    var kinds := tables.value;
    for k := 0 to |kinds|
      invariant m.env == env && m.Valid()
      invariant m.Snapshot() == RunTables(Initial(dry), kinds[..k], input, env)
    {
      assert kinds[..k + 1][..k] == kinds[..k];
      m.RunTable(kinds[k], input(kinds[k]));
    }
    assert kinds[..|kinds|] == kinds;
    RunTablesNeverFinish(Initial<R>(dry), kinds, input, env);
    report := m.Finish();
  }

}
