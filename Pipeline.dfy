/**
 * The row loop of the migration as a pure state machine: how one result row
 * is decoded, renamed, handed to the converter, counted and batched, how a
 * table starts, and the final flush. The class in Migration.dfy performs the
 * same steps in place and is proved against the functions here.
 */
module Pipeline {
  import opened Wrappers
  import opened Values
  import opened Attributes
  import opened Queries
  import opened Statistics

  /** A parsed `time_fired`; the parser is foreign, so the instant is opaque. */
  datatype Instant = Instant(micros: int)

  /** What the rebuilt `State` and `Event` carry into the converter. */
  datatype Observation = Observation(entityId: Scalar, state: Scalar, attributes: Attrs,
                                     eventType: Scalar, timeFired: Instant)

  /** How building the `State` and the `Event` ends: it succeeds, it raises
      the one exception the loop catches, or it raises any other exception. */
  datatype Construction = Built | InvalidEntityFormat | Raised

  /** How the converter call ends: with a record, with a falsy result the
      loop skips, or with an exception nothing catches. */
  datatype Conversion<R> = Produced(data: R) | Falsy | ConverterRaised

  /** The foreign calls of the loop. `parseJson` answers None when `json.loads`
      raises or does not give an object; `parseTime` answers None when
      `strptime` raises. */
  datatype Env<R> = Env(parseJson: Scalar -> Option<Attrs>,
                        parseTime: Scalar -> Option<Instant>,
                        construct: Observation -> Construction,
                        convert: Observation -> Conversion<R>)

  /** The columns of a row once extracted, before the timestamp is parsed. */
  datatype Decoded = Decoded(entityId: Scalar, state: Scalar, attributes: Attrs,
                             eventType: Scalar, timeRaw: Scalar)

  /** The uncaught exceptions that end a run. */
  datatype Fault =
    | NoTables            // `get_tables` gave None and joining it raises
    | UnboundAttributes   // the extraction handler prints a variable never assigned
    | TimestampRejected   // `strptime` raised
    | ConstructionRaised  // `State` or `Event` raised something else
    | ConversionRaised    // the converter raised

  /** The lines the loop prints that carry data. */
  datatype Diagnostic =
    | DecodeFailed(row: Row, attributesRaw: Scalar)
    | NewName(entity: Scalar, name: Scalar, known: set<Scalar>, row: Row)

  /** What happens to one row once it is past the extraction. */
  datatype Outcome<R> =
    | DecodeFault
    | TimeFault
    | ConstructFault
    | ConvertFault
    | InvalidEntity
    | Suppressed
    | Converted(obs: Observation, record: R)

  /** Records the loop accumulates before one write (homeassistant2influxdb.py:145). */
  const BatchCapacity: nat := 1024

  /** The position of the raw attribute column. */
  function AttributesColumn(kind: TableKind): nat
  {
    if kind == States then 2 else 4
  }

  /** The number of columns the extraction reads. */
  function Arity(kind: TableKind): (n: nat)
    ensures n == |if kind == States then LegacyColumns else StatisticsColumns|
    ensures AttributesColumn(kind) < n - 2
  {
    if kind == States then 5 else 7
  }

  /** The extraction of homeassistant2influxdb.py:185-201: None when a column
      is missing or the raw attributes do not decode to an object. */
  function Decode(kind: TableKind, row: Row, parseJson: Scalar -> Option<Attrs>): (r: Option<Decoded>)
    ensures r.Some? <==> |row| >= Arity(kind) && parseJson(row[AttributesColumn(kind)]).Some?
    ensures r.Some? ==> r.value.entityId == RenameEntityValue(row[0]) && r.value.state == row[1]
                        && r.value.eventType == row[Arity(kind) - 2] && r.value.timeRaw == row[Arity(kind) - 1]
    ensures r.Some? && kind == States ==>
              r.value.attributes == RenameFriendlyName(parseJson(row[2]).value)
    ensures r.Some? && kind == Statistics ==>
              r.value.attributes == CreateStatisticsAttributes(row[1], row[2], row[3], parseJson(row[4]).value)
  {
    if |row| < Arity(kind) then None
    else match parseJson(row[AttributesColumn(kind)])
      case None => None
      case Some(parsed) =>
        if kind == States then
          Some(Decoded(RenameEntityValue(row[0]), row[1], RenameFriendlyName(parsed), row[3], row[4]))
        else
          Some(Decoded(RenameEntityValue(row[0]), row[1],
                       CreateStatisticsAttributes(row[1], row[2], row[3], parsed), row[5], row[6]))
  }

  /** The fate of one row (homeassistant2influxdb.py:184-226). */
  function Classify<R>(kind: TableKind, row: Row, env: Env<R>): Outcome<R>
  {
    match Decode(kind, row, env.parseJson)
    case None => DecodeFault
    case Some(d) =>
      match env.parseTime(d.timeRaw)
      case None => TimeFault
      case Some(t) =>
        var obs := Observation(d.entityId, d.state, d.attributes, d.eventType, t);
        match env.construct(obs)
        case Raised => ConstructFault
        case InvalidEntityFormat => InvalidEntity
        case Built =>
          match env.convert(obs)
          case Falsy => Suppressed
          case ConverterRaised => ConvertFault
          case Produced(record) => Converted(obs, record)
  }

  /** The value `_attributes_raw` holds once this row's extraction stopped:
      this row's raw attributes if the row reaches that column, else the value
      left over from an earlier row. */
  function RawAfter(kind: TableKind, row: Row, lastRaw: Option<Scalar>): Option<Scalar>
  {
    if |row| > AttributesColumn(kind) then Some(row[AttributesColumn(kind)]) else lastRaw
  }

  /** Everything the loop keeps between rows. `appended`, `flushes` and
      `named` are bookkeeping: every record appended, every batch that filled,
      and the friendly-name sightings of the current table. */
  datatype Progress<R> = Progress(
    dry: bool,
    batch: seq<R>,
    cur: nat,
    stats: NameTally,
    lastRaw: Option<Scalar>,
    halt: Option<Fault>,
    finished: bool,
    writes: seq<seq<R>>,
    diags: seq<Diagnostic>,
    appended: seq<R>,
    flushes: seq<seq<R>>,
    named: seq<Sighting>)

  function Initial<R>(dry: bool): Progress<R>
  {
    Progress(dry, [], 0, map[], None, None, false, [], [], [], [], [])
  }

  /** The statistics update of homeassistant2influxdb.py:229-240. */
  function Observe<R>(s: Progress<R>, obs: Observation, row: Row): Progress<R>
  {
    if FriendlyNameKey in obs.attributes then
      var e, n := obs.entityId, obs.attributes[FriendlyNameKey];
      var t := Bump(s.stats, e, n);
      s.(stats := t, named := s.named + [Sighting(e, n)],
         diags := s.diags + (if NewNameFires(s.stats, e, n) then [NewName(e, n, t[e].Keys, row)] else []))
    else s
  }

  /** The append and the flush at capacity of homeassistant2influxdb.py:242-249. */
  function Append<R>(s: Progress<R>, record: R): Progress<R>
  {
    var batch := s.batch + [record];
    if s.cur + 1 >= BatchCapacity then
      s.(batch := [], cur := 0, appended := s.appended + [record], flushes := s.flushes + [batch],
         writes := if s.dry then s.writes else s.writes + [batch])
    else
      s.(batch := batch, cur := s.cur + 1, appended := s.appended + [record])
  }

  /** One iteration of `for row in cursor`. */
  function Step<R>(s: Progress<R>, kind: TableKind, row: Row, env: Env<R>): Progress<R>
  {
    Settle(s, kind, row, Classify(kind, row, env))
  }

  /** The effect of a row whose fate is `o`. A halted or finished run is left
      as it is. */
  function Settle<R>(s: Progress<R>, kind: TableKind, row: Row, o: Outcome<R>): Progress<R>
  {
    if s.halt.Some? || s.finished then s
    else
      var raw := RawAfter(kind, row, s.lastRaw);
      var s1 := s.(lastRaw := raw);
      match o
      case DecodeFault =>
        if raw.None? then s1.(halt := Some(UnboundAttributes))
        else s1.(diags := s1.diags + [DecodeFailed(row, raw.value)])
      case TimeFault => s1.(halt := Some(TimestampRejected))
      case ConstructFault => s1.(halt := Some(ConstructionRaised))
      case ConvertFault => s1.(halt := Some(ConversionRaised))
      case InvalidEntity => s1
      case Suppressed => s1
      case Converted(obs, record) => Append(Observe(s1, obs, row), record)
  }

  /** The rows of one table, in cursor order. */
  function RunRows<R>(s: Progress<R>, kind: TableKind, rows: seq<Row>, env: Env<R>): Progress<R>
  {
    if rows == [] then s
    else Step(RunRows(s, kind, rows[..|rows| - 1], env), kind, rows[|rows| - 1], env)
  }

  lemma RunRowsSnoc<R>(s: Progress<R>, kind: TableKind, rows: seq<Row>, i: nat, env: Env<R>)
    requires i < |rows|
    ensures RunRows(s, kind, rows[..i + 1], env) == Step(RunRows(s, kind, rows[..i], env), kind, rows[i], env)
  {
    assert rows[..i + 1][..i] == rows[..i];
  }

  /** `statistics = {}` at the head of each table (homeassistant2influxdb.py:170);
      the batch is left alone. */
  function StartTable<R>(s: Progress<R>): Progress<R>
  {
    if s.halt.Some? then s else s.(stats := map[], named := [])
  }

  /** The tables in order, each from a fresh tally, over one batch. */
  function RunTables<R>(s: Progress<R>, kinds: seq<TableKind>, input: TableKind -> seq<Row>, env: Env<R>): Progress<R>
  {
    if kinds == [] then s
    else
      var k := kinds[|kinds| - 1];
      RunRows(StartTable(RunTables(s, kinds[..|kinds| - 1], input, env)), k, input(k), env)
  }

  /** The final write of homeassistant2influxdb.py:261-262: the remainder,
      empty or not, unless dry. */
  function Finish<R>(s: Progress<R>): Progress<R>
  {
    if s.halt.Some? then s
    else s.(writes := if s.dry then s.writes else s.writes + [s.batch], finished := true)
  }

  /** A whole run for the `--table` key `argTables`. */
  function Migrate<R>(dry: bool, argTables: string, input: TableKind -> seq<Row>, env: Env<R>): Progress<R>
  {
    match GetTables(argTables)
    case None => Initial(dry).(halt := Some(NoTables))
    case Some(kinds) => Finish(RunTables(Initial(dry), kinds, input, env))
  }

  /** The concatenation of batches, in order. */
  function Flatten<R>(bs: seq<seq<R>>): seq<R>
  {
    if bs == [] then [] else Flatten(bs[..|bs| - 1]) + bs[|bs| - 1]
  }

  lemma FlattenAppend<R>(bs: seq<seq<R>>, b: seq<R>)
    ensures Flatten(bs + [b]) == Flatten(bs) + b
  {
    assert (bs + [b])[..|bs|] == bs;
  }

  /** The invariant between rows: the counter is the batch length and below
      capacity, the filled batches followed by the pending one are every
      record appended, each filled batch holds exactly `BatchCapacity`
      records, the writes are the filled batches (and the remainder once
      finished) unless dry, and the tally counts this table's sightings. */
  ghost predicate Inv<R>(s: Progress<R>)
  {
    && s.cur == |s.batch| < BatchCapacity
    && Flatten(s.flushes) + s.batch == s.appended
    && (forall i :: 0 <= i < |s.flushes| ==> |s.flushes[i]| == BatchCapacity)
    && s.writes == (if s.dry then [] else s.flushes + (if s.finished then [s.batch] else []))
    && s.stats == Tally(s.named)
  }

  lemma InitialInv<R>(dry: bool)
    ensures Inv(Initial<R>(dry))
  {
  }

  lemma ObservePreservesTally<R>(s: Progress<R>, obs: Observation, row: Row)
    requires s.stats == Tally(s.named)
    ensures Observe(s, obs, row).stats == Tally(Observe(s, obs, row).named)
    ensures Observe(s, obs, row).(stats := s.stats, named := s.named, diags := s.diags)
            == s.(diags := s.diags)
  {
    if FriendlyNameKey in obs.attributes {
      TallySnoc(s.named, Sighting(obs.entityId, obs.attributes[FriendlyNameKey]));
    }
  }

  lemma ObservePreservesInv<R>(s: Progress<R>, obs: Observation, row: Row)
    requires Inv(s)
    ensures Inv(Observe(s, obs, row))
  {
    ObservePreservesTally(s, obs, row);
  }

  lemma AppendPreservesInv<R>(s: Progress<R>, record: R)
    requires Inv(s) && !s.finished
    ensures Inv(Append(s, record))
  {
    var batch := s.batch + [record];
    if s.cur + 1 >= BatchCapacity {
      FlattenAppend(s.flushes, batch);
    }
  }

  /** The steps that neither append nor count: only `lastRaw`, `halt` and
      `diags` may differ. */
  ghost predicate SameLoop<R>(s: Progress<R>, t: Progress<R>)
  {
    t == s.(lastRaw := t.lastRaw, halt := t.halt, diags := t.diags)
  }

  lemma SettleOutcome<R>(s: Progress<R>, kind: TableKind, row: Row, o: Outcome<R>)
    requires s.halt.None? && !s.finished
    ensures var s1 := s.(lastRaw := RawAfter(kind, row, s.lastRaw));
            match o
            case Converted(obs, record) => Settle(s, kind, row, o) == Append(Observe(s1, obs, row), record)
            case _ => SameLoop(s, Settle(s, kind, row, o))
  {
  }

  lemma SettlePreservesInv<R>(s: Progress<R>, kind: TableKind, row: Row, o: Outcome<R>)
    requires Inv(s)
    ensures Inv(Settle(s, kind, row, o))
  {
    if s.halt.None? && !s.finished {
      var s1 := s.(lastRaw := RawAfter(kind, row, s.lastRaw));
      SettleOutcome(s, kind, row, o);
      if o.Converted? {
        ObservePreservesTally(s1, o.obs, row);
        AppendPreservesInv(Observe(s1, o.obs, row), o.record);
      }
    }
  }

  lemma SettleKeepsMode<R>(s: Progress<R>, kind: TableKind, row: Row, o: Outcome<R>)
    ensures Settle(s, kind, row, o).finished == s.finished && Settle(s, kind, row, o).dry == s.dry
  {
  }

  lemma {:induction false} RunRowsPreservesInv<R>(s: Progress<R>, kind: TableKind, rows: seq<Row>, env: Env<R>)
    requires Inv(s)
    ensures Inv(RunRows(s, kind, rows, env))
  {
    if rows != [] {
      RunRowsPreservesInv(s, kind, rows[..|rows| - 1], env);
      var last := rows[|rows| - 1];
      SettlePreservesInv(RunRows(s, kind, rows[..|rows| - 1], env), kind, last, Classify(kind, last, env));
    }
  }

  lemma {:induction false} RunTablesPreservesInv<R>(s: Progress<R>, kinds: seq<TableKind>,
                                                     input: TableKind -> seq<Row>, env: Env<R>)
    requires Inv(s)
    ensures Inv(RunTables(s, kinds, input, env))
  {
    if kinds != [] {
      var k := kinds[|kinds| - 1];
      var t := RunTables(s, kinds[..|kinds| - 1], input, env);
      RunTablesPreservesInv(s, kinds[..|kinds| - 1], input, env);
      StartTablePreservesInv(t);
      RunRowsPreservesInv(StartTable(t), k, input(k), env);
    }
  }

  lemma StartTablePreservesInv<R>(s: Progress<R>)
    requires Inv(s)
    ensures Inv(StartTable(s))
  {
  }

  lemma FinishPreservesInv<R>(s: Progress<R>)
    requires Inv(s) && !s.finished
    ensures Inv(Finish(s))
  {
  }

  /** Every run keeps the invariant, from start to end. */
  lemma MigrateInv<R>(dry: bool, argTables: string, input: TableKind -> seq<Row>, env: Env<R>)
    ensures Inv(Migrate(dry, argTables, input, env))
  {
    InitialInv<R>(dry);
    var kinds := GetTables(argTables);
    if kinds.Some? {
      RunTablesPreservesInv(Initial<R>(dry), kinds.value, input, env);
      assert !RunTables(Initial<R>(dry), kinds.value, input, env).finished by {
        RunTablesNeverFinish(Initial<R>(dry), kinds.value, input, env);
      }
    }
  }

  lemma {:induction false} RunRowsNeverFinish<R>(s: Progress<R>, kind: TableKind, rows: seq<Row>, env: Env<R>)
    ensures RunRows(s, kind, rows, env).finished == s.finished
    ensures RunRows(s, kind, rows, env).dry == s.dry
  {
    if rows != [] {
      var last := rows[|rows| - 1];
      RunRowsNeverFinish(s, kind, rows[..|rows| - 1], env);
      SettleKeepsMode(RunRows(s, kind, rows[..|rows| - 1], env), kind, last, Classify(kind, last, env));
    }
  }

  lemma {:induction false} RunTablesNeverFinish<R>(s: Progress<R>, kinds: seq<TableKind>,
                                                   input: TableKind -> seq<Row>, env: Env<R>)
    ensures RunTables(s, kinds, input, env).finished == s.finished
    ensures RunTables(s, kinds, input, env).dry == s.dry
  {
    if kinds != [] {
      var k := kinds[|kinds| - 1];
      RunTablesNeverFinish(s, kinds[..|kinds| - 1], input, env);
      RunRowsNeverFinish(StartTable(RunTables(s, kinds[..|kinds| - 1], input, env)), k, input(k), env);
    }
  }

  /** The record a row contributes to the batch: one when converted. */
  function RecordsOf<R>(o: Outcome<R>): seq<R>
  {
    match o
    case Converted(_, record) => [record]
    case _ => []
  }

  /** The sighting a row contributes to the tally: one when converted with a
      friendly name. */
  function SightingsOf<R>(o: Outcome<R>): seq<Sighting>
  {
    match o
    case Converted(obs, _) =>
      if FriendlyNameKey in obs.attributes then [Sighting(obs.entityId, obs.attributes[FriendlyNameKey])] else []
    case _ => []
  }

  /** The records of the rows that reach the converter and get one, in
      cursor order. */
  function RowRecords<R>(kind: TableKind, rows: seq<Row>, env: Env<R>): seq<R>
  {
    if rows == [] then []
    else RowRecords(kind, rows[..|rows| - 1], env) + RecordsOf(Classify(kind, rows[|rows| - 1], env))
  }

  /** The (entity, friendly name) pairs of those rows that carry a friendly name. */
  function RowSightings<R>(kind: TableKind, rows: seq<Row>, env: Env<R>): seq<Sighting>
  {
    if rows == [] then []
    else RowSightings(kind, rows[..|rows| - 1], env) + SightingsOf(Classify(kind, rows[|rows| - 1], env))
  }

  /** A row that does not halt the run appends its record, if any, and its
      sighting, if any. */
  lemma SettleAppends<R>(s: Progress<R>, kind: TableKind, row: Row, o: Outcome<R>)
    requires s.halt.None? && !s.finished && Settle(s, kind, row, o).halt.None?
    ensures Settle(s, kind, row, o).appended == s.appended + RecordsOf(o)
    ensures Settle(s, kind, row, o).named == s.named + SightingsOf(o)
  {
    SettleOutcome(s, kind, row, o);
  }

  /** A halted run ignores every further row. */
  lemma {:induction false} HaltedRunIgnoresRows<R>(s: Progress<R>, kind: TableKind, rows: seq<Row>, env: Env<R>)
    requires s.halt.Some?
    ensures RunRows(s, kind, rows, env) == s
  {
    if rows != [] {
      HaltedRunIgnoresRows(s, kind, rows[..|rows| - 1], env);
    }
  }

  /** A run that does not halt appends the converted records of its rows in
      cursor order and records their friendly-name sightings: a row that
      fails to decode, is rejected as an invalid entity or is suppressed by
      the converter is skipped and the rows after it are still processed. */
  lemma {:induction false} RunRowsAppends<R>(s: Progress<R>, kind: TableKind, rows: seq<Row>, env: Env<R>)
    requires !s.finished
    ensures var t := RunRows(s, kind, rows, env);
            t.halt.None? ==> t.appended == s.appended + RowRecords(kind, rows, env)
                             && t.named == s.named + RowSightings(kind, rows, env)
  {
    if rows != [] {
      var init := rows[..|rows| - 1];
      var t' := RunRows(s, kind, init, env);
      RunRowsAppends(s, kind, init, env);
      RunRowsNeverFinish(s, kind, init, env);
      if t'.halt.None? && RunRows(s, kind, rows, env).halt.None? {
        SettleAppends(t', kind, rows[|rows| - 1], Classify(kind, rows[|rows| - 1], env));
      }
    }
  }

  /** The diagnostic of homeassistant2influxdb.py:234-238 is printed exactly
      when the entity was sighted earlier in this table but never under this
      name. */
  lemma ObserveDiagnosesNewName<R>(s: Progress<R>, obs: Observation, row: Row)
    requires s.stats == Tally(s.named) && FriendlyNameKey in obs.attributes
    ensures var e, n := obs.entityId, obs.attributes[FriendlyNameKey];
            |Observe(s, obs, row).diags| == |s.diags| + 1
            <==> (exists j :: 0 <= j < |s.named| && s.named[j].entity == e)
                 && (forall j :: 0 <= j < |s.named| ==> s.named[j] != Sighting(e, n))
    ensures var e, n := obs.entityId, obs.attributes[FriendlyNameKey];
            Observe(s, obs, row).diags == s.diags || Observe(s, obs, row).diags == s.diags + [NewName(e, n, Tally(s.named + [Sighting(e, n)])[e].Keys, row)]
  {
    var e, n := obs.entityId, obs.attributes[FriendlyNameKey];
    var ss := s.named + [Sighting(e, n)];
    assert ss[..|s.named|] == s.named;
    NewNameFiresIff(ss, |s.named|);
    assert forall j :: 0 <= j < |s.named| ==> ss[j] == s.named[j];
  }

  /** A record appended to the pending batch fills it exactly when the batch
      held `BatchCapacity - 1` records; then the whole batch, in append order,
      is written once unless dry, and the batch and counter start again. */
  lemma AppendFlushesAtCapacity<R>(s: Progress<R>, record: R)
    requires Inv(s) && !s.finished
    ensures var t := Append(s, record);
            (t.flushes != s.flushes <==> |s.batch| == BatchCapacity - 1)
            && (t.flushes != s.flushes ==>
                  t.flushes == s.flushes + [s.batch + [record]] && |s.batch + [record]| == BatchCapacity
                  && t.writes == (if s.dry then [] else s.writes + [s.batch + [record]])
                  && t.batch == [] && t.cur == 0)
            && (t.flushes == s.flushes ==> t.batch == s.batch + [record] && t.writes == s.writes)
  {
  }

  /** Dry-run leaves every piece of bookkeeping as a real run has it. */
  function Shadow<R>(s: Progress<R>): Progress<R>
  {
    s.(dry := false, writes := [])
  }

  lemma ObserveShadow<R>(s: Progress<R>, s': Progress<R>, obs: Observation, row: Row)
    requires Shadow(s) == Shadow(s')
    ensures Shadow(Observe(s, obs, row)) == Shadow(Observe(s', obs, row))
  {
  }

  lemma AppendShadow<R>(s: Progress<R>, s': Progress<R>, record: R)
    requires Shadow(s) == Shadow(s')
    ensures Shadow(Append(s, record)) == Shadow(Append(s', record))
  {
  }

  lemma SettleShadow<R>(s: Progress<R>, s': Progress<R>, kind: TableKind, row: Row, o: Outcome<R>)
    requires Shadow(s) == Shadow(s')
    ensures Shadow(Settle(s, kind, row, o)) == Shadow(Settle(s', kind, row, o))
  {
    if s.halt.None? && !s.finished {
      SettleOutcome(s, kind, row, o);
      SettleOutcome(s', kind, row, o);
      var s1 := s.(lastRaw := RawAfter(kind, row, s.lastRaw));
      var s1' := s'.(lastRaw := RawAfter(kind, row, s'.lastRaw));
      if o.Converted? {
        ObserveShadow(s1, s1', o.obs, row);
        AppendShadow(Observe(s1, o.obs, row), Observe(s1', o.obs, row), o.record);
      }
    }
  }

  lemma {:induction false} RunRowsShadow<R>(s: Progress<R>, s': Progress<R>, kind: TableKind, rows: seq<Row>, env: Env<R>)
    requires Shadow(s) == Shadow(s')
    ensures Shadow(RunRows(s, kind, rows, env)) == Shadow(RunRows(s', kind, rows, env))
  {
    if rows != [] {
      var init := rows[..|rows| - 1];
      RunRowsShadow(s, s', kind, init, env);
      var last := rows[|rows| - 1];
      SettleShadow(RunRows(s, kind, init, env), RunRows(s', kind, init, env), kind, last, Classify(kind, last, env));
    }
  }

  lemma {:induction false} RunTablesShadow<R>(s: Progress<R>, s': Progress<R>, kinds: seq<TableKind>,
                                               input: TableKind -> seq<Row>, env: Env<R>)
    requires Shadow(s) == Shadow(s')
    ensures Shadow(RunTables(s, kinds, input, env)) == Shadow(RunTables(s', kinds, input, env))
  {
    if kinds != [] {
      var init := kinds[..|kinds| - 1];
      var k := kinds[|kinds| - 1];
      RunTablesShadow(s, s', init, input, env);
      RunRowsShadow(StartTable(RunTables(s, init, input, env)), StartTable(RunTables(s', init, input, env)),
                    k, input(k), env);
    }
  }

  /** Under `--dry-run` nothing is ever written, and everything else (batch,
      counter, statistics, diagnostics, faults) is what the real run has. */
  lemma DryRunOnlySuppressesWrites<R>(argTables: string, input: TableKind -> seq<Row>, env: Env<R>)
    ensures Migrate(true, argTables, input, env).writes == []
    ensures Shadow(Migrate(true, argTables, input, env)) == Shadow(Migrate(false, argTables, input, env))
  {
    MigrateInv(true, argTables, input, env);
    var kinds := GetTables(argTables);
    if kinds.Some? {
      RunTablesNeverFinish(Initial<R>(true), kinds.value, input, env);
      RunTablesShadow(Initial<R>(true), Initial<R>(false), kinds.value, input, env);
    }
  }

  /** A row that is rejected as an invalid entity or suppressed by the
      converter is neither counted nor appended; one that fails extraction
      is only reported, provided `_attributes_raw` holds a value by then
      (otherwise see `UncaughtFaultsAreFatal`). Either way the sole other
      change is the leftover `_attributes_raw`. */
  lemma SkippedRowsChangeNothing<R>(s: Progress<R>, kind: TableKind, row: Row, env: Env<R>)
    requires s.halt.None? && !s.finished
    ensures var raw := RawAfter(kind, row, s.lastRaw);
            var o := Classify(kind, row, env);
            && (o.InvalidEntity? || o.Suppressed? ==> Step(s, kind, row, env) == s.(lastRaw := raw))
            && (o.DecodeFault? && raw.Some? ==>
                  Step(s, kind, row, env) == s.(lastRaw := raw, diags := s.diags + [DecodeFailed(row, raw.value)]))
  {
  }

  /** `strptime` sits outside the row's `try`: a timestamp it rejects ends
      the whole run, every later row is ignored and the final write never
      happens, so the pending batch is lost. */
  lemma StrptimeFailureIsFatal<R>(s: Progress<R>, kind: TableKind, row: Row, later: seq<Row>, env: Env<R>)
    requires s.halt.None? && !s.finished && Classify(kind, row, env).TimeFault?
    ensures Step(s, kind, row, env).halt == Some(TimestampRejected)
    ensures RunRows(Step(s, kind, row, env), kind, later, env) == Step(s, kind, row, env)
    ensures Finish(Step(s, kind, row, env)).writes == s.writes
  {
    HaltedRunIgnoresRows(Step(s, kind, row, env), kind, later, env);
  }

  /** The other exceptions the loop does not catch end the run the same way:
      the extraction handler printing `_attributes_raw` before any row of the
      run assigned it, `State` or `Event` raising anything but the
      invalid-entity error, and the converter raising. */
  lemma UncaughtFaultsAreFatal<R>(s: Progress<R>, kind: TableKind, row: Row, later: seq<Row>, env: Env<R>)
    requires s.halt.None? && !s.finished
    ensures var o := Classify(kind, row, env);
            var h := Step(s, kind, row, env).halt;
            && (o.DecodeFault? && RawAfter(kind, row, s.lastRaw).None? ==> h == Some(UnboundAttributes))
            && (o.ConstructFault? ==> h == Some(ConstructionRaised))
            && (o.ConvertFault? ==> h == Some(ConversionRaised))
    ensures Step(s, kind, row, env).halt.Some? ==>
              && RunRows(Step(s, kind, row, env), kind, later, env) == Step(s, kind, row, env)
              && Finish(Step(s, kind, row, env)).writes == s.writes
  {
    var t := Step(s, kind, row, env);
    if t.halt.Some? {
      HaltedRunIgnoresRows(t, kind, later, env);
    }
  }

  /** The final write sends the remainder, even when it is empty, so that
      with the filled batches every appended record is written exactly once
      and in order; under dry-run nothing is. */
  lemma FinishWritesRemainder<R>(s: Progress<R>)
    requires Inv(s) && s.halt.None? && !s.finished
    ensures !s.dry ==> Finish(s).writes == s.writes + [s.batch] && Flatten(Finish(s).writes) == s.appended
    ensures s.dry ==> Finish(s).writes == []
  {
    if !s.dry {
      assert s.writes == s.flushes;
      FlattenAppend(s.flushes, s.batch);
    }
  }

  /** The records of the tables in order: one batch spans them all. */
  function TableRecords<R>(kinds: seq<TableKind>, input: TableKind -> seq<Row>, env: Env<R>): seq<R>
  {
    if kinds == [] then []
    else TableRecords(kinds[..|kinds| - 1], input, env) + RowRecords(kinds[|kinds| - 1], input(kinds[|kinds| - 1]), env)
  }

  lemma StartTableKeepsHalt<R>(s: Progress<R>)
    ensures StartTable(s).halt == s.halt && StartTable(s).appended == s.appended && StartTable(s).finished == s.finished
  {
  }

  lemma {:induction false} RunRowsKeepsHalt<R>(s: Progress<R>, kind: TableKind, rows: seq<Row>, env: Env<R>)
    requires s.halt.Some?
    ensures RunRows(s, kind, rows, env).halt == s.halt
  {
    HaltedRunIgnoresRows(s, kind, rows, env);
  }

  /** A run over several tables that does not halt appends the records of
      every table in order, while its tally holds the sightings of the last
      table alone. */
  lemma {:induction false} RunTablesAppends<R>(s: Progress<R>, kinds: seq<TableKind>,
                                               input: TableKind -> seq<Row>, env: Env<R>)
    requires !s.finished
    ensures var t := RunTables(s, kinds, input, env);
            t.halt.None? ==>
              && t.appended == s.appended + TableRecords(kinds, input, env)
              && (kinds != [] ==> t.named == RowSightings(kinds[|kinds| - 1], input(kinds[|kinds| - 1]), env))
  {
    if kinds != [] {
      var init := kinds[..|kinds| - 1];
      var k := kinds[|kinds| - 1];
      var t' := RunTables(s, init, input, env);
      var u := StartTable(t');
      assert RunTables(s, kinds, input, env) == RunRows(u, k, input(k), env);
      StartTableKeepsHalt(t');
      if t'.halt.Some? {
        RunRowsKeepsHalt(u, k, input(k), env);
      } else {
        RunTablesAppends(s, init, input, env);
        RunTablesNeverFinish(s, init, input, env);
        assert u.named == [];
        RunRowsAppends(u, k, input(k), env);
        assert TableRecords(kinds, input, env) == TableRecords(init, input, env) + RowRecords(k, input(k), env);
      }
    }
  }

  /** What a whole run that does not halt leaves: every converted record of
      every table appended in cursor order; the report's tally counting the
      last table only; and, unless dry, the writes being full batches of
      `BatchCapacity` followed by one shorter remainder, which together are
      exactly the appended records. */
  lemma MigrateCompletes<R>(dry: bool, argTables: string, input: TableKind -> seq<Row>, env: Env<R>)
    requires GetTables(argTables).Some?
    ensures var t := Migrate(dry, argTables, input, env);
            var kinds := GetTables(argTables).value;
            var last := kinds[|kinds| - 1];
            t.halt.None? ==>
              && t.finished
              && t.appended == TableRecords(kinds, input, env)
              && t.stats == Tally(RowSightings(last, input(last), env))
              && (forall e, n :: CountOf(t.stats, e, n) == Occurrences(RowSightings(last, input(last), env), e, n))
              && (!dry ==> && Flatten(t.writes) == t.appended
                           && |t.writes| > 0
                           && (forall i :: 0 <= i < |t.writes| - 1 ==> |t.writes[i]| == BatchCapacity)
                           && |t.writes[|t.writes| - 1]| < BatchCapacity)
              && (dry ==> t.writes == [])
  {
    var kinds := GetTables(argTables).value;
    var last := kinds[|kinds| - 1];
    var r := RunTables(Initial<R>(dry), kinds, input, env);
    InitialInv<R>(dry);
    RunTablesPreservesInv(Initial<R>(dry), kinds, input, env);
    RunTablesNeverFinish(Initial<R>(dry), kinds, input, env);
    RunTablesAppends(Initial<R>(dry), kinds, input, env);
    if r.halt.None? {
      FinishWritesRemainder(r);
      forall e, n
        ensures CountOf(r.stats, e, n) == Occurrences(RowSightings(last, input(last), env), e, n)
      {
        TallyCounts(RowSightings(last, input(last), env), e, n);
      }
    }
  }

  /** A run that halts never reaches the final write: what was written is the
      filled batches alone, and the pending batch is lost. */
  lemma MigrateHaltLosesPending<R>(dry: bool, argTables: string, input: TableKind -> seq<Row>, env: Env<R>)
    ensures var t := Migrate(dry, argTables, input, env);
            t.halt.Some? ==>
              && !t.finished
              && (!dry ==> Flatten(t.writes) + t.batch == t.appended && t.writes == t.flushes)
              && (dry ==> t.writes == [])
  {
    MigrateInv(dry, argTables, input, env);
    var kinds := GetTables(argTables);
    if kinds.Some? {
      var r := RunTables(Initial<R>(dry), kinds.value, input, env);
      RunTablesNeverFinish(Initial<R>(dry), kinds.value, input, env);
      if r.halt.Some? {
        assert Migrate(dry, argTables, input, env) == r;
        assert r.writes == (if dry then [] else r.flushes);
      }
    }
  }

}
