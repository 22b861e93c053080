/**
 * Table selection and the SQL text sent to the source database. The text is
 * built from its lines exactly as the program writes it; the properties are
 * stated about the text.
 */
module Queries {
  import opened Wrappers

  /** The two source tables a run can read. */
  datatype TableKind = States | Statistics

  /** The name the program uses for a table, in its table lists and in
      `formulate_sql_query`. */
  function TableName(k: TableKind): (r: string)
    ensures r == "states" <==> k == States
    ensures r == "statistics" <==> k == Statistics
  {
    match k
    case States => "states"
    case Statistics => "statistics"
  }

  /** The names of a list of tables, in order. */
  function TableNames(ks: seq<TableKind>): (r: seq<string>)
    ensures |r| == |ks| && forall i :: 0 <= i < |ks| ==> r[i] == TableName(ks[i])
  {
    if ks == [] then [] else [TableName(ks[0])] + TableNames(ks[1..])
  }

  /** `get_tables`: the tables a `--table` argument selects, statistics
      before states for "both"; any other argument selects nothing (the
      program prints an error and then fails on the missing list). */
  function GetTables(key: string): (r: Option<seq<TableKind>>)
    ensures r.Some? <==> key == "states" || key == "statistics" || key == "both"
    ensures r.Some? ==> (Statistics in r.value <==> key != "states") && (States in r.value <==> key != "statistics")
    ensures r.Some? ==> forall i, j :: 0 <= i < j < |r.value| ==> r.value[i] == Statistics && r.value[j] == States
    ensures r.Some? ==> TableNames(r.value) == if key == "both" then ["statistics", "states"] else [key]
  {
    if key == "states" then Some([States])
    else if key == "statistics" then Some([Statistics])
    else if key == "both" then Some([Statistics, States])
    else None
  }

  /** `n` blanks. */
  function Spaces(n: nat): (r: string)
    ensures |r| == n && forall i :: 0 <= i < n ==> r[i] == ' '
  {
    if n == 0 then "" else Spaces(n - 1) + " "
  }

  /** A line break followed by `indent` blanks and `text`. */
  function Line(indent: nat, text: string): string
  {
    "\n" + Spaces(indent) + text
  }

  /** The items separated by `sep`. */
  function Join(items: seq<string>, sep: string): string
  {
    if |items| == 0 then ""
    else if |items| == 1 then items[0]
    else items[0] + sep + Join(items[1..], sep)
  }

  /** The columns of the branch of the states query that reads the older
      format, where an event row carries the attributes. */
  const LegacyColumns: seq<string> :=
    ["states.entity_id", "states.state", "states.attributes",
     "events.event_type as event_type", "events.time_fired as time_fired"]

  /** The columns of the branch that reads the newer format, where the
      attributes sit in `state_attributes` and there is no event row. */
  const DetachedColumns: seq<string> :=
    ["states.entity_id", "states.state", "state_attributes.shared_attrs as attributes",
     "'state_changed'", "states.last_updated as time_fired"]

  /** The columns of the aggregated-statistics query. */
  const StatisticsColumns: seq<string> :=
    ["statistics_meta.statistic_id", "statistics.mean", "statistics.min", "statistics.max",
     "state_attributes.shared_attrs", "'state_changed'", "statistics.start"]

  function LegacySelect(): string
  {
    "select " + Join(LegacyColumns, "," + Line(30, ""))
    + Line(23, "from states,") + Line(28, "events")
    + Line(23, "where events.event_id = states.event_id")
  }

  function DetachedSelect(): string
  {
    "select " + Join(DetachedColumns, "," + Line(30, ""))
    + Line(23, "from states, state_attributes")
    + Line(23, "where event_id is null")
    + Line(24, "and states.attributes_id = state_attributes.attributes_id;")
  }

  /** The query for the states table: both branches joined by UNION. */
  function StatesQuery(): string
  {
    LegacySelect() + Line(23, "UNION") + Line(23, "") + DetachedSelect()
  }

  /** The name of the session-scoped lookup table from entity id to its
      latest attributes row. */
  const LookupTable: string := "state_tmp"

  const MeanFilter: string := " AND mean != 0 "

  const WindowText: string :=
    "AND statistics.start < " + "(select min(events.time_fired)" + " as datetetime_start from events)"

  /** The clause that keeps statistics out of the time window the states
      table covers. */
  const WindowClause: string := Line(9, WindowText)

  /** The statistics query up to its zero-mean filter. */
  function StatisticsHead(): string
  {
    Line(8, "SELECT " + Join(StatisticsColumns, "," + Line(15, "")))
    + Line(8, "FROM statistics_meta,")
    + Line(13, "statistics,")
    + Line(13, "state_attributes")
    + Line(8, "WHERE statistics.metadata_id" + " = statistics_meta.id")
    + Line(8, "")
  }

  /** The statistics query after its optional window clause: the join with
      the lookup table. */
  function StatisticsTail(): string
  {
    Line(9, "AND state_attributes.attributes_id = (")
    + Line(12, "SELECT state_tmp.attributes_id")
    + Line(12, "FROM " + LookupTable)
    + Line(12, "WHERE state_tmp.entity_id" + " = statistics_meta.statistic_id)")
    + Line(8, "")
  }

  /** The statistics query; `inset` is empty unless both tables are read in
      the same run. */
  function StatisticsQuery(inset: string): string
  {
    StatisticsHead() + MeanFilter + inset + StatisticsTail()
  }

  /** `formulate_sql_query`. In the statistics branch the window clause is
      prefixed by the still-empty query text, so it is the clause alone. */
  function FormulateSqlQuery(table: string, argTables: string): (r: string)
    ensures table != "states" && table != "statistics" ==> r == ""
  {
    var sqlQuery := "";
    if table == "states" then StatesQuery()
    else if table == "statistics" then
      var inset := if argTables == "both" then sqlQuery + WindowClause else "";
      StatisticsQuery(inset)
    else sqlQuery
  }

  /** The lookup keeps the largest attributes id of an entity ... */
  const TieBreak: string := "max(states.attributes_id)"

  /** ... one row per entity id. */
  const Grouping: string := "GROUP BY states.entity_id"

  /** `formulate_tmp_table_sql`: the lookup keeps, for each entity id, the
      largest non-null attributes id. */
  function FormulateTmpTableSql(): string
  {
    "CREATE TEMPORARY TABLE IF NOT EXISTS " + LookupTable
    + Line(4, "AS SELECT " + TieBreak + " as attributes_id, states.entity_id")
    + Line(4, "FROM states")
    + Line(4, "WHERE states.attributes_id IS NOT NULL")
    + Line(4, Grouping + ";")
    + Line(4, "")
  }

  /** `t` occurs in `s` starting at index `i`. */
  predicate OccursAt(s: string, t: string, i: nat)
  {
    i + |t| <= |s| && s[i..i + |t|] == t
  }

  /** `t` occurs in `s` as a contiguous piece. */
  ghost predicate Contains(s: string, t: string)
  {
    exists i :: OccursAt(s, t, i)
  }

  /** Only blanks and line breaks. */
  predicate Blank(s: string)
  {
    forall i :: 0 <= i < |s| ==> s[i] == ' ' || s[i] == '\n'
  }

  /** `q` is `a` and `b` joined by a bare UNION keyword: the combinator that
      drops duplicate rows, not UNION ALL, since the next token is `b`'s. */
  ghost predicate DistinctUnion(q: string, a: string, b: string)
  {
    exists before: string, after: string {:trigger Blank(before), Blank(after)} ::
      && |before| > 0 && |after| > 0 && Blank(before) && Blank(after)
      && q == a + before + "UNION" + after + b
  }

  lemma ContainsAt(s: string, t: string, pre: string, post: string)
    requires s == pre + t + post
    ensures Contains(s, t)
  {
    assert s[|pre|..|pre| + |t|] == t;
    assert OccursAt(s, t, |pre|);
  }

  /** A character of an occurring piece occurs in the whole. */
  lemma ContainsChar(s: string, t: string, j: nat)
    requires Contains(s, t) && j < |t|
    ensures t[j] in s
  {
    var i: nat :| OccursAt(s, t, i);
    assert s[i..i + |t|][j] == t[j];
  }

  lemma {:induction false} SpacesLackChar(n: nat, c: char)
    requires c != ' '
    ensures c !in Spaces(n)
  {
    if n > 0 {
      SpacesLackChar(n - 1, c);
    }
  }

  lemma {:induction false} JoinLacksChar(items: seq<string>, sep: string, c: char)
    requires c !in sep && forall i :: 0 <= i < |items| ==> c !in items[i]
    ensures c !in Join(items, sep)
  {
    if |items| > 1 {
      JoinLacksChar(items[1..], sep, c);
    }
  }

  /** The states query is the legacy branch and the detached branch, five
      columns each, joined by a duplicate-eliminating UNION. */
  lemma StatesQueryIsDistinctUnion()
    ensures FormulateSqlQuery("states", "both") == FormulateSqlQuery("states", "states") == StatesQuery()
    ensures DistinctUnion(StatesQuery(), LegacySelect(), DetachedSelect())
    ensures |LegacyColumns| == |DetachedColumns| == 5
    ensures LegacySelect()[..7] == DetachedSelect()[..7] == "select "
  {
    var before, after := Line(23, ""), Line(23, "");
    assert Blank(before) && Blank(after);
    assert StatesQuery() == LegacySelect() + before + "UNION" + after + DetachedSelect();
  }

  lemma {:induction false} ContainsTransitive(a: string, b: string, c: string)
    requires Contains(a, b) && Contains(b, c)
    ensures Contains(a, c)
  {
    var i: nat :| OccursAt(a, b, i);
    var j: nat :| OccursAt(b, c, j);
    forall k | 0 <= k < |c|
      ensures a[i + j + k] == c[k]
    {
      assert b[j..j + |c|][k] == c[k];
      assert a[i..i + |b|][j + k] == b[j + k];
    }
    assert a[i + j..i + j + |c|] == c;
    assert OccursAt(a, c, i + j);
  }

  lemma ContainsLeft(a: string, b: string)
    ensures Contains(a + b, a)
  {
    ContainsAt(a + b, a, "", b);
  }

  lemma ContainsRight(a: string, b: string)
    ensures Contains(a + b, b)
  {
    ContainsAt(a + b, b, a, "");
  }

  lemma LineLacksChar(indent: nat, text: string, c: char)
    requires c != ' ' && c != '\n' && c !in text
    ensures c !in Line(indent, text)
  {
    SpacesLackChar(indent, c);
  }

  /** A line contains its text. */
  lemma LineContainsText(indent: nat, text: string)
    ensures Contains(Line(indent, text), text)
  {
    ContainsRight("\n" + Spaces(indent), text);
  }

  /** The statistics query selects seven columns, always filters out a zero
      mean, and carries the window clause exactly when both tables are read. */
  lemma StatisticsQueryFilters(argTables: string)
    ensures |StatisticsColumns| == 7
    ensures Contains(FormulateSqlQuery("statistics", argTables), MeanFilter)
    ensures Contains(FormulateSqlQuery("statistics", argTables), WindowClause) <==> argTables == "both"
  {
    var inset := if argTables == "both" then WindowClause else "";
    var q := FormulateSqlQuery("statistics", argTables);
    assert "" + WindowClause == WindowClause;
    assert q == StatisticsHead() + MeanFilter + inset + StatisticsTail();
    ContainsRight(StatisticsHead(), MeanFilter);
    ContainsLeft(StatisticsHead() + MeanFilter, inset);
    ContainsLeft(StatisticsHead() + MeanFilter + inset, StatisticsTail());
    ContainsTransitive(StatisticsHead() + MeanFilter + inset, StatisticsHead() + MeanFilter, MeanFilter);
    ContainsTransitive(q, StatisticsHead() + MeanFilter + inset, MeanFilter);
    if argTables == "both" {
      ContainsRight(StatisticsHead() + MeanFilter, inset);
      ContainsTransitive(q, StatisticsHead() + MeanFilter + inset, WindowClause);
    } else {
      NoLessThanWithoutWindow();
      WindowClauseHasLessThan();
      if Contains(q, WindowClause) {
        ContainsChar(q, WindowClause, 31);
      }
    }
  }

  lemma WindowClauseHasLessThan()
    ensures |WindowClause| > 31 && WindowClause[31] == '<'
  {
    var first := "AND statistics.start < ";
    assert first[21] == '<';
    assert WindowText == first + ("(select min(events.time_fired)" + " as datetetime_start from events)");
    assert WindowClause == ("\n" + Spaces(9)) + WindowText;
  }

  /** Without the window clause the statistics query has no `<` in it. */
  lemma NoLessThanWithoutWindow()
    ensures '<' !in StatisticsQuery("")
  {
    HeadLacksLessThan();
    TailLacksLessThan();
    assert StatisticsQuery("") == StatisticsHead() + MeanFilter + "" + StatisticsTail();
  }

  lemma HeadLacksLessThan()
    ensures '<' !in StatisticsHead()
  {
    SelectListLacksLessThan();
    FromListLacksLessThan();
    assert '<' !in Line(8, "WHERE statistics.metadata_id" + " = statistics_meta.id") by {
      LineLacksChar(8, "WHERE statistics.metadata_id" + " = statistics_meta.id", '<');
    }
    assert '<' !in Line(8, "") by {
      LineLacksChar(8, "", '<');
    }
  }

  lemma SelectListLacksLessThan()
    ensures '<' !in Line(8, "SELECT " + Join(StatisticsColumns, "," + Line(15, "")))
  {
    ColumnsLackLessThan();
    LineLacksChar(8, "SELECT " + Join(StatisticsColumns, "," + Line(15, "")), '<');
  }

  lemma ColumnsLackLessThan()
    ensures '<' !in Join(StatisticsColumns, "," + Line(15, ""))
  {
    SpacesLackChar(15, '<');
    JoinLacksChar(StatisticsColumns, "," + Line(15, ""), '<');
  }

  lemma FromListLacksLessThan()
    ensures '<' !in Line(8, "FROM statistics_meta,") + Line(13, "statistics,") + Line(13, "state_attributes")
  {
    assert '<' !in Line(8, "FROM statistics_meta,") by {
      LineLacksChar(8, "FROM statistics_meta,", '<');
    }
    assert '<' !in Line(13, "statistics,") by {
      LineLacksChar(13, "statistics,", '<');
    }
    assert '<' !in Line(13, "state_attributes") by {
      LineLacksChar(13, "state_attributes", '<');
    }
  }

  lemma TailLacksLessThan()
    ensures '<' !in StatisticsTail()
  {
    LookupSelectLacksLessThan();
    LookupWhereLacksLessThan();
    assert '<' !in Line(9, "AND state_attributes.attributes_id = (") by {
      LineLacksChar(9, "AND state_attributes.attributes_id = (", '<');
    }
    assert '<' !in Line(8, "") by {
      LineLacksChar(8, "", '<');
    }
  }

  lemma LookupSelectLacksLessThan()
    ensures '<' !in Line(12, "SELECT state_tmp.attributes_id") + Line(12, "FROM " + LookupTable)
  {
    assert '<' !in Line(12, "SELECT state_tmp.attributes_id") by {
      LineLacksChar(12, "SELECT state_tmp.attributes_id", '<');
    }
    assert '<' !in Line(12, "FROM " + LookupTable) by {
      LineLacksChar(12, "FROM " + LookupTable, '<');
    }
  }

  lemma LookupWhereLacksLessThan()
    ensures '<' !in Line(12, "WHERE state_tmp.entity_id" + " = statistics_meta.statistic_id)")
  {
    LineLacksChar(12, "WHERE state_tmp.entity_id" + " = statistics_meta.statistic_id)", '<');
  }

  /** The lookup the statistics query reads is the table the DDL creates,
      and the DDL keeps the largest attributes id per entity id. */
  lemma TmpTableFeedsStatisticsQuery(argTables: string)
    ensures Contains(FormulateTmpTableSql(), "CREATE TEMPORARY TABLE IF NOT EXISTS " + LookupTable)
    ensures Contains(FormulateTmpTableSql(), TieBreak)
    ensures Contains(FormulateTmpTableSql(), Grouping)
    ensures Contains(FormulateSqlQuery("statistics", argTables), "FROM " + LookupTable)
  {
    var create := "CREATE TEMPORARY TABLE IF NOT EXISTS " + LookupTable;
    var l1 := Line(4, "AS SELECT " + TieBreak + " as attributes_id, states.entity_id");
    var l2, l3 := Line(4, "FROM states"), Line(4, "WHERE states.attributes_id IS NOT NULL");
    var l4, l5 := Line(4, Grouping + ";"), Line(4, "");
    var ddl := FormulateTmpTableSql();
    assert ddl == create + l1 + l2 + l3 + l4 + l5;
    // the CREATE line opens the text
    ContainsLeft(create + l1 + l2 + l3 + l4, l5);
    ContainsLeft(create + l1 + l2 + l3, l4);
    ContainsLeft(create + l1 + l2, l3);
    ContainsLeft(create + l1, l2);
    ContainsLeft(create, l1);
    ContainsTransitive(ddl, create + l1 + l2 + l3 + l4, create + l1 + l2 + l3);
    ContainsTransitive(ddl, create + l1 + l2 + l3, create + l1 + l2);
    ContainsTransitive(ddl, create + l1 + l2, create + l1);
    ContainsTransitive(ddl, create + l1, create);
    // the tie-break sits in the first line after it
    ContainsRight(create, l1);
    ContainsTransitive(ddl, create + l1, l1);
    LineContainsText(4, "AS SELECT " + TieBreak + " as attributes_id, states.entity_id");
    ContainsLeft("AS SELECT " + TieBreak, " as attributes_id, states.entity_id");
    ContainsRight("AS SELECT ", TieBreak);
    ContainsTransitive(ddl, l1, "AS SELECT " + TieBreak + " as attributes_id, states.entity_id");
    ContainsTransitive(ddl, "AS SELECT " + TieBreak + " as attributes_id, states.entity_id", "AS SELECT " + TieBreak);
    ContainsTransitive(ddl, "AS SELECT " + TieBreak, TieBreak);
    // the grouping is the fourth line
    ContainsRight(create + l1 + l2 + l3, l4);
    ContainsTransitive(ddl, create + l1 + l2 + l3 + l4, l4);
    LineContainsText(4, Grouping + ";");
    ContainsLeft(Grouping, ";");
    ContainsTransitive(ddl, l4, Grouping + ";");
    ContainsTransitive(ddl, Grouping + ";", Grouping);
    StatisticsQueryReadsLookup(argTables);
  }

  lemma StatisticsQueryReadsLookup(argTables: string)
    ensures Contains(FormulateSqlQuery("statistics", argTables), "FROM " + LookupTable)
  {
    var inset := if argTables == "both" then WindowClause else "";
    var q := FormulateSqlQuery("statistics", argTables);
    assert "" + WindowClause == WindowClause;
    var t1 := Line(9, "AND state_attributes.attributes_id = (");
    var t2 := Line(12, "SELECT state_tmp.attributes_id");
    var t3 := Line(12, "FROM " + LookupTable);
    var t4 := Line(12, "WHERE state_tmp.entity_id" + " = statistics_meta.statistic_id)");
    var t5 := Line(8, "");
    var pre := StatisticsHead() + MeanFilter + inset;
    assert q == pre + StatisticsTail();
    assert StatisticsTail() == t1 + t2 + t3 + t4 + t5;
    ContainsRight(pre, StatisticsTail());
    ContainsLeft(t1 + t2 + t3 + t4, t5);
    ContainsLeft(t1 + t2 + t3, t4);
    ContainsRight(t1 + t2, t3);
    ContainsTransitive(q, StatisticsTail(), t1 + t2 + t3 + t4);
    ContainsTransitive(q, t1 + t2 + t3 + t4, t1 + t2 + t3);
    ContainsTransitive(q, t1 + t2 + t3, t3);
    LineContainsText(12, "FROM " + LookupTable);
    ContainsTransitive(q, t3, "FROM " + LookupTable);
  }

}
