/**
 * The friendly-name statistics collected while rows are migrated: how often
 * each entity id was seen under each friendly name, the "new name"
 * diagnostic, and the sorted summary printed at the end of a run.
 */
module Statistics {
  import opened Values

  /** entity id -> friendly name -> number of observations. */
  type NameTally = map<Scalar, map<Scalar, nat>>

  /** One observation: an entity id and the friendly name it carried. */
  datatype Sighting = Sighting(entity: Scalar, name: Scalar)

  /** The count a tally holds for an entity and a name, zero if none. */
  function CountOf(t: NameTally, e: Scalar, n: Scalar): nat
  {
    if e in t && n in t[e] then t[e][n] else 0
  }

  /** The three-way update of homeassistant2influxdb.py:232-240: a new
      entity starts with the name at one, a new name of a known entity starts
      at one, a known pair goes up by one. */
  function Bump(t: NameTally, e: Scalar, n: Scalar): (r: NameTally)
    ensures r.Keys == t.Keys + {e}
    ensures r[e].Keys == (if e in t then t[e].Keys else {}) + {n}
    ensures CountOf(r, e, n) == CountOf(t, e, n) + 1
    ensures forall e', n' :: e' != e || n' != n ==> CountOf(r, e', n') == CountOf(t, e', n')
    ensures forall e' :: e' in t && e' != e ==> r[e'] == t[e']
  {
    if e !in t then t[e := map[n := 1]]
    else if n !in t[e] then t[e := t[e][n := 1]]
    else t[e := t[e][n := t[e][n] + 1]]
  }

  /** The "new name" diagnostic fires when the entity is already known but
      the name is not among its names. */
  predicate NewNameFires(t: NameTally, e: Scalar, n: Scalar)
  {
    e in t && n !in t[e]
  }

  /** The update of homeassistant2influxdb.py:232-240 as the loop performs it,
      telling also whether it took the branch that prints a new name. */
  method CountSighting(t: NameTally, e: Scalar, n: Scalar) returns (r: NameTally, isNew: bool)
    ensures r == Bump(t, e, n)
    ensures isNew <==> NewNameFires(t, e, n)
    ensures isNew ==> e in r && r[e].Keys == t[e].Keys + {n} && r[e][n] == 1
  {
    r, isNew := t, false;
    if e !in r {
      r := r[e := map[n := 1]];
    } else if n !in r[e] {
      r := r[e := r[e][n := 1]];
      isNew := true;
    } else {
      r := r[e := r[e][n := r[e][n] + 1]];
    }
  }

  /** The tally after the given sightings, in order, from an empty one. */
  function Tally(ss: seq<Sighting>): NameTally
  {
    if ss == [] then map[] else
      var last := ss[|ss| - 1];
      Bump(Tally(ss[..|ss| - 1]), last.entity, last.name)
  }

  /** How many of the sightings are of this entity under this name. */
  function Occurrences(ss: seq<Sighting>, e: Scalar, n: Scalar): nat
  {
    if ss == [] then 0 else
      Occurrences(ss[..|ss| - 1], e, n) + (if ss[|ss| - 1] == Sighting(e, n) then 1 else 0)
  }

  lemma {:induction false} OccurrencesPositive(ss: seq<Sighting>, e: Scalar, n: Scalar)
    ensures Occurrences(ss, e, n) > 0 <==> exists i :: 0 <= i < |ss| && ss[i] == Sighting(e, n)
  {
    if ss != [] {
      var init := ss[..|ss| - 1];
      OccurrencesPositive(init, e, n);
      if Occurrences(init, e, n) > 0 {
        var i :| 0 <= i < |init| && init[i] == Sighting(e, n);
        assert ss[i] == Sighting(e, n);
      }
      if exists i :: 0 <= i < |ss| && ss[i] == Sighting(e, n) {
        var i :| 0 <= i < |ss| && ss[i] == Sighting(e, n);
        if i < |init| {
          assert init[i] == Sighting(e, n);
        }
      }
    }
  }

  /** The tally counts every pair exactly as often as it was seen. */
  lemma {:induction false} TallyCounts(ss: seq<Sighting>, e: Scalar, n: Scalar)
    ensures CountOf(Tally(ss), e, n) == Occurrences(ss, e, n)
  {
    if ss != [] {
      TallyCounts(ss[..|ss| - 1], e, n);
    }
  }

  /** The tally knows an entity exactly when some sighting named it. */
  lemma {:induction false} TallyKnowsEntity(ss: seq<Sighting>, e: Scalar)
    ensures e in Tally(ss) <==> exists i :: 0 <= i < |ss| && ss[i].entity == e
  {
    if ss != [] {
      var init := ss[..|ss| - 1];
      TallyKnowsEntity(init, e);
      if e in Tally(init) {
        var i :| 0 <= i < |init| && init[i].entity == e;
        assert ss[i].entity == e;
      }
      if exists i :: 0 <= i < |ss| && ss[i].entity == e {
        var i :| 0 <= i < |ss| && ss[i].entity == e;
        if i < |init| {
          assert init[i].entity == e;
        }
      }
    }
  }

  /** Every count the tally holds is at least one. */
  lemma {:induction false} TallyCountsPositive(ss: seq<Sighting>, e: Scalar, n: Scalar)
    requires e in Tally(ss) && n in Tally(ss)[e]
    ensures Tally(ss)[e][n] > 0
  {
    var init := ss[..|ss| - 1];
    if e in Tally(init) && n in Tally(init)[e] {
      TallyCountsPositive(init, e, n);
    }
  }

  /** A name is listed under a known entity exactly when that pair was seen. */
  lemma TallyListsName(ss: seq<Sighting>, e: Scalar, n: Scalar)
    requires e in Tally(ss)
    ensures n in Tally(ss)[e] <==> exists i :: 0 <= i < |ss| && ss[i] == Sighting(e, n)
  {
    TallyCounts(ss, e, n);
    OccurrencesPositive(ss, e, n);
    if n in Tally(ss)[e] {
      TallyCountsPositive(ss, e, n);
    }
  }

  /** The diagnostic fires for the sighting at index `i` exactly when its
      entity was seen before and never before under this name; so an
      entity's first name never fires it. */
  lemma NewNameFiresIff(ss: seq<Sighting>, i: nat)
    requires i < |ss|
    ensures NewNameFires(Tally(ss[..i]), ss[i].entity, ss[i].name)
            <==> (exists j :: 0 <= j < i && ss[j].entity == ss[i].entity)
                 && (forall j :: 0 <= j < i ==> ss[j] != ss[i])
  {
    var prefix := ss[..i];
    var e, n := ss[i].entity, ss[i].name;
    TallyKnowsEntity(prefix, e);
    if e in Tally(prefix) {
      TallyListsName(prefix, e, n);
    }
    assert forall j :: 0 <= j < i ==> prefix[j] == ss[j];
    assert ss[i] == Sighting(e, n);
  }

  lemma TallySnoc(ss: seq<Sighting>, x: Sighting)
    ensures Tally(ss + [x]) == Bump(Tally(ss), x.entity, x.name)
  {
    assert (ss + [x])[..|ss|] == ss;
  }

  /** The summary of the sightings (A,X),(A,X),(A,Y),(B,Z): A has X twice and
      Y once, B has Z once, and only the third sighting is a new name. */
  lemma SummaryExample(a: Scalar, b: Scalar, x: Scalar, y: Scalar, z: Scalar)
    requires a != b && x != y
    ensures var ss := [Sighting(a, x), Sighting(a, x), Sighting(a, y), Sighting(b, z)];
      && Tally(ss) == map[a := map[x := 2, y := 1], b := map[z := 1]]
      && forall i :: 0 <= i < |ss| ==> (NewNameFires(Tally(ss[..i]), ss[i].entity, ss[i].name) <==> i == 2)
  {
    var ss := [Sighting(a, x), Sighting(a, x), Sighting(a, y), Sighting(b, z)];
    ExamplePrefixTallies(a, b, x, y, z);
    TallySnoc(ss[..3], ss[3]);
    assert ss[..3] + [ss[3]] == ss;
    assert ss[..0] == [];
  }

  lemma ExamplePrefixTallies(a: Scalar, b: Scalar, x: Scalar, y: Scalar, z: Scalar)
    requires a != b && x != y
    ensures var ss := [Sighting(a, x), Sighting(a, x), Sighting(a, y), Sighting(b, z)];
      && Tally(ss[..1]) == map[a := map[x := 1]]
      && Tally(ss[..2]) == map[a := map[x := 2]]
      && Tally(ss[..3]) == map[a := map[x := 2, y := 1]]
  {
    var ss := [Sighting(a, x), Sighting(a, x), Sighting(a, y), Sighting(b, z)];
    TallySnoc([], ss[0]);
    assert [] + [ss[0]] == ss[..1];
    TallySnoc(ss[..1], ss[1]);
    assert ss[..1] + [ss[1]] == ss[..2];
    assert map[x := 1][x := 2] == map[x := 2];
    TallySnoc(ss[..2], ss[2]);
    assert ss[..2] + [ss[2]] == ss[..3];
  }

  /** Strictly ascending in the report order: sorted and without repeats. */
  predicate StrictlySorted(s: seq<Scalar>)
  {
    forall i, j :: 0 <= i < j < |s| ==> ScalarLess(s[i], s[j])
  }

  /** The least element of a non-empty set in the report order. */
  method Least(s: set<Scalar>) returns (m: Scalar)
    requires s != {}
    ensures m in s
    ensures forall y :: y in s && y != m ==> ScalarLess(m, y)
  {
    m :| m in s;
    var rest := s - {m};
    while rest != {}
      invariant rest <= s && m in s && m !in rest
      invariant forall y :: y in s - rest && y != m ==> ScalarLess(m, y)
      decreases rest
    {
      var y :| y in rest;
      if ScalarLess(y, m) {
        forall z | z in s - rest && z != y
          ensures ScalarLess(y, z)
        {
          if z != m {
            ScalarLessTransitive(y, m, z);
          }
        }
        m := y;
      } else {
        ScalarLessTotal(y, m);
      }
      rest := rest - {y};
    }
  }

  /** `sorted` over a set of keys: every key once, in ascending order. */
  method SortScalars(s: set<Scalar>) returns (r: seq<Scalar>)
    ensures StrictlySorted(r)
    ensures forall x :: x in r <==> x in s
    ensures |r| == |s|
  {
    r := [];
    var rest := s;
    while rest != {}
      invariant rest <= s
      invariant forall x :: x in r <==> x in s && x !in rest
      invariant |r| + |rest| == |s|
      invariant StrictlySorted(r)
      invariant forall i, y :: 0 <= i < |r| && y in rest ==> ScalarLess(r[i], y)
      decreases rest
    {
      var m := Least(rest);
      r := r + [m];
      rest := rest - {m};
    }
  }

  datatype NameCount = NameCount(name: Scalar, count: nat)

  /** One entity of the summary, with its names and their counts. */
  datatype ReportEntry = ReportEntry(entity: Scalar, names: seq<NameCount>)

  /** The names of one entity listed in ascending order, each once, with the
      count the tally holds. */
  ghost predicate ListsNames(ns: seq<NameCount>, m: map<Scalar, nat>)
  {
    && (forall i, j :: 0 <= i < j < |ns| ==> ScalarLess(ns[i].name, ns[j].name))
    && (forall n :: n in m <==> exists i :: 0 <= i < |ns| && ns[i].name == n)
    && (forall i :: 0 <= i < |ns| ==> ns[i].name in m && ns[i].count == m[ns[i].name])
  }

  /** The names of one entity, sorted, with their counts. */
  method ListNames(m: map<Scalar, nat>) returns (ns: seq<NameCount>)
    ensures ListsNames(ns, m)
  {
    var names := SortScalars(m.Keys);
    ns := [];
    for l := 0 to |names|
      invariant |ns| == l
      invariant forall i :: 0 <= i < l ==> ns[i] == NameCount(names[i], m[names[i]])
    {
      ns := ns + [NameCount(names[l], m[names[l]])];
    }
    forall n | n in m
      ensures exists i :: 0 <= i < |ns| && ns[i].name == n
    {
      var i :| 0 <= i < |names| && names[i] == n;
      assert ns[i].name == n;
    }
  }

  /** The summary of a tally: its entities in ascending order, each once,
      each with its names in ascending order and their counts. */
  ghost predicate Summarizes(r: seq<ReportEntry>, t: NameTally)
  {
    && |r| == |t.Keys|
    && (forall i, j :: 0 <= i < j < |r| ==> ScalarLess(r[i].entity, r[j].entity))
    && (forall e :: e in t <==> exists i :: 0 <= i < |r| && r[i].entity == e)
    && (forall i :: 0 <= i < |r| ==> r[i].entity in t && ListsNames(r[i].names, t[r[i].entity]))
  }

  /** The report entry for entity `e` of the tally. */
  ghost predicate EntryFor(x: ReportEntry, e: Scalar, t: NameTally)
  {
    x.entity == e && e in t && ListsNames(x.names, t[e])
  }

  lemma SummaryOfEntries(r: seq<ReportEntry>, entities: seq<Scalar>, t: NameTally)
    requires StrictlySorted(entities) && |entities| == |t.Keys|
    requires forall x :: x in entities <==> x in t
    requires |r| == |entities| && forall i :: 0 <= i < |r| ==> EntryFor(r[i], entities[i], t)
    ensures Summarizes(r, t)
  {
    forall e | e in t
      ensures exists i :: 0 <= i < |r| && r[i].entity == e
    {
      var i :| 0 <= i < |entities| && entities[i] == e;
      assert EntryFor(r[i], entities[i], t);
    }
  }

  /** The final summary of homeassistant2influxdb.py:270-274. */
  method BuildReport(t: NameTally) returns (r: seq<ReportEntry>)
    ensures Summarizes(r, t)
  {
    var entities := SortScalars(t.Keys);
    r := [];
    for k := 0 to |entities|
      invariant |r| == k
      invariant forall i :: 0 <= i < k ==> EntryFor(r[i], entities[i], t)
    {
      var e := entities[k];
      assert e in t;
      var names := ListNames(t[e]);
      r := r + [ReportEntry(e, names)];
    }
    SummaryOfEntries(r, entities, t);
  }

}
