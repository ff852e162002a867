/** Relationship inference of the DDL parser (`_process_relationships` and
    `_process_junction_table`): foreign keys between parsed tables become
    ManyToOne/OneToMany pairs, and two-key junction tables become a
    ManyToMany pair, appended in place to the tables' `relationships`.

    The specification collects every append as an `Event` (which table,
    which record) in the order the loops perform them; a table's new
    relationships are the records of the events aimed at it, in order. */
module DdlRelationships {
  import opened Wrappers
  import opened Strings
  import opened DdlModel

  /** `table_map[name]`: the dict comprehension keeps the last table of each
      name. */
  function Lookup(ts: seq<Table>, name: string): (r: Option<nat>)
    ensures r.Some? ==> (r.value < |ts| && ts[r.value].name == name
      && forall j :: r.value < j < |ts| ==> ts[j].name != name)
    ensures r.None? ==> forall j :: 0 <= j < |ts| ==> ts[j].name != name
    decreases |ts|
  {
    if |ts| == 0 then None
    else if ts[|ts| - 1].name == name then Some(|ts| - 1)
    else Lookup(ts[..|ts| - 1], name)
  }

  /** One append: `rel` goes to the end of table `target`'s relationships. */
  datatype Event = Event(target: nat, rel: Relationship)

  /** The appends for foreign key `fk` of table `k`: a ManyToOne on `k` and
      a OneToMany on the referenced table, or nothing when that table does
      not exist. */
  function FkEvents(ts: seq<Table>, k: nat, fk: ForeignKey): seq<Event>
    requires k < |ts|
  {
    match Lookup(ts, fk.referencedTable)
    case None => []
    case Some(r) =>
      [Event(k, ManyToOne(ts[r].className, DdlCamel(fk.referencedTable, false), fk.column)),
       Event(r, OneToMany(ts[k].className, DdlCamel(ts[k].name + "s", false), DdlCamel(fk.referencedTable, false)))]
  }

  /** A foreign key appends nothing, or a many-to-one record on its own
      table followed by a one-to-many record on the referenced one, and
      both name tables that exist. */
  lemma FkEventsShape(ts: seq<Table>, k: nat, fk: ForeignKey)
    requires k < |ts|
    ensures var r := FkEvents(ts, k, fk);
      |r| == 0 || (|r| == 2 && r[0].rel.ManyToOne? && r[1].rel.OneToMany?
                   && r[0].target == k && ts[r[1].target].name == fk.referencedTable)
    ensures var r := FkEvents(ts, k, fk);
      |r| == 2 <==> exists j :: 0 <= j < |ts| && ts[j].name == fk.referencedTable
  {
  }

  /** The appends for the first `f` foreign keys of table `k`. */
  function TableFkEvents(ts: seq<Table>, k: nat, f: nat): seq<Event>
    requires k < |ts| && f <= |ts[k].foreignKeys|
    decreases f
  {
    if f == 0 then []
    else TableFkEvents(ts, k, f - 1) + FkEvents(ts, k, ts[k].foreignKeys[f - 1])
  }

  /** The appends of the first pass over the first `n` tables. */
  function DirectEvents(ts: seq<Table>, n: nat): seq<Event>
    requires n <= |ts|
    decreases n
  {
    if n == 0 then []
    else DirectEvents(ts, n - 1) + TableFkEvents(ts, n - 1, |ts[n - 1].foreignKeys|)
  }

  /** A junction table: examined because it has at least two foreign keys
      and at most three columns, accepted because it has exactly two and
      both referenced tables exist. */
  predicate IsJunction(ts: seq<Table>, j: nat)
    requires j < |ts|
    ensures IsJunction(ts, j) ==>
      (|ts[j].foreignKeys| == 2
       && (exists a :: 0 <= a < |ts| && ts[a].name == ts[j].foreignKeys[0].referencedTable)
       && (exists b :: 0 <= b < |ts| && ts[b].name == ts[j].foreignKeys[1].referencedTable))
  {
    |ts[j].foreignKeys| >= 2 && |ts[j].columns| <= 3
    && |ts[j].foreignKeys| == 2
    && Lookup(ts, ts[j].foreignKeys[0].referencedTable).Some?
    && Lookup(ts, ts[j].foreignKeys[1].referencedTable).Some?
  }

  /** The two ManyToMany appends of junction table `j`, the join and
      inverse join columns swapped between the two sides. */
  function JunctionEvents(ts: seq<Table>, j: nat): seq<Event>
    requires j < |ts|
  {
    if !IsJunction(ts, j) then []
    else
      var fk1 := ts[j].foreignKeys[0];
      var fk2 := ts[j].foreignKeys[1];
      var t1 := Lookup(ts, fk1.referencedTable).value;
      var t2 := Lookup(ts, fk2.referencedTable).value;
      [Event(t1, ManyToMany(ts[t2].className, DdlCamel(ts[t2].name + "s", false),
                            JoinTable(ts[j].name, fk1.column, fk2.column))),
       Event(t2, ManyToMany(ts[t1].className, DdlCamel(ts[t1].name + "s", false),
                            JoinTable(ts[j].name, fk2.column, fk1.column)))]
  }

  /** A candidate appends nothing, or, exactly when it is a junction table,
      one ManyToMany record on the table each of its keys references. */
  lemma JunctionEventsShape(ts: seq<Table>, j: nat)
    requires j < |ts|
    ensures var r := JunctionEvents(ts, j);
      |r| == 0 || (|r| == 2 && r[0].rel.ManyToMany? && r[1].rel.ManyToMany?
                   && ts[r[0].target].name == ts[j].foreignKeys[0].referencedTable
                   && ts[r[1].target].name == ts[j].foreignKeys[1].referencedTable)
    ensures |JunctionEvents(ts, j)| == 2 <==> IsJunction(ts, j)
  {
  }

  /** The appends of the second pass over the first `n` tables. */
  function AllJunctionEvents(ts: seq<Table>, n: nat): seq<Event>
    requires n <= |ts|
    decreases n
  {
    if n == 0 then [] else AllJunctionEvents(ts, n - 1) + JunctionEvents(ts, n - 1)
  }

  /** The records of the events aimed at table `t`, in order. */
  function Delivered(evs: seq<Event>, t: nat): seq<Relationship>
    decreases |evs|
  {
    if |evs| == 0 then []
    else Delivered(evs[..|evs| - 1], t) + (if evs[|evs| - 1].target == t then [evs[|evs| - 1].rel] else [])
  }

  /** Table `tab` (index `t`) after the appends `evs`. */
  function Apply(tab: Table, t: nat, evs: seq<Event>): Table {
    tab.(relationships := tab.relationships + Delivered(evs, t))
  }

  /** Everything both passes append, in order. */
  function AllEvents(ts: seq<Table>): seq<Event> {
    DirectEvents(ts, |ts|) + AllJunctionEvents(ts, |ts|)
  }

  /** The relationships inference appends to table `t`. */
  function NewRelationships(ts: seq<Table>, t: nat): seq<Relationship> {
    Delivered(AllEvents(ts), t)
  }

  /** The tables after `_process_relationships`. */
  function Inferred(ts: seq<Table>): (r: seq<Table>)
    ensures |r| == |ts|
  {
    seq(|ts|, t requires 0 <= t < |ts| =>
      Apply(ts[t], t, AllEvents(ts)).(isJunctionTable := ts[t].isJunctionTable || IsJunction(ts, t)))
  }

  lemma {:induction false} DeliveredAppend(evs: seq<Event>, more: seq<Event>, t: nat)
    ensures Delivered(evs + more, t) == Delivered(evs, t) + Delivered(more, t)
    decreases |more|
  {
    if |more| > 0 {
      var m := more[..|more| - 1];
      var last := more[|more| - 1];
      var tail := if last.target == t then [last.rel] else [];
      DeliveredAppend(evs, m, t);
      assert (evs + more)[..|evs + more| - 1] == evs + m;
      assert (evs + more)[|evs + more| - 1] == last;
      assert Delivered(evs + more, t) == Delivered(evs + m, t) + tail;
      assert Delivered(more, t) == Delivered(m, t) + tail;
    } else {
      assert evs + more == evs;
    }
  }

  lemma ApplyAppend(tab: Table, t: nat, evs: seq<Event>, more: seq<Event>)
    ensures Apply(Apply(tab, t, evs), t, more) == Apply(tab, t, evs + more)
  {
    DeliveredAppend(evs, more, t);
  }

  lemma NothingDelivered(evs: seq<Event>)
    requires evs == []
    ensures forall t :: Delivered(evs, t) == []
  {
  }

  lemma DeliveredPair(evs: seq<Event>, t: nat)
    requires |evs| == 2
    ensures Delivered(evs, t) == (if evs[0].target == t then [evs[0].rel] else [])
      + (if evs[1].target == t then [evs[1].rel] else [])
  {
    assert evs[..1][..0] == [];
    assert Delivered(evs[..1], t) == (if evs[0].target == t then [evs[0].rel] else []);
  }

  // ---------------------------------------------------------------------
  // The in-place passes

  /** `table_map` holds the last index of each name. */
  ghost predicate MapsLast(tableMap: map<string, nat>, ts: seq<Table>) {
    forall name :: (if name in tableMap then Some(tableMap[name]) else None) == Lookup(ts, name)
  }

  /** The fields inference never changes. */
  predicate SameSkeleton(x: Table, y: Table) {
    x.name == y.name && x.className == y.className && x.columns == y.columns
    && x.primaryKey == y.primaryKey && x.foreignKeys == y.foreignKeys
  }

  /** Table `t` of `ts` after the appends `hist`, its flag set when it is
      a junction table below `flagged`. */
  ghost function Expected(ts: seq<Table>, t: nat, hist: seq<Event>, flagged: nat): Table
    requires t < |ts|
  {
    Apply(ts[t], t, hist).(isJunctionTable := ts[t].isJunctionTable || (t < flagged && IsJunction(ts, t)))
  }

  /** The first `n` tables of `a` are as `Expected`. */
  ghost predicate AppliedUpTo(a: seq<Table>, ts: seq<Table>, hist: seq<Event>, flagged: nat, n: nat)
    requires n <= |a| == |ts|
    decreases n
  {
    n == 0 || (AppliedUpTo(a, ts, hist, flagged, n - 1) && a[n - 1] == Expected(ts, n - 1, hist, flagged))
  }

  /** Every table of `a` is as `Expected`. */
  ghost predicate AppliedAll(a: seq<Table>, ts: seq<Table>, hist: seq<Event>, flagged: nat)
    requires |a| == |ts|
  {
    AppliedUpTo(a, ts, hist, flagged, |a|)
  }

  lemma {:induction false} AppliedUpToIff(a: seq<Table>, ts: seq<Table>, hist: seq<Event>, flagged: nat, n: nat)
    requires n <= |a| == |ts|
    ensures AppliedUpTo(a, ts, hist, flagged, n) <==> forall t :: 0 <= t < n ==> a[t] == Expected(ts, t, hist, flagged)
    decreases n
  {
    if n != 0 { AppliedUpToIff(a, ts, hist, flagged, n - 1); }
  }

  lemma AppliedIff(a: seq<Table>, ts: seq<Table>, hist: seq<Event>, flagged: nat)
    requires |a| == |ts|
    ensures AppliedAll(a, ts, hist, flagged) <==> forall t :: 0 <= t < |a| ==> a[t] == Expected(ts, t, hist, flagged)
  {
    AppliedUpToIff(a, ts, hist, flagged, |a|);
  }

  /** Before any append every table is as parsed. */
  lemma AppliedStart(ts: seq<Table>)
    ensures AppliedAll(ts, ts, [], 0)
  {
    forall t | 0 <= t < |ts| ensures ts[t] == Expected(ts, t, [], 0) {
      assert ts[t].relationships + [] == ts[t].relationships;
    }
    AppliedIff(ts, ts, [], 0);
  }

  lemma AppliedSkeleton(a: seq<Table>, ts: seq<Table>, hist: seq<Event>, flagged: nat)
    requires |a| == |ts| && AppliedAll(a, ts, hist, flagged)
    ensures forall t :: 0 <= t < |a| ==> SameSkeleton(a[t], ts[t])
  {
    AppliedIff(a, ts, hist, flagged);
  }

  /** One step of either pass keeps `AppliedAll`: the appends `evs` land
      on the tables, and the flag of table `flagged` (when `flag`) is set
      as the junction test says. */
  lemma AppliedStep(a0: seq<Table>, a1: seq<Table>, ts: seq<Table>, hist: seq<Event>, evs: seq<Event>,
                    flagged: nat, flag: bool)
    requires |a0| == |a1| == |ts| && AppliedAll(a0, ts, hist, flagged)
    requires forall t :: 0 <= t < |a1| ==>
      a1[t] == Apply(a0[t], t, evs).(isJunctionTable := a0[t].isJunctionTable || (flag && t == flagged && IsJunction(ts, t)))
    ensures AppliedAll(a1, ts, hist + evs, if flag then flagged + 1 else flagged)
  {
    var next := if flag then flagged + 1 else flagged;
    AppliedIff(a0, ts, hist, flagged);
    forall t | 0 <= t < |a1| ensures a1[t] == Expected(ts, t, hist + evs, next) {
      ApplyAppend(ts[t], t, hist, evs);
    }
    AppliedIff(a1, ts, hist + evs, next);
  }

  /** With every append and every flag in place the tables are the
      inferred ones. */
  lemma AppliedInferred(a: seq<Table>, ts: seq<Table>)
    requires |a| == |ts| && AppliedAll(a, ts, AllEvents(ts), |ts|)
    ensures a == Inferred(ts)
  {
    AppliedIff(a, ts, AllEvents(ts), |ts|);
  }

  /** `_process_relationships(tables)`: build `table_map`, then the
      foreign-key pass, then the junction pass. */
  method ProcessRelationships(a: array<Table>)
    modifies a
    ensures a[..] == Inferred(old(a[..]))
  {
    ghost var ts := a[..];
    var tableMap := BuildTableMap(a);
    ForeignKeyPass(a, tableMap, ts);
    JunctionPass(a, tableMap, ts, DirectEvents(ts, |ts|));
    AppliedInferred(a[..], ts);
  }

  /** The first loop of `_process_relationships`, over every table's
      foreign keys. */
  method ForeignKeyPass(a: array<Table>, tableMap: map<string, nat>, ghost ts: seq<Table>)
    requires a[..] == ts && MapsLast(tableMap, ts)
    modifies a
    ensures AppliedAll(a[..], ts, DirectEvents(ts, |ts|), 0)
  {
    ghost var hist: seq<Event> := [];
    AppliedStart(ts);
    assert a.Length == |ts|;
    for k := 0 to a.Length
      invariant hist == DirectEvents(ts, k)
      invariant AppliedAll(a[..], ts, hist, 0)
    {
      DirectEventsStep(ts, k);
      hist := AddForeignKeyRelationships(a, k, tableMap, ts, hist);
    }
  }

  /** The history after the foreign keys of one more table. */
  lemma DirectEventsStep(ts: seq<Table>, k: nat)
    requires k < |ts|
    ensures DirectEvents(ts, k + 1) == DirectEvents(ts, k) + TableFkEvents(ts, k, |ts[k].foreignKeys|)
  {
  }

  /** The second loop of `_process_relationships`, over the candidate
      junction tables. */
  method JunctionPass(a: array<Table>, tableMap: map<string, nat>, ghost ts: seq<Table>, ghost direct: seq<Event>)
    requires a.Length == |ts| && MapsLast(tableMap, ts)
    requires AppliedAll(a[..], ts, direct, 0)
    modifies a
    ensures AppliedAll(a[..], ts, direct + AllJunctionEvents(ts, |ts|), |ts|)
  {
    ghost var hist := direct;
    assert hist == direct + AllJunctionEvents(ts, 0);
    for j := 0 to a.Length
      invariant hist == direct + AllJunctionEvents(ts, j)
      invariant AppliedAll(a[..], ts, hist, j)
    {
      JunctionHistoryStep(direct, ts, j);
      hist := VisitJunctionCandidate(a, j, tableMap, ts, hist);
    }
  }

  /** The history after one more junction candidate. */
  lemma JunctionHistoryStep(direct: seq<Event>, ts: seq<Table>, j: nat)
    requires j < |ts|
    ensures direct + AllJunctionEvents(ts, j + 1) == (direct + AllJunctionEvents(ts, j)) + JunctionEvents(ts, j)
  {
    assert (direct + AllJunctionEvents(ts, j)) + JunctionEvents(ts, j)
      == direct + (AllJunctionEvents(ts, j) + JunctionEvents(ts, j));
  }

  /** The body of the junction pass for table `j`: processed when it has
      at least two foreign keys and at most three columns. */
  method VisitJunctionCandidate(a: array<Table>, j: nat, tableMap: map<string, nat>,
                                ghost ts: seq<Table>, ghost hist: seq<Event>)
      returns (ghost hist': seq<Event>)
    requires j < a.Length == |ts| && MapsLast(tableMap, ts)
    requires AppliedAll(a[..], ts, hist, j)
    modifies a
    ensures hist' == hist + JunctionEvents(ts, j)
    ensures AppliedAll(a[..], ts, hist', j + 1)
  {
    ghost var evs := JunctionEvents(ts, j);
    ghost var a0 := a[..];
    AppliedSkeleton(a0, ts, hist, j);
    assert SameSkeleton(a0[j], ts[j]);
    if |a[j].foreignKeys| >= 2 && |a[j].columns| <= 3 {
      ProcessJunctionTable(a, j, tableMap, ts);
    } else {
      NothingDelivered(evs);
    }
    AppliedStep(a0, a[..], ts, hist, evs, j, true);
    hist' := hist + evs;
  }

  /** `table_map = {table['name']: table for table in tables}`, holding
      indices. */
  method BuildTableMap(a: array<Table>) returns (tableMap: map<string, nat>)
    ensures MapsLast(tableMap, a[..])
  {
    tableMap := map[];
    for i := 0 to a.Length
      invariant MapsLast(tableMap, a[..i])
    {
      tableMap := tableMap[a[i].name := i];
      assert a[..i + 1][..i] == a[..i];
    }
    assert a[..a.Length] == a[..];
  }

  /** The body of the foreign-key pass for table `k`: for each of its
      foreign keys whose table exists, a ManyToOne on `k` and a OneToMany on
      the referenced table. */
  method AddForeignKeyRelationships(a: array<Table>, k: nat, tableMap: map<string, nat>,
                                    ghost ts: seq<Table>, ghost hist: seq<Event>)
      returns (ghost hist': seq<Event>)
    requires k < a.Length == |ts|
    requires MapsLast(tableMap, ts)
    requires AppliedAll(a[..], ts, hist, 0)
    modifies a
    ensures hist' == hist + TableFkEvents(ts, k, |ts[k].foreignKeys|)
    ensures AppliedAll(a[..], ts, hist', 0)
  {
    AppliedSkeleton(a[..], ts, hist, 0);
    assert SameSkeleton(a[..][k], ts[k]);
    var fks := a[k].foreignKeys;
    hist' := hist;
    for f := 0 to |fks|
      invariant fks == ts[k].foreignKeys
      invariant hist' == hist + TableFkEvents(ts, k, f)
      invariant AppliedAll(a[..], ts, hist', 0)
    {
      var fk := fks[f];
      HistoryStep(hist, ts, k, f);
      hist' := AddForeignKey(a, k, fk, tableMap, ts, hist');
    }
  }

  /** The history after one more foreign key of table `k`. */
  lemma HistoryStep(hist: seq<Event>, ts: seq<Table>, k: nat, f: nat)
    requires k < |ts| && f < |ts[k].foreignKeys|
    ensures hist + TableFkEvents(ts, k, f + 1) == (hist + TableFkEvents(ts, k, f)) + FkEvents(ts, k, ts[k].foreignKeys[f])
  {
    assert (hist + TableFkEvents(ts, k, f)) + FkEvents(ts, k, ts[k].foreignKeys[f])
      == hist + (TableFkEvents(ts, k, f) + FkEvents(ts, k, ts[k].foreignKeys[f]));
  }

  /** One foreign key `fk` of table `k`: the two appends when the table
      it references exists, nothing otherwise. */
  method AddForeignKey(a: array<Table>, k: nat, fk: ForeignKey, tableMap: map<string, nat>,
                       ghost ts: seq<Table>, ghost hist: seq<Event>)
      returns (ghost hist': seq<Event>)
    requires k < a.Length == |ts|
    requires MapsLast(tableMap, ts)
    requires AppliedAll(a[..], ts, hist, 0)
    modifies a
    ensures hist' == hist + FkEvents(ts, k, fk)
    ensures AppliedAll(a[..], ts, hist', 0)
  {
    ghost var evs := FkEvents(ts, k, fk);
    ghost var a0 := a[..];
    AppliedSkeleton(a0, ts, hist, 0);
    assert Lookup(ts, fk.referencedTable).Some? <==> fk.referencedTable in tableMap;
    if fk.referencedTable in tableMap {
      var r := tableMap[fk.referencedTable];
      assert Lookup(ts, fk.referencedTable) == Some(r);
      AddForeignKeyPair(a, k, r, fk, ts);
    } else {
      NothingDelivered(evs);
    }
    AppliedStep(a0, a[..], ts, hist, evs, 0, false);
    hist' := hist + evs;
  }

  /** The appends for one foreign key `fk` of table `k` referencing the
      existing table `r`. */
  method AddForeignKeyPair(a: array<Table>, k: nat, r: nat, fk: ForeignKey, ghost ts: seq<Table>)
    requires k < a.Length == |ts| && Lookup(ts, fk.referencedTable) == Some(r)
    requires forall t :: 0 <= t < a.Length ==> SameSkeleton(a[t], ts[t])
    modifies a
    ensures forall t :: 0 <= t < a.Length ==> a[t] == Apply(old(a[t]), t, FkEvents(ts, k, fk))
  {
    var rel1 := ManyToOne(a[r].className, DdlCamel(fk.referencedTable, false), fk.column);
    var rel2 := OneToMany(a[k].className, DdlCamel(a[k].name + "s", false), DdlCamel(fk.referencedTable, false));
    ghost var evs := FkEvents(ts, k, fk);
    assert SameSkeleton(a[k], ts[k]) && SameSkeleton(a[r], ts[r]);
    assert evs == [Event(k, rel1), Event(r, rel2)];
    a[k] := a[k].(relationships := a[k].relationships + [rel1]);
    a[r] := a[r].(relationships := a[r].relationships + [rel2]);
    forall t | 0 <= t < a.Length
      ensures a[t] == Apply(old(a[t]), t, evs)
    {
      ApplyPair(old(a[t]), t, k, rel1, r, rel2);
    }
  }

  /** A pair of appends adds its records to the tables they aim at, in order. */
  lemma ApplyPair(tab: Table, t: nat, t1: nat, rel1: Relationship, t2: nat, rel2: Relationship)
    ensures Apply(tab, t, [Event(t1, rel1), Event(t2, rel2)]).relationships ==
      tab.relationships + (if t == t1 then [rel1] else []) + (if t == t2 then [rel2] else [])
  {
    var d1: seq<Relationship> := if t == t1 then [rel1] else [];
    var d2: seq<Relationship> := if t == t2 then [rel2] else [];
    DeliveredPair([Event(t1, rel1), Event(t2, rel2)], t);
    assert (tab.relationships + d1) + d2 == tab.relationships + (d1 + d2);
  }

  /** `_process_junction_table(junction_table, table_map)` for table `j`:
      the ManyToMany appends and the flag when `j` is a junction table,
      nothing otherwise. */
  method ProcessJunctionTable(a: array<Table>, j: nat, tableMap: map<string, nat>, ghost ts: seq<Table>)
    requires j < a.Length == |ts|
    requires |ts[j].foreignKeys| >= 2 && |ts[j].columns| <= 3
    requires MapsLast(tableMap, ts)
    requires forall t :: 0 <= t < a.Length ==> SameSkeleton(a[t], ts[t])
    modifies a
    ensures forall t :: 0 <= t < a.Length ==>
      a[t] == Apply(old(a[t]), t, JunctionEvents(ts, j))
                .(isJunctionTable := old(a[t]).isJunctionTable || (t == j && IsJunction(ts, j)))
  {
    if |a[j].foreignKeys| != 2 {
      NothingDelivered(JunctionEvents(ts, j));
      return;
    }
    var fk1 := a[j].foreignKeys[0];
    var fk2 := a[j].foreignKeys[1];
    assert Lookup(ts, fk1.referencedTable).Some? <==> fk1.referencedTable in tableMap;
    assert Lookup(ts, fk2.referencedTable).Some? <==> fk2.referencedTable in tableMap;
    if fk1.referencedTable in tableMap && fk2.referencedTable in tableMap {
      var t1 := tableMap[fk1.referencedTable];
      var t2 := tableMap[fk2.referencedTable];
      assert Lookup(ts, fk1.referencedTable) == Some(t1);
      assert Lookup(ts, fk2.referencedTable) == Some(t2);
      AddManyToManyPair(a, j, t1, t2, ts);
    } else {
      NothingDelivered(JunctionEvents(ts, j));
    }
  }

  /** The two ManyToMany appends of a junction table `j` whose foreign
      keys reference tables `t1` and `t2`, and its flag. */
  method AddManyToManyPair(a: array<Table>, j: nat, t1: nat, t2: nat, ghost ts: seq<Table>)
    requires j < a.Length == |ts| && IsJunction(ts, j)
    requires Lookup(ts, ts[j].foreignKeys[0].referencedTable) == Some(t1)
    requires Lookup(ts, ts[j].foreignKeys[1].referencedTable) == Some(t2)
    requires forall t :: 0 <= t < a.Length ==> SameSkeleton(a[t], ts[t])
    modifies a
    ensures forall t :: 0 <= t < a.Length ==>
      a[t] == Apply(old(a[t]), t, JunctionEvents(ts, j)).(isJunctionTable := old(a[t]).isJunctionTable || t == j)
  {
    var fk1 := a[j].foreignKeys[0];
    var fk2 := a[j].foreignKeys[1];
    var rel1 := ManyToMany(a[t2].className, DdlCamel(a[t2].name + "s", false), JoinTable(a[j].name, fk1.column, fk2.column));
    var rel2 := ManyToMany(a[t1].className, DdlCamel(a[t1].name + "s", false), JoinTable(a[j].name, fk2.column, fk1.column));
    ghost var evs := JunctionEvents(ts, j);
    assert SameSkeleton(a[t1], ts[t1]) && SameSkeleton(a[t2], ts[t2]) && SameSkeleton(a[j], ts[j]);
    assert evs == [Event(t1, rel1), Event(t2, rel2)];
    a[t1] := a[t1].(relationships := a[t1].relationships + [rel1]);
    a[t2] := a[t2].(relationships := a[t2].relationships + [rel2]);
    a[j] := a[j].(isJunctionTable := true);
    forall t | 0 <= t < a.Length
      ensures a[t] == Apply(old(a[t]), t, evs).(isJunctionTable := old(a[t]).isJunctionTable || t == j)
    {
      ApplyPair(old(a[t]), t, t1, rel1, t2, rel2);
    }
  }

  // ---------------------------------------------------------------------
  // What inference appends, stated per relationship kind

  datatype Kind = ManyToOneKind | OneToManyKind | ManyToManyKind

  function KindOf(rel: Relationship): Kind {
    match rel
    case ManyToOne(_, _, _) => ManyToOneKind
    case OneToMany(_, _, _) => OneToManyKind
    case ManyToMany(_, _, _) => ManyToManyKind
  }

  /** The records of one kind, in order. */
  function OfKind(rels: seq<Relationship>, k: Kind): (r: seq<Relationship>)
    decreases |rels|
  {
    if |rels| == 0 then []
    else OfKind(rels[..|rels| - 1], k) + (if KindOf(rels[|rels| - 1]) == k then [rels[|rels| - 1]] else [])
  }

  lemma {:induction false} OfKindAppend(x: seq<Relationship>, y: seq<Relationship>, k: Kind)
    ensures OfKind(x + y, k) == OfKind(x, k) + OfKind(y, k)
    decreases |y|
  {
    if |y| > 0 {
      var y' := y[..|y| - 1];
      OfKindAppend(x, y', k);
      assert (x + y)[..|x + y| - 1] == x + y';
      assert (x + y)[|x + y| - 1] == y[|y| - 1];
    } else {
      assert x + y == x;
    }
  }

  /** The records of kind `k` that the appends `evs` deliver to table `t`. */
  function Gains(evs: seq<Event>, t: nat, k: Kind): seq<Relationship> {
    OfKind(Delivered(evs, t), k)
  }

  lemma GainsAppend(x: seq<Event>, y: seq<Event>, t: nat, k: Kind)
    ensures Gains(x + y, t, k) == Gains(x, t, k) + Gains(y, t, k)
  {
    DeliveredAppend(x, y, t);
    OfKindAppend(Delivered(x, t), Delivered(y, t), k);
  }

  lemma GainsNone(x: seq<Event>, y: seq<Event>, t: nat, k: Kind)
    requires Gains(x, t, k) == [] && Gains(y, t, k) == []
    ensures Gains(x + y, t, k) == []
  {
    GainsAppend(x, y, t, k);
  }

  lemma GainsPair(evs: seq<Event>, t: nat, k: Kind)
    requires |evs| == 2
    ensures Gains(evs, t, k) ==
      (if evs[0].target == t && KindOf(evs[0].rel) == k then [evs[0].rel] else [])
      + (if evs[1].target == t && KindOf(evs[1].rel) == k then [evs[1].rel] else [])
  {
    DeliveredPair(evs, t);
    var d0: seq<Relationship> := if evs[0].target == t then [evs[0].rel] else [];
    var d1: seq<Relationship> := if evs[1].target == t then [evs[1].rel] else [];
    OfKindAppend(d0, d1, k);
    assert OfKind(d0, k) == (if evs[0].target == t && KindOf(evs[0].rel) == k then [evs[0].rel] else []) by {
      if |d0| == 1 { assert d0[..0] == []; }
    }
    assert OfKind(d1, k) == (if evs[1].target == t && KindOf(evs[1].rel) == k then [evs[1].rel] else []) by {
      if |d1| == 1 { assert d1[..0] == []; }
    }
  }

  /** The ManyToOne a foreign key gives its own table: to the referenced
      table's class, joining on the key's column; none when that table
      does not exist. */
  function ManyToOneFor(ts: seq<Table>, fk: ForeignKey): seq<Relationship> {
    match Lookup(ts, fk.referencedTable)
    case None => []
    case Some(r) => [ManyToOne(ts[r].className, DdlCamel(fk.referencedTable, false), fk.column)]
  }

  /** The OneToMany a foreign key of table `k` gives table `r`: one when
      the key references `r`, back to `k`'s class. */
  function OneToManyFor(ts: seq<Table>, k: nat, r: nat, fk: ForeignKey): seq<Relationship>
    requires k < |ts|
  {
    if Lookup(ts, fk.referencedTable) == Some(r)
    then [OneToMany(ts[k].className, DdlCamel(ts[k].name + "s", false), DdlCamel(fk.referencedTable, false))]
    else []
  }

  lemma FkManyToOne(ts: seq<Table>, k: nat, fk: ForeignKey, t: nat)
    requires k < |ts|
    ensures Gains(FkEvents(ts, k, fk), t, ManyToOneKind) == if k == t then ManyToOneFor(ts, fk) else []
  {
    if Lookup(ts, fk.referencedTable).Some? {
      GainsPair(FkEvents(ts, k, fk), t, ManyToOneKind);
    } else {
      NothingDelivered(FkEvents(ts, k, fk));
    }
  }

  lemma FkOneToMany(ts: seq<Table>, k: nat, fk: ForeignKey, t: nat)
    requires k < |ts|
    ensures Gains(FkEvents(ts, k, fk), t, OneToManyKind) == OneToManyFor(ts, k, t, fk)
  {
    if Lookup(ts, fk.referencedTable).Some? {
      GainsPair(FkEvents(ts, k, fk), t, OneToManyKind);
    } else {
      NothingDelivered(FkEvents(ts, k, fk));
    }
  }

  lemma FkManyToMany(ts: seq<Table>, k: nat, fk: ForeignKey, t: nat)
    requires k < |ts|
    ensures Gains(FkEvents(ts, k, fk), t, ManyToManyKind) == []
  {
    if Lookup(ts, fk.referencedTable).Some? {
      GainsPair(FkEvents(ts, k, fk), t, ManyToManyKind);
    } else {
      NothingDelivered(FkEvents(ts, k, fk));
    }
  }

  /** Reference for the ManyToOne records of table `t`: one per foreign key
      among its first `f` whose referenced table exists, in key order. */
  function ManyToOneRef(ts: seq<Table>, t: nat, f: nat): seq<Relationship>
    requires t < |ts| && f <= |ts[t].foreignKeys|
    decreases f
  {
    if f == 0 then []
    else
      ManyToOneRef(ts, t, f - 1) + ManyToOneFor(ts, ts[t].foreignKeys[f - 1])
  }

  /** Reference for the OneToMany records table `r` receives from table
      `k`'s first `f` foreign keys: one per key that references `r`. */
  function OneToManyFrom(ts: seq<Table>, k: nat, r: nat, f: nat): seq<Relationship>
    requires k < |ts| && f <= |ts[k].foreignKeys|
    decreases f
  {
    if f == 0 then []
    else
      OneToManyFrom(ts, k, r, f - 1) + OneToManyFor(ts, k, r, ts[k].foreignKeys[f - 1])
  }

  /** Reference for the OneToMany records of table `r`: those from the
      first `n` tables, in table order. */
  function OneToManyRef(ts: seq<Table>, r: nat, n: nat): seq<Relationship>
    requires n <= |ts|
    decreases n
  {
    if n == 0 then [] else OneToManyRef(ts, r, n - 1) + OneToManyFrom(ts, n - 1, r, |ts[n - 1].foreignKeys|)
  }

  /** The ManyToMany records junction candidate `j` gives table `t`: when
      `j` is a junction table, one for its first key if that key's table is
      `t`, then one for its second key if that key's table is `t`, each to
      the class of the other key's table through `j`. */
  function ManyToManyFor(ts: seq<Table>, j: nat, t: nat): seq<Relationship>
    requires j < |ts|
  {
    if !IsJunction(ts, j) then []
    else
      var fk1 := ts[j].foreignKeys[0];
      var fk2 := ts[j].foreignKeys[1];
      var t1 := Lookup(ts, fk1.referencedTable).value;
      var t2 := Lookup(ts, fk2.referencedTable).value;
      (if t1 == t
       then [ManyToMany(ts[t2].className, DdlCamel(ts[t2].name + "s", false),
                        JoinTable(ts[j].name, fk1.column, fk2.column))]
       else [])
      + (if t2 == t
         then [ManyToMany(ts[t1].className, DdlCamel(ts[t1].name + "s", false),
                          JoinTable(ts[j].name, fk2.column, fk1.column))]
         else [])
  }

  /** Reference for the ManyToMany records of table `t`: those from the
      first `n` junction candidates, in table order. */
  function ManyToManyRef(ts: seq<Table>, t: nat, n: nat): seq<Relationship>
    requires n <= |ts|
    decreases n
  {
    if n == 0 then [] else ManyToManyRef(ts, t, n - 1) + ManyToManyFor(ts, n - 1, t)
  }

  // Each history above is one block per table (per key, per junction
  // candidate) put one after the other, and so is each reference. The
  // facts about targets and kinds are proved once for any such
  // concatenation and then read off block by block.

  /** The blocks `xs`, one after the other. */
  function Flatten<T>(xs: seq<seq<T>>): seq<T>
    decreases |xs|
  {
    if |xs| == 0 then [] else Flatten(xs[..|xs| - 1]) + xs[|xs| - 1]
  }

  /** What a concatenation gives table `t` of kind `k` is what its blocks
      give, block by block. */
  lemma {:induction false} GainsFlatten(blocks: seq<seq<Event>>, gains: seq<seq<Relationship>>, t: nat, k: Kind)
    requires |gains| == |blocks|
    requires forall i :: 0 <= i < |blocks| ==> gains[i] == Gains(blocks[i], t, k)
    ensures Gains(Flatten(blocks), t, k) == Flatten(gains)
    decreases |blocks|
  {
    if |blocks| != 0 {
      var m := |blocks| - 1;
      GainsFlatten(blocks[..m], gains[..m], t, k);
      GainsAppend(Flatten(blocks[..m]), blocks[m], t, k);
    }
  }

  /** Blocks that give `t` nothing of kind `k` give it nothing together. */
  lemma {:induction false} GainsFlattenNone(blocks: seq<seq<Event>>, t: nat, k: Kind)
    requires forall i :: 0 <= i < |blocks| ==> Gains(blocks[i], t, k) == []
    ensures Gains(Flatten(blocks), t, k) == []
    decreases |blocks|
  {
    if |blocks| != 0 {
      var m := |blocks| - 1;
      GainsFlattenNone(blocks[..m], t, k);
      GainsNone(Flatten(blocks[..m]), blocks[m], t, k);
    }
  }

  lemma {:induction false} FlattenEmpty<T>(xs: seq<seq<T>>)
    requires forall i :: 0 <= i < |xs| ==> xs[i] == []
    ensures Flatten(xs) == []
    decreases |xs|
  {
    if |xs| != 0 { FlattenEmpty(xs[..|xs| - 1]); }
  }

  /** When every block but block `t` is empty, the concatenation is block `t`. */
  lemma {:induction false} FlattenOnly<T>(xs: seq<seq<T>>, t: nat)
    requires t < |xs| && forall i :: 0 <= i < |xs| && i != t ==> xs[i] == []
    ensures Flatten(xs) == xs[t]
    decreases |xs|
  {
    var m := |xs| - 1;
    if m == t { FlattenEmpty(xs[..m]); } else { FlattenOnly(xs[..m], t); }
  }

  /** A record one block delivers to `t`, the concatenation delivers. */
  lemma {:induction false} DeliveredFlatten(blocks: seq<seq<Event>>, j: nat, t: nat, rel: Relationship)
    requires j < |blocks| && rel in Delivered(blocks[j], t)
    ensures rel in Delivered(Flatten(blocks), t)
    decreases |blocks|
  {
    var m := |blocks| - 1;
    if j != m { DeliveredFlatten(blocks[..m], j, t, rel); }
    DeliveredKept(Flatten(blocks[..m]), blocks[m], t, rel);
  }

  /** The blocks of the first pass: one per table, for the first `n`. */
  function TableBlocks(ts: seq<Table>, n: nat): (r: seq<seq<Event>>)
    requires n <= |ts|
    ensures |r| == n && forall i :: 0 <= i < n ==> r[i] == TableFkEvents(ts, i, |ts[i].foreignKeys|)
  {
    seq(n, i requires 0 <= i < n => TableFkEvents(ts, i, |ts[i].foreignKeys|))
  }

  /** The blocks of table `k`: one per foreign key, for the first `f`. */
  function KeyBlocks(ts: seq<Table>, k: nat, f: nat): (r: seq<seq<Event>>)
    requires k < |ts| && f <= |ts[k].foreignKeys|
    ensures |r| == f && forall i :: 0 <= i < f ==> r[i] == FkEvents(ts, k, ts[k].foreignKeys[i])
  {
    seq(f, i requires 0 <= i < f => FkEvents(ts, k, ts[k].foreignKeys[i]))
  }

  /** The blocks of the second pass: one per candidate, for the first `n`. */
  function JunctionBlocks(ts: seq<Table>, n: nat): (r: seq<seq<Event>>)
    requires n <= |ts|
    ensures |r| == n && forall i :: 0 <= i < n ==> r[i] == JunctionEvents(ts, i)
  {
    seq(n, i requires 0 <= i < n => JunctionEvents(ts, i))
  }

  /** The ManyToOne records of table `t`, one block per foreign key. */
  function ManyToOneBlocks(ts: seq<Table>, t: nat, f: nat): (r: seq<seq<Relationship>>)
    requires t < |ts| && f <= |ts[t].foreignKeys|
    ensures |r| == f && forall i :: 0 <= i < f ==> r[i] == ManyToOneFor(ts, ts[t].foreignKeys[i])
  {
    seq(f, i requires 0 <= i < f => ManyToOneFor(ts, ts[t].foreignKeys[i]))
  }

  /** The OneToMany records `r` receives from table `k`, one block per key. */
  function OneToManyBlocks(ts: seq<Table>, k: nat, r: nat, f: nat): (b: seq<seq<Relationship>>)
    requires k < |ts| && f <= |ts[k].foreignKeys|
    ensures |b| == f && forall i :: 0 <= i < f ==> b[i] == OneToManyFor(ts, k, r, ts[k].foreignKeys[i])
  {
    seq(f, i requires 0 <= i < f => OneToManyFor(ts, k, r, ts[k].foreignKeys[i]))
  }

  /** The OneToMany records of `r`, one block per referencing table. */
  function SourceBlocks(ts: seq<Table>, r: nat, n: nat): (b: seq<seq<Relationship>>)
    requires n <= |ts|
    ensures |b| == n && forall i :: 0 <= i < n ==> b[i] == OneToManyFrom(ts, i, r, |ts[i].foreignKeys|)
  {
    seq(n, i requires 0 <= i < n => OneToManyFrom(ts, i, r, |ts[i].foreignKeys|))
  }

  /** The ManyToMany records of `t`, one block per junction candidate. */
  function PairBlocks(ts: seq<Table>, t: nat, n: nat): (b: seq<seq<Relationship>>)
    requires n <= |ts|
    ensures |b| == n && forall i :: 0 <= i < n ==> b[i] == ManyToManyFor(ts, i, t)
  {
    seq(n, i requires 0 <= i < n => ManyToManyFor(ts, i, t))
  }

  lemma {:induction false} DirectEventsBlocks(ts: seq<Table>, n: nat)
    requires n <= |ts|
    ensures DirectEvents(ts, n) == Flatten(TableBlocks(ts, n))
    decreases n
  {
    if n != 0 {
      DirectEventsBlocks(ts, n - 1);
      assert TableBlocks(ts, n)[..n - 1] == TableBlocks(ts, n - 1);
    }
  }

  lemma {:induction false} TableFkEventsBlocks(ts: seq<Table>, k: nat, f: nat)
    requires k < |ts| && f <= |ts[k].foreignKeys|
    ensures TableFkEvents(ts, k, f) == Flatten(KeyBlocks(ts, k, f))
    decreases f
  {
    if f != 0 {
      TableFkEventsBlocks(ts, k, f - 1);
      assert KeyBlocks(ts, k, f)[..f - 1] == KeyBlocks(ts, k, f - 1);
    }
  }

  lemma {:induction false} AllJunctionEventsBlocks(ts: seq<Table>, n: nat)
    requires n <= |ts|
    ensures AllJunctionEvents(ts, n) == Flatten(JunctionBlocks(ts, n))
    decreases n
  {
    if n != 0 {
      AllJunctionEventsBlocks(ts, n - 1);
      assert JunctionBlocks(ts, n)[..n - 1] == JunctionBlocks(ts, n - 1);
    }
  }

  lemma {:induction false} ManyToOneRefBlocks(ts: seq<Table>, t: nat, f: nat)
    requires t < |ts| && f <= |ts[t].foreignKeys|
    ensures ManyToOneRef(ts, t, f) == Flatten(ManyToOneBlocks(ts, t, f))
    decreases f
  {
    if f != 0 {
      ManyToOneRefBlocks(ts, t, f - 1);
      assert ManyToOneBlocks(ts, t, f)[..f - 1] == ManyToOneBlocks(ts, t, f - 1);
    }
  }

  lemma {:induction false} OneToManyFromBlocks(ts: seq<Table>, k: nat, r: nat, f: nat)
    requires k < |ts| && f <= |ts[k].foreignKeys|
    ensures OneToManyFrom(ts, k, r, f) == Flatten(OneToManyBlocks(ts, k, r, f))
    decreases f
  {
    if f != 0 {
      OneToManyFromBlocks(ts, k, r, f - 1);
      assert OneToManyBlocks(ts, k, r, f)[..f - 1] == OneToManyBlocks(ts, k, r, f - 1);
    }
  }

  lemma {:induction false} OneToManyRefBlocks(ts: seq<Table>, r: nat, n: nat)
    requires n <= |ts|
    ensures OneToManyRef(ts, r, n) == Flatten(SourceBlocks(ts, r, n))
    decreases n
  {
    if n != 0 {
      OneToManyRefBlocks(ts, r, n - 1);
      assert SourceBlocks(ts, r, n)[..n - 1] == SourceBlocks(ts, r, n - 1);
    }
  }

  lemma {:induction false} ManyToManyRefBlocks(ts: seq<Table>, t: nat, n: nat)
    requires n <= |ts|
    ensures ManyToManyRef(ts, t, n) == Flatten(PairBlocks(ts, t, n))
    decreases n
  {
    if n != 0 {
      ManyToManyRefBlocks(ts, t, n - 1);
      assert PairBlocks(ts, t, n)[..n - 1] == PairBlocks(ts, t, n - 1);
    }
  }

  /** Table `k` gives itself one ManyToOne per foreign key whose
      referenced table exists, in key order. */
  lemma OwnManyToOnes(ts: seq<Table>, k: nat, f: nat)
    requires k < |ts| && f <= |ts[k].foreignKeys|
    ensures Gains(TableFkEvents(ts, k, f), k, ManyToOneKind) == ManyToOneRef(ts, k, f)
  {
    var blocks := KeyBlocks(ts, k, f);
    var refs := ManyToOneBlocks(ts, k, f);
    forall i | 0 <= i < f
      ensures refs[i] == Gains(blocks[i], k, ManyToOneKind)
    {
      FkManyToOne(ts, k, ts[k].foreignKeys[i], k);
    }
    GainsFlatten(blocks, refs, k, ManyToOneKind);
    TableFkEventsBlocks(ts, k, f);
    ManyToOneRefBlocks(ts, k, f);
  }

  /** Table `k` gives no other table a ManyToOne. */
  lemma OtherManyToOnes(ts: seq<Table>, k: nat, t: nat, f: nat)
    requires k < |ts| && k != t && f <= |ts[k].foreignKeys|
    ensures Gains(TableFkEvents(ts, k, f), t, ManyToOneKind) == []
  {
    var blocks := KeyBlocks(ts, k, f);
    forall i | 0 <= i < f
      ensures Gains(blocks[i], t, ManyToOneKind) == []
    {
      FkManyToOne(ts, k, ts[k].foreignKeys[i], t);
    }
    GainsFlattenNone(blocks, t, ManyToOneKind);
    TableFkEventsBlocks(ts, k, f);
  }

  /** Table `k` gives table `r` one OneToMany per key of `k` that
      references `r`, in key order. */
  lemma TableOneToManys(ts: seq<Table>, k: nat, r: nat, f: nat)
    requires k < |ts| && f <= |ts[k].foreignKeys|
    ensures Gains(TableFkEvents(ts, k, f), r, OneToManyKind) == OneToManyFrom(ts, k, r, f)
  {
    var blocks := KeyBlocks(ts, k, f);
    var refs := OneToManyBlocks(ts, k, r, f);
    forall i | 0 <= i < f
      ensures refs[i] == Gains(blocks[i], r, OneToManyKind)
    {
      FkOneToMany(ts, k, ts[k].foreignKeys[i], r);
    }
    GainsFlatten(blocks, refs, r, OneToManyKind);
    TableFkEventsBlocks(ts, k, f);
    OneToManyFromBlocks(ts, k, r, f);
  }

  /** The foreign-key pass gives table `t` its ManyToOne records while
      visiting `t` itself, and no others. */
  lemma DirectManyToOnes(ts: seq<Table>, t: nat, n: nat)
    requires t < n <= |ts|
    ensures Gains(DirectEvents(ts, n), t, ManyToOneKind) == ManyToOneRef(ts, t, |ts[t].foreignKeys|)
  {
    var blocks := TableBlocks(ts, n);
    var gains := seq(n, i requires 0 <= i < n => Gains(blocks[i], t, ManyToOneKind));
    forall i | 0 <= i < n && i != t
      ensures gains[i] == []
    {
      OtherManyToOnes(ts, i, t, |ts[i].foreignKeys|);
    }
    OwnManyToOnes(ts, t, |ts[t].foreignKeys|);
    GainsFlatten(blocks, gains, t, ManyToOneKind);
    FlattenOnly(gains, t);
    DirectEventsBlocks(ts, n);
  }

  /** The foreign-key pass gives table `r` its OneToMany records table by
      table, in table order. */
  lemma DirectOneToManys(ts: seq<Table>, r: nat, n: nat)
    requires n <= |ts|
    ensures Gains(DirectEvents(ts, n), r, OneToManyKind) == OneToManyRef(ts, r, n)
  {
    var blocks := TableBlocks(ts, n);
    var refs := SourceBlocks(ts, r, n);
    forall i | 0 <= i < n
      ensures refs[i] == Gains(blocks[i], r, OneToManyKind)
    {
      TableOneToManys(ts, i, r, |ts[i].foreignKeys|);
    }
    GainsFlatten(blocks, refs, r, OneToManyKind);
    DirectEventsBlocks(ts, n);
    OneToManyRefBlocks(ts, r, n);
  }

  /** The junction pass appends ManyToMany records only. */
  lemma JunctionKinds(ts: seq<Table>, t: nat, n: nat, k: Kind)
    requires n <= |ts| && k != ManyToManyKind
    ensures Gains(AllJunctionEvents(ts, n), t, k) == []
  {
    var blocks := JunctionBlocks(ts, n);
    forall i | 0 <= i < n
      ensures Gains(blocks[i], t, k) == []
    {
      JunctionEventKinds(ts, i, t, k);
    }
    GainsFlattenNone(blocks, t, k);
    AllJunctionEventsBlocks(ts, n);
  }

  /** One junction candidate appends ManyToMany records only. */
  lemma JunctionEventKinds(ts: seq<Table>, j: nat, t: nat, k: Kind)
    requires j < |ts| && k != ManyToManyKind
    ensures Gains(JunctionEvents(ts, j), t, k) == []
  {
    if IsJunction(ts, j) {
      GainsPair(JunctionEvents(ts, j), t, k);
    } else {
      NothingDelivered(JunctionEvents(ts, j));
    }
  }

  /** The foreign-key pass appends no ManyToMany record. */
  lemma DirectKinds(ts: seq<Table>, t: nat, n: nat)
    requires n <= |ts|
    ensures Gains(DirectEvents(ts, n), t, ManyToManyKind) == []
  {
    var blocks := TableBlocks(ts, n);
    forall i | 0 <= i < n
      ensures Gains(blocks[i], t, ManyToManyKind) == []
    {
      TableKinds(ts, i, t, |ts[i].foreignKeys|);
    }
    GainsFlattenNone(blocks, t, ManyToManyKind);
    DirectEventsBlocks(ts, n);
  }

  /** The keys of one table append no ManyToMany record. */
  lemma TableKinds(ts: seq<Table>, k: nat, t: nat, f: nat)
    requires k < |ts| && f <= |ts[k].foreignKeys|
    ensures Gains(TableFkEvents(ts, k, f), t, ManyToManyKind) == []
  {
    var blocks := KeyBlocks(ts, k, f);
    forall i | 0 <= i < f
      ensures Gains(blocks[i], t, ManyToManyKind) == []
    {
      FkManyToMany(ts, k, ts[k].foreignKeys[i], t);
    }
    GainsFlattenNone(blocks, t, ManyToManyKind);
    TableFkEventsBlocks(ts, k, f);
  }

  /** The ManyToOne records inference gives table `t` are exactly one per
      foreign key of `t` whose referenced table exists, in key order: a
      dangling key adds none. */
  lemma InferredManyToOnes(ts: seq<Table>, t: nat)
    requires t < |ts|
    ensures OfKind(NewRelationships(ts, t), ManyToOneKind) == ManyToOneRef(ts, t, |ts[t].foreignKeys|)
  {
    GainsAppend(DirectEvents(ts, |ts|), AllJunctionEvents(ts, |ts|), t, ManyToOneKind);
    DirectManyToOnes(ts, t, |ts|);
    JunctionKinds(ts, t, |ts|, ManyToOneKind);
  }

  /** The OneToMany records of table `r` are exactly one per foreign key,
      of any table in table order, that references `r`. */
  lemma InferredOneToManys(ts: seq<Table>, r: nat)
    ensures OfKind(NewRelationships(ts, r), OneToManyKind) == OneToManyRef(ts, r, |ts|)
  {
    GainsAppend(DirectEvents(ts, |ts|), AllJunctionEvents(ts, |ts|), r, OneToManyKind);
    DirectOneToManys(ts, r, |ts|);
    JunctionKinds(ts, r, |ts|, OneToManyKind);
  }

  /** The ManyToMany records inference gives table `t` are exactly those
      of the junction tables in table order, each giving one per key that
      references `t`, first key first. */
  lemma InferredManyToManys(ts: seq<Table>, t: nat)
    ensures OfKind(NewRelationships(ts, t), ManyToManyKind) == ManyToManyRef(ts, t, |ts|)
    ensures t < |ts| ==>
      (OfKind(Inferred(ts)[t].relationships, ManyToManyKind)
       == OfKind(ts[t].relationships, ManyToManyKind) + ManyToManyRef(ts, t, |ts|))
  {
    GainsAppend(DirectEvents(ts, |ts|), AllJunctionEvents(ts, |ts|), t, ManyToManyKind);
    DirectKinds(ts, t, |ts|);
    JunctionManyToManys(ts, t, |ts|);
    if t < |ts| {
      OfKindAppend(ts[t].relationships, NewRelationships(ts, t), ManyToManyKind);
    }
  }

  /** The junction pass gives table `t` its ManyToMany records candidate
      by candidate, in table order. */
  lemma JunctionManyToManys(ts: seq<Table>, t: nat, n: nat)
    requires n <= |ts|
    ensures Gains(AllJunctionEvents(ts, n), t, ManyToManyKind) == ManyToManyRef(ts, t, n)
  {
    var blocks := JunctionBlocks(ts, n);
    var refs := PairBlocks(ts, t, n);
    forall i | 0 <= i < n
      ensures refs[i] == Gains(blocks[i], t, ManyToManyKind)
    {
      PairManyToManys(ts, i, t);
    }
    GainsFlatten(blocks, refs, t, ManyToManyKind);
    AllJunctionEventsBlocks(ts, n);
    ManyToManyRefBlocks(ts, t, n);
  }

  /** One junction candidate gives table `t` the ManyToMany records of the
      reference. */
  lemma PairManyToManys(ts: seq<Table>, j: nat, t: nat)
    requires j < |ts|
    ensures Gains(JunctionEvents(ts, j), t, ManyToManyKind) == ManyToManyFor(ts, j, t)
  {
    if IsJunction(ts, j) {
      GainsPair(JunctionEvents(ts, j), t, ManyToManyKind);
    } else {
      NothingDelivered(JunctionEvents(ts, j));
    }
  }

  /** ManyToMany records come from junction tables only: with none, no
      table gains one. */
  lemma {:induction false} NoJunctionNoManyToMany(ts: seq<Table>, t: nat)
    requires forall j :: 0 <= j < |ts| ==> !IsJunction(ts, j)
    ensures OfKind(NewRelationships(ts, t), ManyToManyKind) == []
  {
    GainsAppend(DirectEvents(ts, |ts|), AllJunctionEvents(ts, |ts|), t, ManyToManyKind);
    DirectKinds(ts, t, |ts|);
    NoJunctionEvents(ts, |ts|);
  }

  lemma {:induction false} NoJunctionEvents(ts: seq<Table>, n: nat)
    requires n <= |ts| && forall j :: 0 <= j < n ==> !IsJunction(ts, j)
    ensures AllJunctionEvents(ts, n) == []
    decreases n
  {
    if n != 0 { NoJunctionEvents(ts, n - 1); }
  }

  /** A record junction candidate `j` delivers is among those the first
      `n` candidates deliver, for any `n` past `j`. */
  lemma JunctionDelivered(ts: seq<Table>, j: nat, n: nat, t: nat, rel: Relationship)
    requires j < n <= |ts| && rel in Delivered(JunctionEvents(ts, j), t)
    ensures rel in Delivered(AllJunctionEvents(ts, n), t)
  {
    DeliveredFlatten(JunctionBlocks(ts, n), j, t, rel);
    AllJunctionEventsBlocks(ts, n);
  }

  /** A record delivered by either part is delivered by the whole. */
  lemma DeliveredKept(pre: seq<Event>, cur: seq<Event>, t: nat, rel: Relationship)
    requires rel in Delivered(pre, t) || rel in Delivered(cur, t)
    ensures rel in Delivered(pre + cur, t)
  {
    DeliveredAppend(pre, cur, t);
  }

  /** A junction table links its two referenced tables both ways: each
      side gains a ManyToMany to the other side's class through the
      junction table, the join and inverse join columns swapped. */
  lemma JunctionSymmetry(ts: seq<Table>, j: nat)
    requires j < |ts| && IsJunction(ts, j)
    ensures
      var fk1 := ts[j].foreignKeys[0];
      var fk2 := ts[j].foreignKeys[1];
      var t1 := Lookup(ts, fk1.referencedTable).value;
      var t2 := Lookup(ts, fk2.referencedTable).value;
      ManyToMany(ts[t2].className, DdlCamel(ts[t2].name + "s", false), JoinTable(ts[j].name, fk1.column, fk2.column))
        in Inferred(ts)[t1].relationships
      && ManyToMany(ts[t1].className, DdlCamel(ts[t1].name + "s", false), JoinTable(ts[j].name, fk2.column, fk1.column))
        in Inferred(ts)[t2].relationships
  {
    var evs := JunctionEvents(ts, j);
    forall e | e in evs
      ensures e.rel in Delivered(AllEvents(ts), e.target)
    {
      DeliveredPair(evs, e.target);
      JunctionDelivered(ts, j, |ts|, e.target, e.rel);
      DeliveredAppend(DirectEvents(ts, |ts|), AllJunctionEvents(ts, |ts|), e.target);
    }
    assert evs[0] in evs && evs[1] in evs;
  }

  /** Without foreign keys inference changes nothing. */
  lemma NoForeignKeysNoChange(ts: seq<Table>)
    requires forall t :: 0 <= t < |ts| ==> |ts[t].foreignKeys| == 0
    ensures Inferred(ts) == ts
  {
    NoDirectEvents(ts, |ts|);
    NoJunctionEvents(ts, |ts|);
    assert AllEvents(ts) == [];
    assert forall t :: 0 <= t < |ts| ==> Inferred(ts)[t] == ts[t];
  }

  lemma {:induction false} NoDirectEvents(ts: seq<Table>, n: nat)
    requires n <= |ts| && forall t :: 0 <= t < n ==> |ts[t].foreignKeys| == 0
    ensures DirectEvents(ts, n) == []
    decreases n
  {
    if n != 0 { NoDirectEvents(ts, n - 1); }
  }
}
