/**
 Replication sets around a reset (internal/spock/repset.go): read into memory before the
 extension is dropped, written back after it has been recreated.

 Set identifiers do not survive the reset, so the snapshot names sets by name; an assignment is
 what the join of spock.replication_set_table and spock.replication_set shows.
 */
module Repset {
  import opened Resources

  datatype Flags = Flags(insert: bool, update: bool, delete: bool, truncate: bool)

  /** A pg_class.relkind: 'r', 'v', or any other, such as a partitioned table. */
  datatype RelKind = Ordinary | View | OtherKind

  /** A row of spock.replication_set. */
  datatype SetRow = SetRow(id: nat, name: Name, flags: Flags)

  /** A row of spock.replication_set_table. */
  datatype TableRow = TableRow(setId: nat, table: Name, columns: Option<Name>, filter: Option<Name>)

  /** What identifies a set outside its database: replicationSet in the snapshot. */
  datatype RepSet = RepSet(name: Name, flags: Flags)

  /** replicationSetTable in the snapshot. */
  datatype Assignment = Assignment(setName: Name, table: Name, columns: Option<Name>, filter: Option<Name>)

  datatype Snapshot = Snapshot(sets: seq<RepSet>, tables: seq<Assignment>)

  datatype Outcome = Done | ConnectionLost | DuplicateSet | MissingSet | AlreadyAssigned

  const DEFAULT := Named("default")
  const DEFAULT_INSERT_ONLY := Named("default_insert_only")
  const DDL_SQL := Named("ddl_sql")

  predicate Builtin(name: Name) {
    name == DEFAULT || name == DEFAULT_INSERT_ONLY || name == DDL_SQL
  }

  /** Backup keeps ordinary tables and views. */
  predicate Kept(kinds: map<Name, RelKind>, table: Name) {
    table in kinds && kinds[table] != OtherKind
  }

  // ---------------------------------------------------------------------------------------
  // What a reset is specified to leave
  // ---------------------------------------------------------------------------------------

  /** Built-in sets with the flags the extension gives them, and the custom sets as they were. */
  ghost function RestoredSets(sets: set<RepSet>, builtin: set<RepSet>): set<RepSet> {
    builtin + set s | s in sets && !Builtin(s.name)
  }

  ghost function RestoredTables(tables: set<Assignment>, kinds: map<Name, RelKind>): set<Assignment> {
    set t | t in tables && Kept(kinds, t.table)
  }

  /** Exactly when a reset loses no set and changes no flag: the built-in sets were untouched. */
  lemma SetsSurviveIff(sets: set<RepSet>, builtin: set<RepSet>)
    requires forall s | s in builtin :: Builtin(s.name)
    requires forall n | Builtin(n) :: exists t :: t in builtin && t.name == n
    requires forall s, t | s in sets && t in sets && s.name == t.name :: s == t
    ensures RestoredSets(sets, builtin) == sets <==> builtin <= sets
  {
    if builtin <= sets {
      forall s | s in sets && Builtin(s.name) ensures s in builtin {
        var t :| t in builtin && t.name == s.name;
      }
    }
  }

  /** The relation is a table or a view. */
  predicate TableOrView(kinds: map<Name, RelKind>, table: Name) {
    table in kinds && kinds[table] in {Ordinary, View}
  }

  /** Exactly when a reset loses no assignment. */
  lemma TablesSurviveIff(tables: set<Assignment>, kinds: map<Name, RelKind>)
    ensures RestoredTables(tables, kinds) <= tables
    ensures forall t | t in tables :: t in RestoredTables(tables, kinds) <==> TableOrView(kinds, t.table)
    ensures RestoredTables(tables, kinds) == tables <==> forall t | t in tables :: TableOrView(kinds, t.table)
  {
    if RestoredTables(tables, kinds) == tables {
      forall t | t in tables ensures TableOrView(kinds, t.table) {
        assert t in RestoredTables(tables, kinds);
      }
    }
  }

  /** A partitioned table is one of the other kinds: its assignment to the default set is lost. */
  lemma PartitionedTableLost(table: Name, columns: Option<Name>, filter: Option<Name>)
    ensures var t := Assignment(DEFAULT, table, columns, filter);
            && RestoredTables({t}, map[table := OtherKind]) == {}
            && RestoredTables({t}, map[table := Ordinary]) == {t} == RestoredTables({t}, map[table := View])
  {
    var t := Assignment(DEFAULT, table, columns, filter);
    assert !Kept(map[table := OtherKind], t.table) && Kept(map[table := Ordinary], t.table);
    TablesSurviveIff({t}, map[table := Ordinary]);
    TablesSurviveIff({t}, map[table := View]);
  }

  /** A second reset changes nothing more. */
  lemma ResetTwice(sets: set<RepSet>, builtin: set<RepSet>, tables: set<Assignment>, kinds: map<Name, RelKind>)
    requires forall s | s in builtin :: Builtin(s.name)
    ensures RestoredSets(RestoredSets(sets, builtin), builtin) == RestoredSets(sets, builtin)
    ensures RestoredTables(RestoredTables(tables, kinds), kinds) == RestoredTables(tables, kinds)
  {
    var once := RestoredSets(sets, builtin);
    forall s ensures s in RestoredSets(once, builtin) <==> s in once {
      if s in once && Builtin(s.name) { assert s in builtin; }
    }
  }

  // ---------------------------------------------------------------------------------------
  // The database
  // ---------------------------------------------------------------------------------------

  ghost function Listed<T(!new)>(ts: seq<T>): set<T> {
    set t | t in ts
  }

  ghost function SetsOf(rows: seq<SetRow>): set<RepSet> {
    set r | r in rows :: RepSet(r.name, r.flags)
  }

  /** The join: each assignment under the name of its set; rows of unknown sets do not show. */
  ghost function AssignmentsOf(rows: seq<SetRow>, tables: seq<TableRow>): set<Assignment> {
    set t, r | t in tables && r in rows && r.id == t.setId :: Assignment(r.name, t.table, t.columns, t.filter)
  }

  /** Primary keys: set ids, set names, and (set, relation) pairs. */
  ghost predicate Keyed(rows: seq<SetRow>, tables: seq<TableRow>) {
    && (forall i, j | 0 <= i < j < |rows| :: rows[i].id != rows[j].id && rows[i].name != rows[j].name)
    && (forall i, j | 0 <= i < j < |tables| :: tables[i].setId != tables[j].setId || tables[i].table != tables[j].table)
  }

  /** No set occurs twice, no table twice in one set, and every table's set is there. */
  ghost predicate Restorable(snap: Snapshot) {
    && (forall i, j | 0 <= i < j < |snap.sets| :: snap.sets[i].name != snap.sets[j].name)
    && (forall i, j | 0 <= i < j < |snap.tables| ::
          snap.tables[i].setName != snap.tables[j].setName || snap.tables[i].table != snap.tables[j].table)
    && (forall t | t in snap.tables :: exists s :: s in snap.sets && s.name == t.setName)
  }

  ghost predicate DistinctTables(ts: seq<Assignment>) {
    forall i, j | 0 <= i < j < |ts| :: ts[i].setName != ts[j].setName || ts[i].table != ts[j].table
  }

  /** found lists the visible assignments of ordinary tables and views, each once. */
  ghost predicate Joined(rows: seq<SetRow>, tables: seq<TableRow>, kinds: map<Name, RelKind>, found: seq<Assignment>) {
    && Listed(found) == RestoredTables(AssignmentsOf(rows, tables), kinds)
    && DistinctTables(found)
  }

  function AssignmentOf(row: SetRow, t: TableRow): Assignment {
    Assignment(row.name, t.table, t.columns, t.filter)
  }

  ghost predicate FoundById(rows: seq<SetRow>, id: nat, row: Option<SetRow>) {
    if row.Some? then row.value in rows && row.value.id == id else forall r | r in rows :: r.id != id
  }

  lemma JoinStep(rows: seq<SetRow>, tables: seq<TableRow>, kinds: map<Name, RelKind>, i: nat, found: seq<Assignment>,
                 row: Option<SetRow>)
    requires Keyed(rows, tables) && i < |tables| && Joined(rows, tables[..i], kinds, found)
    requires FoundById(rows, tables[i].setId, row)
    ensures Joined(rows, tables[..i + 1], kinds,
                   if row.Some? && Kept(kinds, tables[i].table) then found + [AssignmentOf(row.value, tables[i])]
                   else found)
  {
    JoinRow(rows, tables, i, row);
    if row.Some? && Kept(kinds, tables[i].table) {
      var a := AssignmentOf(row.value, tables[i]);
      forall f | f in found ensures f.setName != a.setName || f.table != a.table {
        assert f in Listed(found);
        OtherTable(rows, tables, i, row.value, f);
      }
      assert Listed(found + [a]) == Listed(found) + {a};
    }
  }

  lemma OtherTable(rows: seq<SetRow>, tables: seq<TableRow>, i: nat, row: SetRow, f: Assignment)
    requires Keyed(rows, tables) && i < |tables| && row in rows && row.id == tables[i].setId
    requires f in AssignmentsOf(rows, tables[..i])
    ensures f.setName != row.name || f.table != tables[i].table
  {
    var t, r :| t in tables[..i] && r in rows && r.id == t.setId
                && f == Assignment(r.name, t.table, t.columns, t.filter);
    var k :| 0 <= k < i && tables[k] == t;
  }

  lemma JoinRow(rows: seq<SetRow>, tables: seq<TableRow>, i: nat, row: Option<SetRow>)
    requires Keyed(rows, tables) && i < |tables| && FoundById(rows, tables[i].setId, row)
    ensures AssignmentsOf(rows, tables[..i + 1])
         == AssignmentsOf(rows, tables[..i]) + if row.Some? then {AssignmentOf(row.value, tables[i])} else {}
  {
    assert tables[..i + 1] == tables[..i] + [tables[i]];
    assert forall r | r in rows && r.id == tables[i].setId :: row == Some(r);
  }

  lemma SnapshotIsRestorable(rows: seq<SetRow>, tables: seq<TableRow>, kinds: map<Name, RelKind>, sets: seq<RepSet>,
                             found: seq<Assignment>)
    requires Keyed(rows, tables) && Joined(rows, tables, kinds, found)
    requires |sets| == |rows| && forall k | 0 <= k < |rows| :: sets[k] == RepSet(rows[k].name, rows[k].flags)
    ensures Restorable(Snapshot(sets, found)) && Listed(sets) == SetsOf(rows)
  {
    forall t | t in found ensures exists s :: s in sets && s.name == t.setName {
      assert t in Listed(found);
      assert t in AssignmentsOf(rows, tables);
      var x, r :| x in tables && r in rows && r.id == x.setId && t == Assignment(r.name, x.table, x.columns, x.filter);
      var k :| 0 <= k < |rows| && rows[k] == r;
      assert sets[k] in sets;
    }
    forall s ensures s in Listed(sets) <==> s in SetsOf(rows) {
      if s in sets {
        var k :| 0 <= k < |sets| && sets[k] == s;
        assert rows[k] in rows;
      }
      if r :| r in rows && s == RepSet(r.name, r.flags) {
        var k :| 0 <= k < |rows| && rows[k] == r;
        assert sets[k] in sets;
      }
    }
  }

  class Database {
    const kinds: map<Name, RelKind>
    const builtin: seq<SetRow>  // the rows CREATE EXTENSION and node_create leave
    var installed: bool
    var sets: seq<SetRow>
    var tables: seq<TableRow>

    ghost predicate Valid()
      reads this
    {
      && Keyed(sets, tables)
      && (!installed ==> sets == [] && tables == [])
      && Keyed(builtin, [])
      && (forall r | r in builtin :: Builtin(r.name))
      && (forall n | Builtin(n) :: exists r :: r in builtin && r.name == n)
    }

    ghost function Sets(): set<RepSet>
      reads this
    {
      SetsOf(sets)
    }

    ghost function Assignments(): set<Assignment>
      reads this
    {
      AssignmentsOf(sets, tables)
    }

    /** backupRepsets: all sets; assignments of ordinary tables and views. */
    method BackupRepsets() returns (snap: Option<Snapshot>)
      requires Valid()
      ensures snap.Some? ==>
                && Restorable(snap.value)
                && Listed(snap.value.sets) == Sets()
                && Listed(snap.value.tables) == RestoredTables(Assignments(), kinds)
      ensures snap.Some? ==>
                forall t :: t in snap.value.tables <==> t in Assignments() && TableOrView(kinds, t.table)
    {
      var fails: bool := *;
      if fails { return None; }
      var found: seq<RepSet> := [];
      for i := 0 to |sets|
        invariant |found| == i && forall k | 0 <= k < i :: found[k] == RepSet(sets[k].name, sets[k].flags)
      {
        found := found + [RepSet(sets[i].name, sets[i].flags)];
      }
      var joined := QueryTables();
      SnapshotIsRestorable(sets, tables, kinds, found, joined);
      TablesSurviveIff(Assignments(), kinds);
      assert forall t :: t in joined <==> t in Listed(joined);
      snap := Some(Snapshot(found, joined));
    }

    /** The second query: assignments with the name of their set, leaving out other relation kinds. */
    method QueryTables() returns (found: seq<Assignment>)
      requires Valid()
      ensures Joined(sets, tables, kinds, found)
    {
      found := [];
      for i := 0 to |tables|
        invariant Joined(sets, tables[..i], kinds, found)
      {
        var row := SetById(tables[i].setId);
        JoinStep(sets, tables, kinds, i, found, row);
        if row.Some? && Kept(kinds, tables[i].table) {
          found := found + [AssignmentOf(row.value, tables[i])];
        }
      }
      assert tables[..|tables|] == tables;
    }

    method SetById(id: nat) returns (row: Option<SetRow>)
      ensures FoundById(sets, id, row)
    {
      for i := 0 to |sets|
        invariant forall k | 0 <= k < i :: sets[k].id != id
      {
        if sets[i].id == id { return Some(sets[i]); }
      }
      row := None;
    }

    method SetByName(name: Name) returns (row: Option<SetRow>)
      ensures if row.Some? then row.value in sets && row.value.name == name else forall r | r in sets :: r.name != name
    {
      for i := 0 to |sets|
        invariant forall k | 0 <= k < i :: sets[k].name != name
      {
        if sets[i].name == name { return Some(sets[i]); }
      }
      row := None;
    }

    /** An identifier no set has. */
    method FreshId() returns (id: nat)
      ensures forall r | r in sets :: r.id != id
    {
      id := 0;
      for i := 0 to |sets|
        invariant forall k | 0 <= k < i :: sets[k].id < id
      {
        if sets[i].id >= id { id := sets[i].id + 1; }
      }
    }

    /** spock.repset_create: refuses a name that is taken. */
    method RepsetCreate(s: RepSet) returns (outcome: Outcome)
      requires Keyed(sets, tables) && tables == []
      modifies this`sets
      ensures outcome in {Done, DuplicateSet} && Keyed(sets, tables)
      ensures outcome == DuplicateSet <==> exists t :: t in old(Sets()) && t.name == s.name
      ensures Sets() == if outcome == Done then old(Sets()) + {s} else old(Sets())
    {
      var row := SetByName(s.name);
      if row.Some? {
        assert RepSet(row.value.name, row.value.flags) in Sets();
        return DuplicateSet;
      }
      var id := FreshId();
      sets := sets + [SetRow(id, s.name, s.flags)];
      outcome := Done;
    }

    /** spock.repset_add_table: refuses an unknown set and a table the set already has. */
    method RepsetAddTable(t: Assignment) returns (outcome: Outcome)
      requires Keyed(sets, tables)
      modifies this`tables
      ensures outcome in {Done, MissingSet, AlreadyAssigned} && Keyed(sets, tables)
      ensures outcome == MissingSet <==> forall s | s in Sets() :: s.name != t.setName
      ensures outcome == AlreadyAssigned ==>
                exists a :: a in old(Assignments()) && a.setName == t.setName && a.table == t.table
      ensures Assignments() == if outcome == Done then old(Assignments()) + {t} else old(Assignments())
    {
      var row := SetByName(t.setName);
      if row.None? { return MissingSet; }
      assert RepSet(row.value.name, row.value.flags) in Sets();
      for i := 0 to |tables|
        invariant forall k | 0 <= k < i :: tables[k].setId != row.value.id || tables[k].table != t.table
      {
        if tables[i].setId == row.value.id && tables[i].table == t.table {
          assert AssignmentOf(row.value, tables[i]) in Assignments();
          return AlreadyAssigned;
        }
      }
      ghost var before := tables;
      tables := tables + [TableRow(row.value.id, t.table, t.columns, t.filter)];
      JoinRow(sets, tables, |before|, row);
      assert tables[..|before|] == before && tables[..|before| + 1] == tables;
      outcome := Done;
    }

    /**
     restoreRepsets, in one transaction: never refused, since no set is created twice, no table
     added twice, and every table's set exists by the time the table is added.
     */
    method RestoreRepsets(snap: Option<Snapshot>) returns (outcome: Outcome)
      requires Valid() && installed && sets == builtin && tables == []
      requires snap.Some? ==> Restorable(snap.value)
      modifies this`sets, this`tables
      ensures Valid() && outcome in {Done, ConnectionLost}
      ensures outcome == Done ==>
                && Sets() == RestoredSets(if snap.Some? then Listed(snap.value.sets) else {}, SetsOf(builtin))
                && Assignments() == if snap.Some? then Listed(snap.value.tables) else {}
      ensures outcome != Done ==> sets == builtin && tables == []
    {
      if snap.None? || (|snap.value.sets| == 0 && |snap.value.tables| == 0) {
        return Done;
      }
      outcome := RestoreSets(snap.value);
      if outcome == Done { outcome := RestoreTables(snap.value); }
      if outcome != Done { sets, tables := builtin, []; }
    }

    method RestoreSets(snap: Snapshot) returns (outcome: Outcome)
      requires Valid() && sets == builtin && tables == [] && Restorable(snap)
      modifies this`sets
      ensures Keyed(sets, tables) && outcome in {Done, ConnectionLost}
      ensures outcome == Done ==> Sets() == RestoredSets(Listed(snap.sets), SetsOf(builtin))
    {
      for i := 0 to |snap.sets|
        invariant Keyed(sets, tables)
        invariant Sets() == RestoredSets(Listed(snap.sets[..i]), SetsOf(builtin))
      {
        var fails: bool := *;
        if fails { return ConnectionLost; }
        PrefixListed(snap.sets, i);
        if !Builtin(snap.sets[i].name) {
          NotTaken(snap, i, SetsOf(builtin));
          outcome := RepsetCreate(snap.sets[i]);
        }
      }
      assert snap.sets[..|snap.sets|] == snap.sets;
      outcome := Done;
    }

    method RestoreTables(snap: Snapshot) returns (outcome: Outcome)
      requires Keyed(sets, tables) && tables == [] && Restorable(snap)
      requires forall n | Builtin(n) :: exists r :: r in builtin && r.name == n
      requires Sets() == RestoredSets(Listed(snap.sets), SetsOf(builtin))
      modifies this`tables
      ensures Keyed(sets, tables) && outcome in {Done, ConnectionLost}
      ensures outcome == Done ==> Assignments() == Listed(snap.tables)
    {
      for i := 0 to |snap.tables|
        invariant Keyed(sets, tables)
        invariant Assignments() == Listed(snap.tables[..i])
      {
        var fails: bool := *;
        if fails { return ConnectionLost; }
        PrefixListed(snap.tables, i);
        SetIsThere(snap, i, builtin, Sets());
        outcome := RepsetAddTable(snap.tables[i]);
        assert outcome != AlreadyAssigned;
      }
      assert snap.tables[..|snap.tables|] == snap.tables;
      outcome := Done;
    }
  }

  lemma PrefixListed<T(!new)>(ts: seq<T>, i: nat)
    requires i < |ts|
    ensures Listed(ts[..i + 1]) == Listed(ts[..i]) + {ts[i]}
  {
    assert ts[..i + 1] == ts[..i] + [ts[i]];
  }

  lemma NotTaken(snap: Snapshot, i: nat, builtin: set<RepSet>)
    requires Restorable(snap) && i < |snap.sets| && !Builtin(snap.sets[i].name)
    requires forall s | s in builtin :: Builtin(s.name)
    ensures forall s | s in RestoredSets(Listed(snap.sets[..i]), builtin) :: s.name != snap.sets[i].name
  {
  }

  /** A snapshot table's set is built in, or a custom set that has been recreated. */
  lemma SetIsThere(snap: Snapshot, i: nat, builtin: seq<SetRow>, sets: set<RepSet>)
    requires Restorable(snap) && i < |snap.tables|
    requires forall n | Builtin(n) :: exists r :: r in builtin && r.name == n
    requires sets == RestoredSets(Listed(snap.sets), SetsOf(builtin))
    ensures exists s :: s in sets && s.name == snap.tables[i].setName
  {
    var name := snap.tables[i].setName;
    assert snap.tables[i] in snap.tables;
    var s :| s in snap.sets && s.name == name;
    if Builtin(name) {
      var r :| r in builtin && r.name == name;
      assert RepSet(r.name, r.flags) in sets;
    } else {
      assert s in sets;
    }
  }
}
