/**
 Resetting Spock on a node (internal/spock/reset.go): snapshot the replication sets, drop and
 recreate the extension, drop spk_ slots, restore the snapshot; then the whole job
 (cmd/init-spock/main.go:82-95), reset followed by reconcile.
 */
module Reset {
  import opened Resources
  import opened Desired
  import opened Refresh
  import opened Convergence
  import opened DesiredOrder
  import opened Executor
  import opened Reconcile
  import opened Repset

  /** The catalogs after the nodes in done have been reset; clean if their slots could all be dropped. */
  ghost predicate Wiped(done: set<Name>, c: Catalog, c': Catalog, clean: bool) {
    && c'.users == c.users && c'.nodes == c.nodes + done
    && c'.subs == (map k | k in c.subs && !(k.Sub? && k.dst in done) :: c.subs[k])
    && c'.foreign == (set f | f in c.foreign && f.survivor !in done)
    && c'.slots <= c.slots
    && (forall h | h in c.slots && h.host !in done :: h in c'.slots)
    && (clean ==> forall h | h in c'.slots :: h.host !in done)
  }

  lemma WipedMore(done: set<Name>, n: Name, c: Catalog, c': Catalog, c'': Catalog, clean: bool, more: bool)
    requires Wiped(done, c, c', clean) && Wiped({n}, c', c'', more)
    ensures Wiped(done + {n}, c, c'', clean && more)
  {
  }

  lemma WipedLess(done: set<Name>, c: Catalog, c': Catalog, clean: bool)
    requires Wiped(done, c, c', clean)
    ensures Wiped(done, c, c', false)
  {
  }

  lemma NothingWiped(c: Catalog)
    ensures Wiped({}, c, c, true)
  {
    assert (map k | k in c.subs && !(k.Sub? && k.dst in {}) :: c.subs[k]) == c.subs;
    assert (set f | f in c.foreign && f.survivor !in {}) == c.foreign;
  }

  /** The replication sets of db as a reset is specified to leave them. */
  ghost predicate Preserved(db: Database, sets: set<RepSet>, tables: set<Assignment>)
    reads db
  {
    && db.Sets() == RestoredSets(sets, SetsOf(db.builtin))
    && db.Assignments() == RestoredTables(tables, db.kinds)
  }

  /** What a failure after DROP EXTENSION leaves: the snapshot was only in memory. */
  ghost predicate Lost(db: Database)
    reads db
  {
    db.Sets() <= SetsOf(db.builtin) && db.Assignments() == {}
  }

  /** As Wiped, except that n may not be a node again yet. */
  ghost predicate WipedButNode(done: set<Name>, n: Name, c: Catalog, c': Catalog) {
    Wiped(done + {n}, c, c'.(nodes := c'.nodes + {n}), false)
  }

  /**
   resetNode.  On success every custom set with its flags, and every assignment of an ordinary
   table or view with its columns and filter, is back; the restore itself is never refused.  A
   failure loses them, and every assignment, if it came after the extension was dropped, and
   changes nothing if it came before.
   */
  method ResetNode(db: Database, cluster: Cluster, n: Name) returns (outcome: Outcome, clean: bool, dropped: bool)
    requires db.Valid()
    modifies db`installed, db`sets, db`tables, cluster
    ensures db.Valid() && outcome in {Done, ConnectionLost} && (outcome == Done ==> dropped)
    ensures CatalogOk(old(cluster.catalog)) ==> CatalogOk(cluster.catalog)
    ensures outcome == Done ==>
              && Preserved(db, old(db.Sets()), old(db.Assignments()))
              && Wiped({n}, old(cluster.catalog), cluster.catalog, clean)
    ensures outcome == Done ==>
              && (db.Sets() == old(db.Sets()) <==> SetsOf(db.builtin) <= old(db.Sets()))
              && (db.Assignments() == old(db.Assignments())
                  <==> forall t | t in old(db.Assignments()) :: TableOrView(db.kinds, t.table))
    ensures outcome == Done ==> SetsBack(db, old(db.Sets())) && TablesBack(db, old(db.Assignments()))
    ensures outcome == Done ==> RowsBack(db, old(db.sets), old(db.tables))
    ensures outcome != Done && dropped ==> Lost(db) && WipedButNode({}, n, old(cluster.catalog), cluster.catalog)
    ensures !dropped ==> db.Sets() == old(db.Sets()) && db.Assignments() == old(db.Assignments())
                         && cluster.catalog == old(cluster.catalog)
  {
    clean, dropped := false, false;
    NamedOnce(db.sets, db.tables);
    var fails: bool := *;
    if fails { return ConnectionLost, clean, dropped; }
    var snap: Option<Snapshot> := None;
    if db.installed {
      snap := db.BackupRepsets();
      if snap.None? { return ConnectionLost, clean, dropped; }
    }
    fails := *;
    if fails { return ConnectionLost, clean, dropped; }
    DropExtension(db, cluster, n);
    dropped := true;
    ghost var without := cluster.catalog;
    clean := DropSlots(cluster, n);
    WipedInSteps(n, old(cluster.catalog), without, cluster.catalog, clean);
    fails := *;
    if fails { return ConnectionLost, clean, dropped; }
    db.installed, db.sets := true, db.builtin;
    fails := *;
    if fails { return ConnectionLost, clean, dropped; }
    cluster.catalog := cluster.catalog.(nodes := cluster.catalog.nodes + {n});
    outcome := db.RestoreRepsets(snap);
    if outcome == Done { RestoredRows(db, old(db.sets), old(db.tables)); }
  }

  /** Spock's own three sets are as the extension makes them, all others as they were. */
  ghost predicate SetsBack(db: Database, was: set<RepSet>)
    reads db
  {
    && OwnSet(db, "default") && OwnSet(db, "default_insert_only") && OwnSet(db, "ddl_sql")
    && forall s: RepSet ::
         s.name.text != "default" && s.name.text != "default_insert_only" && s.name.text != "ddl_sql" ==>
           (s in db.Sets() <==> s in was)
  }

  ghost predicate OwnSet(db: Database, name: string)
    reads db
  {
    exists s :: s in SetsOf(db.builtin) && s in db.Sets() && s.name.text == name
  }

  ghost predicate TablesBack(db: Database, was: set<Assignment>)
    reads db
  {
    forall t :: t in db.Assignments() <==> t in was && TableOrView(db.kinds, t.table)
  }

  /** Row by row: the flags of a set, and the columns and filter of an assignment, are what they were. */
  ghost predicate RowsBack(db: Database, sets: seq<SetRow>, tables: seq<TableRow>)
    reads db
  {
    && (forall r | r in sets && !Builtin(r.name) :: SetRowBack(db.sets, r))
    && forall t, r | t in tables && r in sets && r.id == t.setId && TableOrView(db.kinds, t.table) ::
         TableRowBack(db.sets, db.tables, r.name, t)
  }

  ghost predicate SetRowBack(rows: seq<SetRow>, r: SetRow) {
    exists x :: x in rows && x.name == r.name && x.flags == r.flags
  }

  ghost predicate TableRowBack(rows: seq<SetRow>, tables: seq<TableRow>, set_: Name, t: TableRow) {
    exists y, x :: x in rows && x.name == set_ && y in tables && y.setId == x.id
                   && y.table == t.table && y.columns == t.columns && y.filter == t.filter
  }

  lemma RowsAreBack(db: Database, sets: seq<SetRow>, tables: seq<TableRow>)
    requires SetsBack(db, SetsOf(sets)) && TablesBack(db, AssignmentsOf(sets, tables))
    ensures RowsBack(db, sets, tables)
  {
    forall r | r in sets && !Builtin(r.name) ensures SetRowBack(db.sets, r) {
      var s := RepSet(r.name, r.flags);
      assert r.name == Named(r.name.text);
      assert s in SetsOf(sets) && s in SetsOf(db.sets);
      var x :| x in db.sets && s == RepSet(x.name, x.flags);
    }
    forall t, r | t in tables && r in sets && r.id == t.setId && TableOrView(db.kinds, t.table)
      ensures TableRowBack(db.sets, db.tables, r.name, t)
    {
      TableIsBack(db, sets, tables, r, t);
    }
  }

  lemma TableIsBack(db: Database, sets: seq<SetRow>, tables: seq<TableRow>, r: SetRow, t: TableRow)
    requires TablesBack(db, AssignmentsOf(sets, tables))
    requires t in tables && r in sets && r.id == t.setId && TableOrView(db.kinds, t.table)
    ensures TableRowBack(db.sets, db.tables, r.name, t)
  {
    var a := Assignment(r.name, t.table, t.columns, t.filter);
    assert a in AssignmentsOf(sets, tables);
    assert a in AssignmentsOf(db.sets, db.tables);
    var y, x :| y in db.tables && x in db.sets && x.id == y.setId
                && a == Assignment(x.name, y.table, y.columns, y.filter);
  }

  lemma AllBack(db: Database, sets: set<RepSet>, tables: set<Assignment>)
    requires db.Valid() && Preserved(db, sets, tables)
    requires forall s, t | s in sets && t in sets && s.name == t.name :: s == t
    ensures SetsBack(db, sets) && TablesBack(db, tables)
    ensures db.Sets() == sets <==> SetsOf(db.builtin) <= sets
    ensures db.Assignments() == tables <==> forall t | t in tables :: TableOrView(db.kinds, t.table)
  {
    SurvivesIff(db, sets, tables);
    TablesSurviveIff(tables, db.kinds);
    OwnSetIsThere(db, "default");
    OwnSetIsThere(db, "default_insert_only");
    OwnSetIsThere(db, "ddl_sql");
    forall s: RepSet | s.name.text != "default" && s.name.text != "default_insert_only" && s.name.text != "ddl_sql"
      ensures s in db.Sets() <==> s in sets
    {
      assert s.name == Named(s.name.text);
      assert !Builtin(s.name);
      assert s !in SetsOf(db.builtin);
    }
  }

  lemma RestoredRows(db: Database, sets: seq<SetRow>, tables: seq<TableRow>)
    requires db.Valid() && Preserved(db, SetsOf(sets), AssignmentsOf(sets, tables))
    requires forall s, t | s in SetsOf(sets) && t in SetsOf(sets) && s.name == t.name :: s == t
    ensures SetsBack(db, SetsOf(sets)) && TablesBack(db, AssignmentsOf(sets, tables)) && RowsBack(db, sets, tables)
    ensures db.Sets() == SetsOf(sets) <==> SetsOf(db.builtin) <= SetsOf(sets)
    ensures db.Assignments() == AssignmentsOf(sets, tables)
            <==> forall t | t in AssignmentsOf(sets, tables) :: TableOrView(db.kinds, t.table)
  {
    AllBack(db, SetsOf(sets), AssignmentsOf(sets, tables));
    RowsAreBack(db, sets, tables);
  }

  lemma OwnSetIsThere(db: Database, name: string)
    requires Builtin(Named(name)) && SetsOf(db.builtin) <= db.Sets()
    requires forall n | Builtin(n) :: exists r :: r in db.builtin && r.name == n
    ensures OwnSet(db, name)
  {
    var r :| r in db.builtin && r.name == Named(name);
    assert RepSet(r.name, r.flags) in SetsOf(db.builtin);
  }

  lemma NamedOnce(rows: seq<SetRow>, tables: seq<TableRow>)
    requires Keyed(rows, tables)
    ensures forall s, t | s in SetsOf(rows) && t in SetsOf(rows) && s.name == t.name :: s == t
  {
    forall s, t | s in SetsOf(rows) && t in SetsOf(rows) && s.name == t.name ensures s == t {
      var x :| x in rows && s == RepSet(x.name, x.flags);
      var y :| y in rows && t == RepSet(y.name, y.flags);
      var i :| 0 <= i < |rows| && rows[i] == x;
      var j :| 0 <= j < |rows| && rows[j] == y;
      if i != j { assert rows[i].name != rows[j].name; }
    }
  }

  /** All sets survive iff the built-in ones had their default flags, all assignments iff none is of another kind. */
  lemma SurvivesIff(db: Database, sets: set<RepSet>, tables: set<Assignment>)
    requires forall r | r in db.builtin :: Builtin(r.name)
    requires forall n | Builtin(n) :: exists r :: r in db.builtin && r.name == n
    requires forall s, t | s in sets && t in sets && s.name == t.name :: s == t
    ensures RestoredSets(sets, SetsOf(db.builtin)) == sets <==> SetsOf(db.builtin) <= sets
    ensures RestoredTables(tables, db.kinds) == tables <==> forall t | t in tables :: TableOrView(db.kinds, t.table)
  {
    forall n | Builtin(n) ensures exists t :: t in SetsOf(db.builtin) && t.name == n {
      var r :| r in db.builtin && r.name == n;
      assert RepSet(r.name, r.flags) in SetsOf(db.builtin);
    }
    SetsSurviveIff(sets, SetsOf(db.builtin));
    TablesSurviveIff(tables, db.kinds);
  }

  ghost predicate Dropped(n: Name, c: Catalog, c': Catalog) {
    c' == c.(nodes := c.nodes - {n},
             subs := map k | k in c.subs && !(k.Sub? && k.dst == n) :: c.subs[k],
             foreign := set f | f in c.foreign && f.survivor != n)
  }

  ghost predicate SlotsDropped(n: Name, c: Catalog, c': Catalog, clean: bool) {
    && c' == c.(slots := c'.slots) && c'.slots <= c.slots
    && (forall h | h in c.slots && h.host != n :: h in c'.slots)
    && (clean <==> forall h | h in c'.slots :: h.host != n)
  }

  lemma WipedInSteps(n: Name, c: Catalog, without: Catalog, c': Catalog, clean: bool)
    requires Dropped(n, c, without) && SlotsDropped(n, without, c', clean)
    ensures Wiped({n}, c, c'.(nodes := c'.nodes + {n}), clean) && WipedButNode({}, n, c, c')
    ensures CatalogOk(c) ==> CatalogOk(c') && CatalogOk(c'.(nodes := c'.nodes + {n}))
  {
    var after := c'.(nodes := c'.nodes + {n});
    assert after.nodes == c.nodes + {n};
    assert after.subs == (map k | k in c.subs && !(k.Sub? && k.dst in {n}) :: c.subs[k]);
    assert after.foreign == (set f | f in c.foreign && f.survivor !in {n});
    assert {} + {n} == {n};
  }

  /** DROP EXTENSION spock CASCADE takes nodes, subscriptions and replication sets with it. */
  method DropExtension(db: Database, cluster: Cluster, n: Name)
    requires db.Valid()
    modifies db`installed, db`sets, db`tables, cluster
    ensures db.Valid() && !db.installed
    ensures Dropped(n, old(cluster.catalog), cluster.catalog)
  {
    db.installed, db.sets, db.tables := false, [], [];
    var c := cluster.catalog;
    cluster.catalog := c.(nodes := c.nodes - {n},
                          subs := map k | k in c.subs && !(k.Sub? && k.dst == n) :: c.subs[k],
                          foreign := set f | f in c.foreign && f.survivor != n);
  }

  /** A slot that cannot be dropped is only logged; those after it stay. */
  method DropSlots(cluster: Cluster, n: Name) returns (clean: bool)
    modifies cluster
    ensures SlotsDropped(n, old(cluster.catalog), cluster.catalog, clean)
  {
    var todo := set h | h in cluster.catalog.slots && h.host == n;
    while todo != {}
      invariant todo == set h | h in cluster.catalog.slots && h.host == n
      invariant cluster.catalog == old(cluster.catalog).(slots := cluster.catalog.slots)
      invariant cluster.catalog.slots <= old(cluster.catalog).slots
      invariant forall h | h in old(cluster.catalog).slots && h.host != n :: h in cluster.catalog.slots
      decreases todo
    {
      var h :| h in todo;
      var fails: bool := *;
      if fails {
        assert h in cluster.catalog.slots && h.host == n;
        return false;
      }
      cluster.catalog := cluster.catalog.(slots := cluster.catalog.slots - {h});
      todo := todo - {h};
    }
    assert forall h | h in cluster.catalog.slots && h.host == n :: h in todo;
    clean := true;
  }

  // ---------------------------------------------------------------------------------------
  // All nodes
  // ---------------------------------------------------------------------------------------

  /** One database per configured node. */
  ghost predicate Connected(cfg: Config, dbs: map<Name, Database>) {
    && NamesOf(cfg) <= dbs.Keys
    && forall a, b | a in dbs && b in dbs && a != b :: dbs[a] != dbs[b]
  }

  predicate Restored(n: NodeCfg) {
    n.mode == "cnpg"
  }

  /** The nodes a reset is for: all of them, or those restored from a backup. */
  ghost function Chosen(cfg: Config, all: bool): set<Name> {
    set n | n in cfg && (all || Restored(n)) :: n.name
  }

  /** Which modes are reset; a node that is being added is not among them, unless everything is. */
  lemma ChosenByMode(cfg: Config)
    ensures Chosen(cfg, true) == NamesOf(cfg)
    ensures forall n :: n in Chosen(cfg, false) <==> exists e :: e in cfg && e.name == n && e.mode == "cnpg"
    ensures forall e | e in cfg && e.mode == "cnpg" :: !Bootstraps(e)
    ensures (forall i, j | 0 <= i < j < |cfg| :: cfg[i].name != cfg[j].name) ==>
              forall m | m in Chosen(cfg, false) :: SourceOf(cfg, m) == None
  {
    assert forall e: NodeCfg | e.mode == "cnpg" :: e.mode != "spock" by { assert "cnpg"[0] != "spock"[0]; }
    if forall i, j | 0 <= i < j < |cfg| :: cfg[i].name != cfg[j].name {
      forall m | m in Chosen(cfg, false) ensures SourceOf(cfg, m) == None {
        var e :| e in cfg && e.name == m && e.mode == "cnpg";
        OnlyEntry(cfg, e);
      }
    }
  }

  lemma {:induction false} OnlyEntry(cfg: Config, e: NodeCfg)
    requires e in cfg && !Bootstraps(e) && forall i, j | 0 <= i < j < |cfg| :: cfg[i].name != cfg[j].name
    ensures SourceOf(cfg, e.name) == None
  {
    var front, last := cfg[..|cfg| - 1], cfg[|cfg| - 1];
    if last == e {
      NotListed(front, e.name);
    } else {
      OnlyEntry(front, e);
    }
  }

  lemma {:induction false} NotListed(cfg: Config, n: Name)
    requires forall e | e in cfg :: e.name != n
    ensures SourceOf(cfg, n) == None
  {
    if cfg != [] { NotListed(cfg[..|cfg| - 1], n); }
  }

  /** Where and how a reset that failed at cfg[at] stopped. */
  ghost predicate Stopped(cfg: Config, all: bool, dbs: map<Name, Database>, sets: map<Name, set<RepSet>>,
                          tables: map<Name, set<Assignment>>, c: Catalog, c': Catalog, at: nat, dropped: bool)
    requires sets.Keys == dbs.Keys && tables.Keys == dbs.Keys
    reads set n | n in dbs :: dbs[n]
  {
    && at < |cfg| && (all || Restored(cfg[at])) && cfg[at].name in dbs
    && var n, done := cfg[at].name, Chosen(cfg[..at], all);
       if dropped then
         Lost(dbs[n]) && AllPreserved(dbs, dbs.Keys - {n}, done, sets, tables) && WipedButNode(done, n, c, c')
       else
         AllPreserved(dbs, dbs.Keys, done, sets, tables) && exists clean :: Wiped(done, c, c', clean)
  }

  /**
   ResetSpock (all) and ResetBootstrappedNodes (restored nodes only): every chosen node is wiped
   and keeps its replication sets; no other node is touched.  A failure stops at one node: those
   before it are as after a success, those after it untouched, and that node itself is untouched
   or has lost its replication sets, according to whether its extension had been dropped.
   */
  method ResetNodes(cfg: Config, all: bool, dbs: map<Name, Database>, cluster: Cluster)
    returns (ok: bool, clean: bool, at: nat, dropped: bool)
    requires Connected(cfg, dbs) && forall n | n in dbs :: dbs[n].Valid()
    modifies (set n | n in dbs :: dbs[n]), cluster
    ensures forall n | n in dbs :: dbs[n].Valid()
    ensures CatalogOk(old(cluster.catalog)) ==> CatalogOk(cluster.catalog)
    ensures ok ==> Wiped(Chosen(cfg, all), old(cluster.catalog), cluster.catalog, clean)
    ensures ok ==> AllPreserved(dbs, dbs.Keys, Chosen(cfg, all), old(SetsByNode(dbs)), old(TablesByNode(dbs)))
    ensures !ok ==> Stopped(cfg, all, dbs, old(SetsByNode(dbs)), old(TablesByNode(dbs)), old(cluster.catalog),
                            cluster.catalog, at, dropped)
  {
    clean, at, dropped := true, 0, false;
    NothingWiped(cluster.catalog);
    ghost var done: set<Name> := {};
    for i := 0 to |cfg|
      invariant forall n | n in dbs :: dbs[n].Valid()
      invariant CatalogOk(old(cluster.catalog)) ==> CatalogOk(cluster.catalog)
      invariant done == Chosen(cfg[..i], all)
      invariant Wiped(done, old(cluster.catalog), cluster.catalog, clean)
      invariant AllPreserved(dbs, dbs.Keys, done, old(SetsByNode(dbs)), old(TablesByNode(dbs)))
    {
      var n := cfg[i].name;
      ChosenPrefix(cfg, i, all);
      if all || Restored(cfg[i]) {
        assert n in dbs by { assert cfg[i] in cfg; }
        ghost var before := cluster.catalog;
        var gone;
        ok, gone, dropped := ResetNext(dbs, dbs[n], cluster, n, done, old(SetsByNode(dbs)), old(TablesByNode(dbs)));
        if !ok {
          at := i;
          if dropped { WipedThenLost(done, n, old(cluster.catalog), before, cluster.catalog, clean); }
          return;
        }
        WipedMore(done, n, old(cluster.catalog), before, cluster.catalog, clean, gone);
        clean, done := clean && gone, done + {n};
      }
    }
    assert cfg[..|cfg|] == cfg;
    ok := true;
  }

  lemma WipedThenLost(done: set<Name>, n: Name, c: Catalog, c': Catalog, c'': Catalog, clean: bool)
    requires Wiped(done, c, c', clean) && WipedButNode({}, n, c', c'')
    ensures WipedButNode(done, n, c, c'')
  {
    assert {} + {n} == {n};
    WipedMore(done, n, c, c', c''.(nodes := c''.nodes + {n}), clean, false);
    WipedLess(done + {n}, c, c''.(nodes := c''.nodes + {n}), clean && false);
  }

  ghost function SetsByNode(dbs: map<Name, Database>): map<Name, set<RepSet>>
    reads set n | n in dbs :: dbs[n]
  {
    map n | n in dbs :: dbs[n].Sets()
  }

  ghost function TablesByNode(dbs: map<Name, Database>): map<Name, set<Assignment>>
    reads set n | n in dbs :: dbs[n]
  {
    map n | n in dbs :: dbs[n].Assignments()
  }

  /** Of the given nodes, those reset keep their replication sets as specified; the others' are untouched. */
  ghost predicate AllPreserved(dbs: map<Name, Database>, some: set<Name>, done: set<Name>, sets: map<Name, set<RepSet>>,
                               tables: map<Name, set<Assignment>>)
    reads set n | n in dbs :: dbs[n]
  {
    && sets.Keys == dbs.Keys && tables.Keys == dbs.Keys
    && forall n | n in dbs && n in some ::
         if n in done then Preserved(dbs[n], sets[n], tables[n])
         else dbs[n].Sets() == sets[n] && dbs[n].Assignments() == tables[n]
  }

  method ResetNext(ghost dbs: map<Name, Database>, db: Database, cluster: Cluster, n: Name, ghost done: set<Name>,
                   ghost sets: map<Name, set<RepSet>>, ghost tables: map<Name, set<Assignment>>)
    returns (ok: bool, clean: bool, dropped: bool)
    requires n in dbs && dbs[n] == db && forall a | a in dbs :: dbs[a].Valid() && (a != n ==> dbs[a] != db)
    requires AllPreserved(dbs, dbs.Keys, done, sets, tables)
    modifies db`installed, db`sets, db`tables, cluster
    ensures forall a | a in dbs :: dbs[a].Valid()
    ensures CatalogOk(old(cluster.catalog)) ==> CatalogOk(cluster.catalog)
    ensures ok ==> Wiped({n}, old(cluster.catalog), cluster.catalog, clean)
    ensures ok ==> AllPreserved(dbs, dbs.Keys, done + {n}, sets, tables)
    ensures !ok && dropped ==> Lost(db) && WipedButNode({}, n, old(cluster.catalog), cluster.catalog)
                               && AllPreserved(dbs, dbs.Keys - {n}, done, sets, tables)
    ensures !ok && !dropped ==>
              cluster.catalog == old(cluster.catalog) && AllPreserved(dbs, dbs.Keys, done, sets, tables)
  {
    var outcome;
    ghost var wasSets, wasTables := SetsByNode(dbs), TablesByNode(dbs);
    assert WasPreserved(dbs, done, sets, tables, wasSets, wasTables);
    outcome, clean, dropped := ResetNode(db, cluster, n);
    ok := outcome == Done;
    forall a | a in dbs && a != n
      ensures dbs[a].Valid() && dbs[a].Sets() == wasSets[a] && dbs[a].Assignments() == wasTables[a]
    {
      assert dbs[a] != db;
    }
    if ok {
      OnePreserved(dbs, n, done, sets, tables, wasSets, wasTables);
    } else {
      OthersPreserved(dbs, n, done, sets, tables, wasSets, wasTables);
    }
  }

  /** Before n was reset, the databases were as wasSets and wasTables say. */
  ghost predicate WasPreserved(dbs: map<Name, Database>, done: set<Name>, sets: map<Name, set<RepSet>>,
                               tables: map<Name, set<Assignment>>, wasSets: map<Name, set<RepSet>>,
                               wasTables: map<Name, set<Assignment>>)
  {
    && sets.Keys == tables.Keys == wasSets.Keys == wasTables.Keys == dbs.Keys
    && forall a | a in dbs ::
         && wasSets[a] == (if a in done then RestoredSets(sets[a], SetsOf(dbs[a].builtin)) else sets[a])
         && wasTables[a] == if a in done then RestoredTables(tables[a], dbs[a].kinds) else tables[a]
  }

  lemma OnePreserved(dbs: map<Name, Database>, n: Name, done: set<Name>, sets: map<Name, set<RepSet>>,
                     tables: map<Name, set<Assignment>>, wasSets: map<Name, set<RepSet>>,
                     wasTables: map<Name, set<Assignment>>)
    requires n in dbs && dbs[n].Valid() && WasPreserved(dbs, done, sets, tables, wasSets, wasTables)
    requires forall a | a in dbs && a != n :: dbs[a].Sets() == wasSets[a] && dbs[a].Assignments() == wasTables[a]
    requires Preserved(dbs[n], wasSets[n], wasTables[n])
    ensures AllPreserved(dbs, dbs.Keys, done + {n}, sets, tables)
  {
    StaysPreserved(dbs[n], n in done, sets[n], tables[n], wasSets[n], wasTables[n]);
    forall a | a in dbs
      ensures if a in done + {n} then Preserved(dbs[a], sets[a], tables[a])
              else dbs[a].Sets() == sets[a] && dbs[a].Assignments() == tables[a]
    {
      if a != n { assert dbs[a].Sets() == wasSets[a]; }
    }
  }

  lemma StaysPreserved(db: Database, again: bool, sets: set<RepSet>, tables: set<Assignment>, wasSets: set<RepSet>,
                       wasTables: set<Assignment>)
    requires db.Valid() && Preserved(db, wasSets, wasTables)
    requires wasSets == (if again then RestoredSets(sets, SetsOf(db.builtin)) else sets)
    requires wasTables == (if again then RestoredTables(tables, db.kinds) else tables)
    ensures Preserved(db, sets, tables)
  {
    ResetTwice(sets, SetsOf(db.builtin), tables, db.kinds);
  }

  lemma OthersPreserved(dbs: map<Name, Database>, n: Name, done: set<Name>, sets: map<Name, set<RepSet>>,
                        tables: map<Name, set<Assignment>>, wasSets: map<Name, set<RepSet>>,
                        wasTables: map<Name, set<Assignment>>)
    requires n in dbs && WasPreserved(dbs, done, sets, tables, wasSets, wasTables)
    requires forall a | a in dbs && a != n :: dbs[a].Sets() == wasSets[a] && dbs[a].Assignments() == wasTables[a]
    ensures AllPreserved(dbs, dbs.Keys - {n}, done, sets, tables)
    ensures dbs[n].Sets() == wasSets[n] && dbs[n].Assignments() == wasTables[n] ==>
              AllPreserved(dbs, dbs.Keys, done, sets, tables)
  {
  }

  lemma ChosenPrefix(cfg: Config, i: nat, all: bool)
    requires i < |cfg|
    ensures Chosen(cfg[..i + 1], all) == Chosen(cfg[..i], all) + if all || Restored(cfg[i]) then {cfg[i].name} else {}
  {
    assert cfg[..i + 1] == cfg[..i] + [cfg[i]];
  }

  // ---------------------------------------------------------------------------------------
  // The job
  // ---------------------------------------------------------------------------------------

  /** No two nodes outside done see the same orphan. */
  ghost predicate OneSurvivorBut(names: set<Name>, done: set<Name>, c: Catalog) {
    forall id, x, y | x !in done && y !in done :: SeenFrom(names, c, id, x) && SeenFrom(names, c, id, y) ==> x == y
  }

  /** A node that was reset, and whose slots are gone, sees no orphan; the others see what they saw. */
  lemma CleanHidesOrphans(names: set<Name>, done: set<Name>, c: Catalog, c': Catalog)
    requires Wiped(done, c, c', true)
    ensures forall id, x :: SeenFrom(names, c', id, x) <==> SeenFrom(names, c, id, x) && x !in done
    ensures OneSurvivorEach(names, c') <==> OneSurvivorBut(names, done, c)
  {
    forall id, x ensures SeenFrom(names, c', id, x) <==> SeenFrom(names, c, id, x) && x !in done {
      StillSeen(names, done, c, c', id, x);
    }
  }

  lemma StillSeen(names: set<Name>, done: set<Name>, c: Catalog, c': Catalog, id: Identifier, x: Name)
    requires Wiped(done, c, c', true)
    ensures SeenFrom(names, c', id, x) <==> SeenFrom(names, c, id, x) && x !in done
  {
    assert Hosted(x, id) in c'.slots <==> Hosted(x, id) in c.slots && x !in done;
    if id.Node? {
      assert Foreign(x, id.node) in c'.foreign <==> Foreign(x, id.node) in c.foreign && x !in done;
    }
  }

  /** The reconcile after a reset makes every subscription into a reset node anew, and finds its role and node there. */
  lemma WipedIsRebuilt(r: Repair, done: set<Name>, c: Catalog, clean: bool, a: Name, b: Name)
    requires r.Refreshed() && Wiped(done, c, r.start, clean)
    requires b in done && a in r.Names() && b in r.Names() && a != b
    ensures Sub(a, b) in r.Creates() && Sub(a, b) !in r.Deletes() && Node(b) !in r.Creates()
    ensures clean ==> Hosted(b, Slot(b, a)) !in r.start.slots
    ensures User(b) in r.Creates() <==> b !in c.users
  {
    assert InDesired(r.cfg, Sub(a, b)) && InDesired(r.cfg, Node(b)) && InDesired(r.cfg, User(b));
    assert Sub(a, b) !in r.start.subs;
    DiffOfDesired(r, Sub(a, b));
    DiffOfDesired(r, Node(b));
    DiffOfDesired(r, User(b));
  }

  /** Once every node is wiped and its slots are gone, no survivor sees an orphan. */
  lemma CleanShowsNoOrphans(names: set<Name>, c: Catalog, c': Catalog)
    requires Wiped(names, c, c', true)
    ensures forall k :: !Orphan(names, c', k)
    ensures OneSurvivorEach(names, c')
  {
    assert forall f | f in c'.foreign :: f.survivor !in names;
    assert forall h | h in c'.slots :: h.host !in names;
    forall id, x ensures !SeenFrom(names, c', id, x) {}
  }

  /**
   Steps 3 and 4 of init-spock.  The reconcile after the reset leaves every mesh resource
   healthy; if every slot could be dropped, it settles exactly when nobody is new and no orphan
   was seen from two nodes that were not reset, so a full reset converges from any state.
   */
  method InitSpock(cfg: Config, resetSpock: bool, dbs: map<Name, Database>, cluster: Cluster)
    returns (ok: bool, clean: bool, ghost wiped: Catalog)
    requires Connected(cfg, dbs) && (forall n | n in dbs :: dbs[n].Valid()) && CatalogOk(cluster.catalog)
    modifies (set n | n in dbs :: dbs[n]), cluster
    ensures ok ==> Wiped(Chosen(cfg, resetSpock), old(cluster.catalog), wiped, clean)
    ensures ok ==> forall id | InMesh(NamesOf(cfg), id) :: Assess(cluster.catalog, id) == HEALTHY
    ensures ok ==> MeshUp(NamesOf(cfg), cluster.catalog)
    ensures ok ==> (Settled(cfg, cluster.catalog) <==> NoNew(cfg) && OneSurvivorEach(NamesOf(cfg), wiped))
    ensures ok && clean ==>
              (Settled(cfg, cluster.catalog)
               <==> NoNew(cfg) && OneSurvivorBut(NamesOf(cfg), Chosen(cfg, resetSpock), old(cluster.catalog)))
    ensures ok && Chosen(cfg, resetSpock) == {} ==> wiped == old(cluster.catalog)
    ensures ok && clean && resetSpock ==> (Settled(cfg, cluster.catalog) <==> NoNew(cfg))
    ensures ok ==> AllPreserved(dbs, dbs.Keys, Chosen(cfg, resetSpock), old(SetsByNode(dbs)), old(TablesByNode(dbs)))
  {
    ghost var start := cluster.catalog;
    var at, dropped;
    ok, clean, at, dropped := ResetNodes(cfg, resetSpock, dbs, cluster);
    wiped := cluster.catalog;
    if ok { ok := ReconcileJob(cfg, resetSpock, cluster, start, clean); }
  }

  /** Step 4, on the catalogs that step 3 left. */
  method ReconcileJob(cfg: Config, all: bool, cluster: Cluster, ghost start: Catalog, ghost clean: bool)
    returns (ok: bool)
    requires CatalogOk(cluster.catalog) && Wiped(Chosen(cfg, all), start, cluster.catalog, clean)
    modifies cluster
    ensures ok ==> forall id | InMesh(NamesOf(cfg), id) :: Assess(cluster.catalog, id) == HEALTHY
    ensures ok ==> MeshUp(NamesOf(cfg), cluster.catalog)
    ensures ok ==> (Settled(cfg, cluster.catalog)
            <==> NoNew(cfg) && OneSurvivorEach(NamesOf(cfg), old(cluster.catalog)))
    ensures ok && clean ==>
              (Settled(cfg, cluster.catalog) <==> NoNew(cfg) && OneSurvivorBut(NamesOf(cfg), Chosen(cfg, all), start))
    ensures Chosen(cfg, all) == {} ==> old(cluster.catalog) == start
    ensures ok && clean && all ==> (Settled(cfg, cluster.catalog) <==> NoNew(cfg))
  {
    ghost var wiped := cluster.catalog;
    ghost var r, run;
    ok, r, run := Reconcile.Reconcile(cfg, cluster);
    JobStart(cfg, all, start, wiped, clean);
  }

  /** What the reconcile of the job starts from. */
  lemma JobStart(cfg: Config, all: bool, start: Catalog, wiped: Catalog, clean: bool)
    requires Wiped(Chosen(cfg, all), start, wiped, clean)
    ensures clean ==> (OneSurvivorEach(NamesOf(cfg), wiped) <==> OneSurvivorBut(NamesOf(cfg), Chosen(cfg, all), start))
    ensures all && clean ==> OneSurvivorEach(NamesOf(cfg), wiped)
    ensures Chosen(cfg, all) == {} ==> wiped == start
  {
    if clean {
      CleanHidesOrphans(NamesOf(cfg), Chosen(cfg, all), start, wiped);
    }
    if all && clean {
      assert Chosen(cfg, true) == NamesOf(cfg);
      CleanShowsNoOrphans(NamesOf(cfg), start, wiped);
    }
    if Chosen(cfg, all) == {} {
      SameWhenNothingWiped(start, wiped, clean);
    }
  }

  lemma SameWhenNothingWiped(c: Catalog, c': Catalog, clean: bool)
    requires Wiped({}, c, c', clean)
    ensures c' == c
  {
    assert c'.subs == c.subs && c'.foreign == c.foreign && c'.slots == c.slots && c'.nodes == c.nodes;
  }
}
