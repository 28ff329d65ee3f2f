/** Rolling an imported file of routes back: which routes go, which stay, and what the
    rest of the database refers to afterwards. */
module RouteRollback {
  import opened Common
  import opened Importer

  /** Every column that refers to a route and forbids its deletion. */
  datatype Column =
    | LinkRoute
    | LinkHistoryRoute
    | SettingRoute
    | ProviderChangeBefore
    | ProviderChangeAfter
    | PriorityCurrent
    | PriorityPrevious
    | PriorityOverflow
    | EventAffected
    | EventOld
    | EventNew
    | EventOldCompany
    | EventNewCompany
    | EventOverflow
    | EventServerOld
    | EventServerNew
    | EventRoute
    | RouteHistoryRoute

  const ROUTE_ROLLBACK_BLOCKERS: seq<Column> :=
    [LinkRoute, LinkHistoryRoute, SettingRoute, ProviderChangeBefore, ProviderChangeAfter, PriorityCurrent,
     PriorityPrevious, PriorityOverflow, EventAffected, EventOld, EventNew, EventOldCompany, EventNewCompany,
     EventOverflow, EventServerOld, EventServerNew, EventRoute]

  type Cells = seq<Option<Id>>

  /** `spamRoutes` is the one reference that is emptied when its route is deleted. */
  datatype Database = Database(routes: Table, references: map<Column, Cells>, spamRoutes: Cells)

  function CellsOf(db: Database, c: Column): Cells {
    if c in db.references then db.references[c] else []
  }

  predicate Refers(db: Database, c: Column, id: Id) {
    Some(id) in CellsOf(db, c)
  }

  predicate BlockedBy(db: Database, columns: seq<Column>, id: Id) {
    exists c :: c in columns && Refers(db, c, id)
  }

  predicate Blocked(db: Database, id: Id) {
    BlockedBy(db, ROUTE_ROLLBACK_BLOCKERS, id)
  }

  /** What the database itself refuses to delete. */
  predicate Restricted(db: Database, id: Id) {
    exists c: Column :: Refers(db, c, id)
  }

  // ----- Preview -----------------------------------------------------------------------------------

  /** A row with its key, or none when the key cannot be worked out. */
  type Line = Option<Key>

  datatype Verdict = Malformed | Repeated | NotFound | Kept | Ready

  predicate Deletable(db: Database, k: Key) {
    k in db.routes && !Blocked(db, db.routes[k].id)
  }

  function VerdictOf(db: Database, lines: seq<Line>, i: nat): Verdict
    requires i < |lines|
  {
    if lines[i].None? then Malformed
    else if lines[i] in lines[..i] then Repeated
    else if lines[i].value !in db.routes then NotFound
    else if Blocked(db, db.routes[lines[i].value].id) then Kept
    else Ready
  }

  function Count(db: Database, lines: seq<Line>, n: nat, v: Verdict): nat
    requires n <= |lines|
  {
    if n == 0 then 0 else Count(db, lines, n - 1, v) + (if VerdictOf(db, lines, n - 1) == v then 1 else 0)
  }

  datatype Report = Report(duplicates: nat, skipped: nat, ready: nat, errors: nat)

  function ReportOf(db: Database, lines: seq<Line>, n: nat): Report
    requires n <= |lines|
  {
    Report(Count(db, lines, n, Repeated), Count(db, lines, n, NotFound) + Count(db, lines, n, Kept),
           Count(db, lines, n, Ready), Count(db, lines, n, Malformed))
  }

  // ----- The rolled-back database --------------------------------------------------------------------

  /** The keys whose routes go. */
  function Gone(db: Database, lines: seq<Line>): set<Key> {
    set l | l in lines && l.Some? && Deletable(db, l.value) :: l.value
  }

  function IdsOf(db: Database, ks: set<Key>): set<Id> {
    set k | k in ks && k in db.routes :: db.routes[k].id
  }

  function Dropping(cells: Cells, ids: set<Id>): Cells {
    if cells == [] then []
    else
      var rest := Dropping(cells[..|cells| - 1], ids);
      var last := cells[|cells| - 1];
      if last.Some? && last.value in ids then rest else rest + [last]
  }

  function Emptied(cells: Cells, ids: set<Id>): Cells {
    seq(|cells|, i requires 0 <= i < |cells| => if cells[i].Some? && cells[i].value in ids then None else cells[i])
  }

  /** The database without these routes and their history. */
  function Without(db: Database, ks: set<Key>): Database {
    var ids := IdsOf(db, ks);
    Database(db.routes - ks, db.references[RouteHistoryRoute := Dropping(CellsOf(db, RouteHistoryRoute), ids)],
             Emptied(db.spamRoutes, ids))
  }

  predicate AllKeyed(lines: seq<Line>) {
    forall i :: 0 <= i < |lines| ==> lines[i].Some?
  }

  function RolledBack(db: Database, lines: seq<Line>): Database {
    if AllKeyed(lines) then Without(db, Gone(db, lines)) else db
  }

  // ----- The database's own rules ----------------------------------------------------------------------

  /** The primary key and the foreign keys. */
  ghost predicate UniqueIds(db: Database) {
    forall k, l :: k in db.routes && l in db.routes && db.routes[k].id == db.routes[l].id ==> k == l
  }

  ghost predicate Exists(db: Database, id: Id) {
    exists k :: k in db.routes && db.routes[k].id == id
  }

  ghost predicate PointsToRoutes(db: Database, c: Column) {
    forall id :: Refers(db, c, id) ==> Exists(db, id)
  }

  ghost predicate Intact(db: Database) {
    && UniqueIds(db)
    && (forall c :: PointsToRoutes(db, c))
    && (forall id :: Some(id) in db.spamRoutes ==> Exists(db, id))
  }

  // ----- Removing rows ---------------------------------------------------------------------------------

  lemma {:induction false} DroppingIff(cells: Cells, ids: set<Id>, x: Option<Id>)
    ensures x in Dropping(cells, ids) <==> x in cells && !(x.Some? && x.value in ids)
  {
    if cells != [] {
      assert cells == cells[..|cells| - 1] + [cells[|cells| - 1]];
      DroppingIff(cells[..|cells| - 1], ids, x);
    }
  }

  lemma {:induction false} DroppingTwice(cells: Cells, a: set<Id>, b: set<Id>)
    ensures Dropping(Dropping(cells, a), b) == Dropping(cells, a + b)
  {
    if cells != [] {
      var last := cells[|cells| - 1];
      DroppingTwice(cells[..|cells| - 1], a, b);
      if !(last.Some? && last.value in a) {
        var rest := Dropping(cells[..|cells| - 1], a);
        assert (rest + [last])[..|rest|] == rest;
      }
    }
  }

  lemma {:induction false} DroppingNone(cells: Cells)
    ensures Dropping(cells, {}) == cells
  {
    if cells != [] {
      assert cells == cells[..|cells| - 1] + [cells[|cells| - 1]];
      DroppingNone(cells[..|cells| - 1]);
    }
  }

  lemma WithoutNothing(db: Database)
    requires RouteHistoryRoute in db.references
    ensures Without(db, {}) == db
  {
    DroppingNone(CellsOf(db, RouteHistoryRoute));
    assert IdsOf(db, {}) == {};
    assert db.routes - {} == db.routes;
    assert Emptied(db.spamRoutes, {}) == db.spamRoutes;
    assert db.references[RouteHistoryRoute := db.references[RouteHistoryRoute]] == db.references;
  }

  lemma WithoutOneMore(db: Database, ks: set<Key>, k: Key)
    requires UniqueIds(db) && k in db.routes && k !in ks
    ensures Without(Without(db, ks), {k}) == Without(db, ks + {k})
  {
    var a, b := IdsOf(db, ks), {db.routes[k].id};
    assert IdsOf(db, ks + {k}) == a + b;
    assert IdsOf(Without(db, ks), {k}) == b;
    DroppingTwice(CellsOf(db, RouteHistoryRoute), a, b);
    assert (db.routes - ks) - {k} == db.routes - (ks + {k});
    assert Emptied(Emptied(db.spamRoutes, a), b) == Emptied(db.spamRoutes, a + b);
  }

  // ----- As many as previewed ----------------------------------------------------------------------------

  lemma NextGone(db: Database, lines: seq<Line>, i: nat)
    requires i < |lines|
    ensures Gone(db, lines[..i + 1]) ==
            Gone(db, lines[..i]) + (if VerdictOf(db, lines, i) == Ready then {lines[i].value} else {})
  {
    var a, b := lines[..i], lines[..i + 1];
    assert b == a + [lines[i]];
    if VerdictOf(db, lines, i) == Ready {
      assert lines[i] in b;
    }
  }

  lemma ReadyIsNew(db: Database, lines: seq<Line>, i: nat)
    requires i < |lines| && VerdictOf(db, lines, i) == Ready
    ensures lines[i].value !in Gone(db, lines[..i])
  {
  }

  /** However often rows repeat, the routes that go are as many as the preview announced. */
  lemma {:induction false} AsManyAsPreviewed(db: Database, lines: seq<Line>, n: nat)
    requires n <= |lines|
    ensures |Gone(db, lines[..n])| == ReportOf(db, lines, n).ready
  {
    if n == 0 {
      assert Gone(db, lines[..0]) == {};
    } else {
      AsManyAsPreviewed(db, lines, n - 1);
      NextGone(db, lines, n - 1);
      if VerdictOf(db, lines, n - 1) == Ready {
        ReadyIsNew(db, lines, n - 1);
      }
    }
  }

  /** Every row falls under one count. */
  lemma {:induction false} ReportAddsUp(db: Database, lines: seq<Line>, n: nat)
    requires n <= |lines|
    ensures var r := ReportOf(db, lines, n); r.duplicates + r.skipped + r.ready + r.errors == n
  {
    if n > 0 {
      ReportAddsUp(db, lines, n - 1);
    }
  }

  lemma {:induction false} ErrorsIff(db: Database, lines: seq<Line>, n: nat)
    requires n <= |lines|
    ensures ReportOf(db, lines, n).errors == 0 <==> AllKeyed(lines[..n])
  {
    if n > 0 {
      ErrorsIff(db, lines, n - 1);
      assert lines[..n] == lines[..n - 1] + [lines[n - 1]];
    }
  }

  // ----- Nothing is left pointing at a deleted route -------------------------------------------------------

  /** The blockers are all the columns that forbid deletion, but for the history that a
      rollback deletes itself. */
  lemma BlockersAreComplete(c: Column)
    ensures c in ROUTE_ROLLBACK_BLOCKERS <==> c != RouteHistoryRoute
  {
  }

  lemma GoneAreUnreferenced(db: Database, lines: seq<Line>, c: Column, k: Key)
    requires k in Gone(db, lines) && c != RouteHistoryRoute
    ensures k in db.routes && !Refers(db, c, db.routes[k].id)
  {
    BlockersAreComplete(c);
  }

  lemma SurvivorsExist(db: Database, ks: set<Key>, id: Id)
    requires Exists(db, id) && id !in IdsOf(db, ks)
    ensures Exists(Without(db, ks), id)
  {
    var k :| k in db.routes && db.routes[k].id == id;
    assert k in Without(db, ks).routes;
  }

  lemma HistoryFollows(db: Database, ks: set<Key>, id: Id)
    requires Refers(Without(db, ks), RouteHistoryRoute, id)
    ensures Refers(db, RouteHistoryRoute, id) && id !in IdsOf(db, ks)
  {
    DroppingIff(CellsOf(db, RouteHistoryRoute), IdsOf(db, ks), Some(id));
  }

  /** A rollback keeps every foreign key of every table valid. */
  lemma RollbackKeepsIntact(db: Database, lines: seq<Line>)
    requires Intact(db)
    ensures Intact(RolledBack(db, lines))
  {
    if AllKeyed(lines) {
      var ks := Gone(db, lines);
      var after := Without(db, ks);
      forall c, id | Refers(after, c, id) ensures Exists(after, id) {
        assert PointsToRoutes(db, c);
        if c == RouteHistoryRoute {
          HistoryFollows(db, ks, id);
        } else {
          assert Refers(db, c, id);
          if id in IdsOf(db, ks) {
            var k :| k in ks && k in db.routes && db.routes[k].id == id;
            GoneAreUnreferenced(db, lines, c, k);
            assert false;
          }
        }
        SurvivorsExist(db, ks, id);
      }
      forall id | Some(id) in after.spamRoutes ensures Exists(after, id) {
        var i :| 0 <= i < |after.spamRoutes| && after.spamRoutes[i] == Some(id);
        assert db.spamRoutes[i] == Some(id);
        SurvivorsExist(db, ks, id);
      }
    }
  }

  /** Rolling the same file back again deletes nothing. */
  lemma SecondRollbackDeletesNothing(db: Database, lines: seq<Line>)
    requires AllKeyed(lines)
    ensures Gone(RolledBack(db, lines), lines) == {}
  {
    var after := RolledBack(db, lines);
    forall l | l in lines ensures !Deletable(after, l.value) {
      if l.value in after.routes {
        var id := db.routes[l.value].id;
        assert l.value !in Gone(db, lines);
        assert Blocked(db, id);
        var c :| c in ROUTE_ROLLBACK_BLOCKERS && Refers(db, c, id);
        BlockersAreComplete(c);
        assert Refers(after, c, id);
      }
    }
  }

  // ----- Import, then roll back ------------------------------------------------------------------------------

  function LinesOf(rows: seq<Row>): (r: seq<Line>)
    ensures |r| == |rows|
  {
    seq(|rows|, i requires 0 <= i < |rows| => rows[i].key)
  }

  /** The database after an import of routes: only the routes and their history differ. */
  ghost predicate AfterImport(before: Database, after: Database, nextId: Id, rows: seq<Row>, options: Options) {
    var p := Imported(before.routes, nextId, Routes, rows, options);
    && !p.crashed && after.routes == p.table
    && (forall c :: c != RouteHistoryRoute ==> CellsOf(after, c) == CellsOf(before, c))
    && (forall k :: k in before.routes ==> before.routes[k].id < nextId)
  }

  lemma KeyInLines(rows: seq<Row>, k: Key)
    ensures Some(k) in LinesOf(rows) <==> FirstIndex(rows, k).Some?
  {
    var f := FirstIndex(rows, k);
    if f.Some? {
      assert LinesOf(rows)[f.value] == Some(k);
    }
  }

  lemma BlockedAlike(before: Database, after: Database, id: Id)
    requires forall c :: c != RouteHistoryRoute ==> CellsOf(after, c) == CellsOf(before, c)
    ensures Blocked(after, id) <==> Blocked(before, id)
  {
    if Blocked(before, id) {
      var c :| c in ROUTE_ROLLBACK_BLOCKERS && Refers(before, c, id);
      BlockersAreComplete(c);
      assert Refers(after, c, id);
    }
    if Blocked(after, id) {
      var c :| c in ROUTE_ROLLBACK_BLOCKERS && Refers(after, c, id);
      BlockersAreComplete(c);
      assert Refers(before, c, id);
    }
  }

  lemma FreshIsUnblocked(db: Database, nextId: Id, id: Id)
    requires Intact(db) && nextId <= id && forall k :: k in db.routes ==> db.routes[k].id < nextId
    ensures !Blocked(db, id)
  {
    forall c | c in ROUTE_ROLLBACK_BLOCKERS ensures !Refers(db, c, id) {
      assert PointsToRoutes(db, c);
    }
  }

  /** An import adds routes of the file under fresh ids, and keeps the ids of the others. */
  lemma ImportedKey(before: Database, after: Database, nextId: Id, rows: seq<Row>, options: Options, k: Key)
    requires AfterImport(before, after, nextId, rows, options)
    ensures Some(k) !in LinesOf(rows) ==> Lookup(after.routes, k) == Lookup(before.routes, k)
    ensures k in before.routes ==> k in after.routes && after.routes[k].id == before.routes[k].id
    ensures k in after.routes && k !in before.routes ==> Some(k) in LinesOf(rows) && nextId <= after.routes[k].id
  {
    KeyInLines(rows, k);
    FirstRowDecides(Routes, rows, options, before.routes, nextId, k);
    CreatedIdsAreFresh(Routes, rows, options, before.routes, nextId);
  }

  /** What becomes of one key: a route the import created is gone again; one that was
      there before goes too unless something refers to it. */
  lemma ImportThenRollback(before: Database, after: Database, nextId: Id, rows: seq<Row>, options: Options, k: Key)
    requires Intact(before) && AfterImport(before, after, nextId, rows, options) && AllKeyed(LinesOf(rows))
    ensures var final := RolledBack(after, LinesOf(rows)).routes;
            Lookup(final, k) ==
            if Some(k) !in LinesOf(rows) then Lookup(before.routes, k)
            else if k in before.routes && Blocked(before, before.routes[k].id) then Lookup(after.routes, k)
            else None
  {
    ImportedKey(before, after, nextId, rows, options, k);
    if k in after.routes {
      var id := after.routes[k].id;
      BlockedAlike(before, after, id);
      if k !in before.routes {
        FreshIsUnblocked(before, nextId, id);
      }
    }
    GoneIff(after, LinesOf(rows), k);
  }

  lemma GoneIff(db: Database, lines: seq<Line>, k: Key)
    ensures k in Gone(db, lines) <==> Some(k) in lines && Deletable(db, k)
    ensures Lookup(Without(db, Gone(db, lines)).routes, k) ==
            if k in Gone(db, lines) then None else Lookup(db.routes, k)
  {
  }

  /** The import leaves an older route of the file as it is: known records are skipped,
      or the first row with its key is refused or says what the route already says. */
  ghost predicate LeavesAlone(r: Record, rows: seq<Row>, options: Options, k: Key) {
    var i := FirstIndex(rows, k);
    i.Some? && i.value < |rows| &&
    (|| options.skipExisting || Writer(Routes, rows[i.value], Some(r), options.now).Rejected?
     || Writer(Routes, rows[i.value], Some(r), options.now) == Writes(r.fields))
  }

  lemma LeftAloneIff(before: Database, after: Database, nextId: Id, rows: seq<Row>, options: Options, k: Key)
    requires AfterImport(before, after, nextId, rows, options)
    requires k in before.routes && Some(k) in LinesOf(rows)
    ensures Lookup(after.routes, k) == Some(before.routes[k]) <==> LeavesAlone(before.routes[k], rows, options, k)
  {
    KeyInLines(rows, k);
    FirstRowDecides(Routes, rows, options, before.routes, nextId, k);
  }

  /** An older route of the file survives import and rollback as it was. */
  ghost predicate Restored(before: Database, rows: seq<Row>, options: Options, k: Key) {
    k in before.routes && Some(k) in LinesOf(rows) ==>
      Blocked(before, before.routes[k].id) && LeavesAlone(before.routes[k], rows, options, k)
  }

  lemma KeyRestoredIff(before: Database, after: Database, nextId: Id, rows: seq<Row>, options: Options, k: Key)
    requires Intact(before) && AfterImport(before, after, nextId, rows, options) && AllKeyed(LinesOf(rows))
    ensures Lookup(RolledBack(after, LinesOf(rows)).routes, k) == Lookup(before.routes, k) <==>
            Restored(before, rows, options, k)
  {
    ImportThenRollback(before, after, nextId, rows, options, k);
    if k in before.routes && Some(k) in LinesOf(rows) {
      LeftAloneIff(before, after, nextId, rows, options, k);
    }
  }

  /** Importing a file and rolling it back restores the routes exactly when every route
      of the file that existed before is referred to, and the file leaves it alone. */
  lemma RollbackRestoresIff(before: Database, after: Database, nextId: Id, rows: seq<Row>, options: Options)
    requires Intact(before) && AfterImport(before, after, nextId, rows, options) && AllKeyed(LinesOf(rows))
    ensures RolledBack(after, LinesOf(rows)).routes == before.routes <==>
            forall k :: Restored(before, rows, options, k)
  {
    var final := RolledBack(after, LinesOf(rows)).routes;
    forall k ensures Lookup(final, k) == Lookup(before.routes, k) <==> Restored(before, rows, options, k) {
      KeyRestoredIff(before, after, nextId, rows, options, k);
    }
    SameLookups(final, before.routes);
  }

  /** A file that names an older route without references, and a rollback that deletes it:
      the import itself left the route alone. */
  lemma OlderRouteIsLost(k: Key, r: Record, row: Row)
    requires row.key == Some(k)
    ensures var before := Database(map[k := r], map[RouteHistoryRoute := []], []);
            && Intact(before) && AfterImport(before, before, r.id + 1, [row], Options(true, 0))
            && LeavesAlone(r, [row], Options(true, 0), k)
            && RolledBack(before, LinesOf([row])).routes == map[]
  {
    var before := Database(map[k := r], map[RouteHistoryRoute := []], []);
    var options := Options(true, 0);
    var start := Imported(before.routes, r.id + 1, Routes, [], options);
    assert [row][..0] == [] && [row][0] == row;
    assert Imported(before.routes, r.id + 1, Routes, [row], options) == AfterRow(start, Routes, row, options);
    assert LinesOf([row]) == [Some(k)];
    forall id ensures !Blocked(before, id) {
      NothingRefers(before, id);
    }
    assert k in Gone(before, [Some(k)]);
  }

  lemma NothingRefers(db: Database, id: Id)
    requires db.references == map[RouteHistoryRoute := []]
    ensures forall c :: !Refers(db, c, id)
  {
  }

  /** In particular when the file brought nothing but new routes; with an unreadable row
      the rollback is refused and they stay. */
  lemma NewRoutesRestoredIff(before: Database, after: Database, nextId: Id, rows: seq<Row>, options: Options)
    requires Intact(before) && AfterImport(before, after, nextId, rows, options)
    requires forall k :: Some(k) in LinesOf(rows) ==> k !in before.routes
    ensures RolledBack(after, LinesOf(rows)).routes == before.routes <==>
            AllKeyed(LinesOf(rows)) || Imported(before.routes, nextId, Routes, rows, options).created == {}
  {
    if AllKeyed(LinesOf(rows)) {
      RollbackRestoresIff(before, after, nextId, rows, options);
    } else {
      SameLookups(after.routes, before.routes);
      var created := Imported(before.routes, nextId, Routes, rows, options).created;
      forall k ensures Lookup(after.routes, k) == Lookup(before.routes, k) <==> k !in created {
        KeyInLines(rows, k);
        FirstRowDecides(Routes, rows, options, before.routes, nextId, k);
      }
    }
  }

  // ----- What a rollback does, said of the tables ------------------------------------------------------------

  /** Nothing but its own history refers to the route. */
  ghost predicate Unused(db: Database, id: Id) {
    forall c: Column :: c != RouteHistoryRoute ==> Some(id) !in CellsOf(db, c)
  }

  lemma BlockedIff(db: Database, id: Id)
    ensures Blocked(db, id) <==> !Unused(db, id)
  {
    if Blocked(db, id) {
      var c :| c in ROUTE_ROLLBACK_BLOCKERS && Refers(db, c, id);
      BlockersAreComplete(c);
    }
    if !Unused(db, id) {
      var c :| c != RouteHistoryRoute && Some(id) in CellsOf(db, c);
      BlockersAreComplete(c);
      assert Refers(db, c, id);
    }
  }

  /** A route goes when the file names it and nothing but its history refers to it. */
  ghost predicate MustGo(db: Database, lines: seq<Line>, k: Key) {
    k in db.routes && Some(k) in lines && Unused(db, db.routes[k].id)
  }

  lemma GoneMeans(db: Database, lines: seq<Line>, k: Key)
    ensures k in Gone(db, lines) <==> MustGo(db, lines, k)
  {
    if k in db.routes {
      BlockedIff(db, db.routes[k].id);
    }
  }

  /** These routes go, with their history, and the result rows that named them name none;
      everything else stays. */
  ghost predicate RoutesGone(before: Database, after: Database, lines: seq<Line>) {
    && (forall k :: k in after.routes <==> k in before.routes && !MustGo(before, lines, k))
    && (forall k :: k in after.routes ==> after.routes[k] == before.routes[k])
    && (forall c :: c != RouteHistoryRoute ==> CellsOf(after, c) == CellsOf(before, c))
    && (forall x :: x in CellsOf(after, RouteHistoryRoute) <==>
          x in CellsOf(before, RouteHistoryRoute) && !(x.Some? && IdGoes(before, lines, x.value)))
    && |after.spamRoutes| == |before.spamRoutes|
    && forall i :: 0 <= i < |before.spamRoutes| ==>
         var x := before.spamRoutes[i];
         after.spamRoutes[i] == if x.Some? && IdGoes(before, lines, x.value) then None else x
  }

  ghost predicate IdGoes(db: Database, lines: seq<Line>, id: Id) {
    exists k :: k in db.routes && db.routes[k].id == id && MustGo(db, lines, k)
  }

  lemma GoneIdsIff(db: Database, lines: seq<Line>, id: Id)
    ensures id in IdsOf(db, Gone(db, lines)) <==> IdGoes(db, lines, id)
  {
    if id in IdsOf(db, Gone(db, lines)) {
      var k :| k in Gone(db, lines) && k in db.routes && db.routes[k].id == id;
      GoneMeans(db, lines, k);
    }
    if IdGoes(db, lines, id) {
      var k :| k in db.routes && db.routes[k].id == id && MustGo(db, lines, k);
      GoneMeans(db, lines, k);
    }
  }

  lemma WithoutMeans(db: Database, lines: seq<Line>)
    ensures RoutesGone(db, Without(db, Gone(db, lines)), lines)
  {
    var ks := Gone(db, lines);
    var after := Without(db, ks);
    forall k ensures k in ks <==> MustGo(db, lines, k) {
      GoneMeans(db, lines, k);
    }
    forall id ensures id in IdsOf(db, ks) <==> IdGoes(db, lines, id) {
      GoneIdsIff(db, lines, id);
    }
    forall x ensures x in CellsOf(after, RouteHistoryRoute) <==>
                     x in CellsOf(db, RouteHistoryRoute) && !(x.Some? && IdGoes(db, lines, x.value)) {
      DroppingIff(CellsOf(db, RouteHistoryRoute), IdsOf(db, ks), x);
    }
  }

  lemma {:induction false} CountIsBelow(db: Database, lines: seq<Line>, n: nat, v: Verdict, p: nat -> bool)
    requires n <= |lines| && forall i: nat :: i < |lines| ==> (p(i) <==> VerdictOf(db, lines, i) == v)
    ensures Count(db, lines, n, v) == |PositionsBelow(n, p)|
  {
    if n == 0 {
      assert PositionsBelow(0, p) == {};
    } else {
      CountIsBelow(db, lines, n - 1, v, p);
      OneMorePositionBelow(n - 1, p);
    }
  }

  lemma CountsRows(db: Database, lines: seq<Line>, v: Verdict)
    ensures Count(db, lines, |lines|, v) == |(set i: nat | i < |lines| && VerdictOf(db, lines, i) == v)|
  {
    var p := (i: nat) => i < |lines| && VerdictOf(db, lines, i) == v;
    CountIsBelow(db, lines, |lines|, v, p);
    assert PositionsBelow(|lines|, p) == set i: nat | i < |lines| && VerdictOf(db, lines, i) == v;
  }

  /** The report counts rows: unreadable ones, repetitions of an earlier row, first rows of a
      route that can go, and the rest. */
  ghost predicate ReportSays(db: Database, lines: seq<Line>, r: Report) {
    && r.errors == |(set i | 0 <= i < |lines| && lines[i] == None)|
    && r.duplicates == |(set i | 0 <= i < |lines| && lines[i] != None && lines[i] in lines[..i])|
    && r.ready == |(set k | k in db.routes && MustGo(db, lines, k))|
    && r.duplicates + r.skipped + r.ready + r.errors == |lines|
  }

  lemma ReportMeans(db: Database, lines: seq<Line>)
    ensures ReportSays(db, lines, ReportOf(db, lines, |lines|))
  {
    CountsRows(db, lines, Malformed);
    CountsRows(db, lines, Repeated);
    ReportAddsUp(db, lines, |lines|);
    AsManyAsPreviewed(db, lines, |lines|);
    assert lines[..|lines|] == lines;
    assert (set i: nat | i < |lines| && VerdictOf(db, lines, i) == Malformed) ==
           set i | 0 <= i < |lines| && lines[i] == None;
    assert (set i: nat | i < |lines| && VerdictOf(db, lines, i) == Repeated) ==
           set i | 0 <= i < |lines| && lines[i] != None && lines[i] in lines[..i];
    forall k ensures k in Gone(db, lines) <==> k in db.routes && MustGo(db, lines, k) {
      GoneMeans(db, lines, k);
    }
    assert Gone(db, lines) == set k | k in db.routes && MustGo(db, lines, k);
  }

  // ----- The methods ---------------------------------------------------------------------------------------

  datatype Reply = RolledBackRows(report: Report, deleted: nat) | FileHasErrors

  class Store {
    var routes: Table
    var references: map<Column, Cells>
    var spamRoutes: Cells

    constructor ()
      ensures Data() == Database(map[], map[RouteHistoryRoute := []], [])
    {
      routes, references, spamRoutes := map[], map[RouteHistoryRoute := []], [];
    }

    function Data(): Database
      reads this
    {
      Database(routes, references, spamRoutes)
    }

    /** Counts references column by column. */
    method HasBlockers(id: Id) returns (found: bool)
      ensures found <==> Blocked(Data(), id)
    {
      found := false;
      var i := 0;
      while i < |ROUTE_ROLLBACK_BLOCKERS|
        invariant 0 <= i <= |ROUTE_ROLLBACK_BLOCKERS|
        invariant found <==> BlockedBy(Data(), ROUTE_ROLLBACK_BLOCKERS[..i], id)
      {
        var c := ROUTE_ROLLBACK_BLOCKERS[i];
        var count := multiset(CellsOf(Data(), c))[Some(id)];
        NextBlocker(Data(), i, id);
        if count > 0 {
          found := true;
        }
        i := i + 1;
      }
      assert ROUTE_ROLLBACK_BLOCKERS[..i] == ROUTE_ROLLBACK_BLOCKERS;
    }

    /** `ready` are the keys announced for deletion. */
    method PreviewRollback(lines: seq<Line>) returns (report: Report, ready: set<Key>)
      ensures report == ReportOf(Data(), lines, |lines|)
      ensures ready == Gone(Data(), lines)
      ensures forall k :: k in ready <==> MustGo(Data(), lines, k)
      ensures ReportSays(Data(), lines, report)
    {
      ReportMeans(Data(), lines);
      forall k ensures k in Gone(Data(), lines) <==> MustGo(Data(), lines, k) {
        GoneMeans(Data(), lines, k);
      }
      report, ready := CountRows(lines);
    }

    /** The loop over the rows of the file. */
    method CountRows(lines: seq<Line>) returns (report: Report, ready: set<Key>)
      ensures report == ReportOf(Data(), lines, |lines|)
      ensures ready == Gone(Data(), lines)
    {
      var duplicates, skipped, fit, errors := 0, 0, 0, 0;
      var seen: set<Key> := {};
      ready := {};
      var i := 0;
      while i < |lines|
        invariant 0 <= i <= |lines|
        invariant forall k :: k in seen <==> Some(k) in lines[..i]
        invariant ready == Gone(Data(), lines[..i])
        invariant Report(duplicates, skipped, fit, errors) == ReportOf(Data(), lines, i)
      {
        NextGone(Data(), lines, i);
        assert lines[..i + 1] == lines[..i] + [lines[i]];
        if lines[i].None? {
          errors := errors + 1;
        } else if lines[i].value in seen {
          duplicates := duplicates + 1;
        } else {
          var k := lines[i].value;
          seen := seen + {k};
          if k !in routes {
            skipped := skipped + 1;
          } else {
            var blocked := HasBlockers(routes[k].id);
            if blocked {
              skipped := skipped + 1;
            } else {
              fit := fit + 1;
              ready := ready + {k};
            }
          }
        }
        i := i + 1;
      }
      assert lines[..i] == lines;
      report := Report(duplicates, skipped, fit, errors);
    }

    /** The history first, then the route; the database refuses while any restricting
        column still refers to it. */
    method DeleteRoute(k: Key) returns (ok: bool)
      requires k in routes && UniqueIds(Data())
      modifies this
      ensures ok <==> !Blocked(old(Data()), old(routes)[k].id)
      ensures ok ==> Data() == Without(old(Data()), {k})
    {
      var id := routes[k].id;
      ghost var before := Data();
      references := references[RouteHistoryRoute := Dropping(CellsOf(Data(), RouteHistoryRoute), {id})];
      RestrictedWithoutHistory(before, Data(), id);
      ok := !Restricted(Data(), id);
      if ok {
        routes := map l | l in routes && routes[l].id != id :: routes[l];
        spamRoutes := Emptied(spamRoutes, {id});
        assert IdsOf(before, {k}) == {id};
        assert routes == before.routes - {k};
      }
    }

    /** Goes through the whole file again; a repeated row finds its route gone. */
    method DeleteReady(lines: seq<Line>, ready: set<Key>) returns (deleted: nat)
      requires UniqueIds(Data()) && RouteHistoryRoute in references
      requires AllKeyed(lines) && ready == Gone(Data(), lines)
      modifies this
      ensures Data() == Without(old(Data()), ready) && deleted == |ready|
    {
      ghost var before := Data();
      deleted := 0;
      var i := 0;
      NothingGoneYet(before, lines);
      while i < |lines|
        invariant 0 <= i <= |lines|
        invariant Data() == Remaining(before, lines, i)
        invariant deleted == |Gone(before, lines[..i])|
      {
        var k := lines[i].value;
        RemainingUnique(before, lines, i);
        RemainingNext(before, lines, i);
        GoneGrows(before, lines, i);
        if k in ready && k in routes {
          StillDeletable(before, lines, i);
          var ok := DeleteRoute(k);
          assert ok;
          deleted := deleted + 1;
        }
        i := i + 1;
      }
      assert lines[..i] == lines;
    }

    /** A file with an unreadable row is refused as a whole. */
    method ApplyRollback(lines: seq<Line>) returns (r: Reply)
      requires UniqueIds(Data()) && RouteHistoryRoute in references
      modifies this
      ensures Data() == RolledBack(old(Data()), lines)
      ensures r == if AllKeyed(lines)
                   then var report := ReportOf(old(Data()), lines, |lines|); RolledBackRows(report, report.ready)
                   else FileHasErrors
      ensures r.FileHasErrors? <==> None in lines
      ensures r.FileHasErrors? ==> Data() == old(Data())
      ensures r.RolledBackRows? ==> RoutesGone(old(Data()), Data(), lines)
      ensures r.RolledBackRows? ==> r.deleted == |old(routes).Keys| - |routes.Keys|
    {
      ghost var before := Data();
      r := DeleteFile(lines);
      if r.RolledBackRows? {
        WithoutMeans(before, lines);
        assert routes == before.routes - Gone(before, lines);
        assert routes.Keys == before.routes.Keys - Gone(before, lines);
        assert Gone(before, lines) <= before.routes.Keys;
        AsManyAsPreviewed(before, lines, |lines|);
        assert lines[..|lines|] == lines;
      }
    }

    /** The preview once more, then the deletions. */
    method DeleteFile(lines: seq<Line>) returns (r: Reply)
      requires UniqueIds(Data()) && RouteHistoryRoute in references
      modifies this
      ensures Data() == RolledBack(old(Data()), lines)
      ensures r == if AllKeyed(lines)
                   then var report := ReportOf(old(Data()), lines, |lines|); RolledBackRows(report, report.ready)
                   else FileHasErrors
    {
      var report, ready := PreviewRollback(lines);
      assert lines[..|lines|] == lines;
      ErrorsIff(Data(), lines, |lines|);
      AsManyAsPreviewed(Data(), lines, |lines|);
      if report.errors > 0 {
        return FileHasErrors;
      }
      var deleted := DeleteReady(lines, ready);
      return RolledBackRows(report, deleted);
    }
  }

  lemma NextBlocker(db: Database, i: nat, id: Id)
    requires i < |ROUTE_ROLLBACK_BLOCKERS|
    ensures BlockedBy(db, ROUTE_ROLLBACK_BLOCKERS[..i + 1], id) <==>
            BlockedBy(db, ROUTE_ROLLBACK_BLOCKERS[..i], id) || Refers(db, ROUTE_ROLLBACK_BLOCKERS[i], id)
  {
    var b := ROUTE_ROLLBACK_BLOCKERS;
    assert b[..i + 1] == b[..i] + [b[i]];
    if Refers(db, b[i], id) {
      assert b[i] in b[..i + 1];
    }
    if BlockedBy(db, b[..i], id) {
      var c :| c in b[..i] && Refers(db, c, id);
      assert c in b[..i + 1];
    }
  }

  /** Once the history is gone, what restricts a route is what the preview looks at. */
  lemma RestrictedWithoutHistory(before: Database, after: Database, id: Id)
    requires after == before.(references := before.references[RouteHistoryRoute :=
                                Dropping(CellsOf(before, RouteHistoryRoute), {id})])
    ensures Restricted(after, id) <==> Blocked(before, id)
  {
    DroppingIff(CellsOf(before, RouteHistoryRoute), {id}, Some(id));
    if Restricted(after, id) {
      var c: Column :| Refers(after, c, id);
      BlockersAreComplete(c);
      assert Refers(before, c, id);
    }
    if Blocked(before, id) {
      var c :| c in ROUTE_ROLLBACK_BLOCKERS && Refers(before, c, id);
      BlockersAreComplete(c);
      assert Refers(after, c, id);
    }
  }

  /** The routes still to go are those of the file that are ready and present. */
  lemma NextInFile(db: Database, lines: seq<Line>, i: nat)
    requires i < |lines| && lines[i].Some?
    ensures var k := lines[i].value; var gone := Gone(db, lines[..i]);
            Gone(db, lines[..i + 1]) ==
            gone + (if k in Gone(db, lines) && k in Without(db, gone).routes then {k} else {})
  {
    NextGone(db, lines, i);
    assert lines[i] in lines;
  }

  ghost function Remaining(db: Database, lines: seq<Line>, i: nat): Database
    requires i <= |lines|
  {
    Without(db, Gone(db, lines[..i]))
  }

  lemma NothingGoneYet(db: Database, lines: seq<Line>)
    requires RouteHistoryRoute in db.references
    ensures Gone(db, lines[..0]) == {} && Remaining(db, lines, 0) == db
  {
    WithoutNothing(db);
    assert Gone(db, lines[..0]) == {};
  }

  /** Row `i` is the one at which its route goes: the loop finds it ready and present. */
  ghost predicate Goes(db: Database, lines: seq<Line>, i: nat)
    requires i < |lines| && lines[i].Some?
  {
    lines[i].value in Gone(db, lines) && lines[i].value in Remaining(db, lines, i).routes
  }

  lemma RemainingUnique(db: Database, lines: seq<Line>, i: nat)
    requires UniqueIds(db) && i <= |lines|
    ensures UniqueIds(Remaining(db, lines, i))
  {
  }

  lemma StillDeletable(db: Database, lines: seq<Line>, i: nat)
    requires i < |lines| && lines[i].Some? && Goes(db, lines, i)
    ensures Deletable(Remaining(db, lines, i), lines[i].value)
  {
    assert Deletable(db, lines[i].value);
    UnblockedStill(db, lines[..i], lines[i].value);
  }

  lemma RemainingNext(db: Database, lines: seq<Line>, i: nat)
    requires UniqueIds(db) && i < |lines| && lines[i].Some?
    ensures Remaining(db, lines, i + 1) ==
            (if Goes(db, lines, i) then Without(Remaining(db, lines, i), {lines[i].value}) else Remaining(db, lines, i))
  {
    var k, gone := lines[i].value, Gone(db, lines[..i]);
    NextInFile(db, lines, i);
    if Goes(db, lines, i) {
      assert Gone(db, lines[..i + 1]) == gone + {k};
      assert k in db.routes && k !in gone;
      WithoutOneMore(db, gone, k);
    } else {
      assert gone + {} == gone;
    }
  }

  lemma GoneGrows(db: Database, lines: seq<Line>, i: nat)
    requires i < |lines| && lines[i].Some?
    ensures |Gone(db, lines[..i + 1])| == |Gone(db, lines[..i])| + (if Goes(db, lines, i) then 1 else 0)
  {
    var k, gone := lines[i].value, Gone(db, lines[..i]);
    NextInFile(db, lines, i);
    if Goes(db, lines, i) {
      assert Gone(db, lines[..i + 1]) == gone + {k};
      assert k !in gone;
    } else {
      assert gone + {} == gone;
    }
  }

  lemma UnblockedStill(db: Database, lines: seq<Line>, k: Key)
    requires Deletable(db, k)
    ensures k in Without(db, Gone(db, lines)).routes ==> Deletable(Without(db, Gone(db, lines)), k)
  {
    BlockedAlike(db, Without(db, Gone(db, lines)), db.routes[k].id);
  }
}
