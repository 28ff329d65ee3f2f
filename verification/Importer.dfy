/** CSV import: the preview of a file, and its application row by row.

    Rows arrive with their business key already worked out (or none, when it cannot
    be) and with their columns read.  Routes, phones and campaigns are written field by
    field; a row of the other types comes with what its writer makes of it. */
module Importer {
  import opened Common

  /** Country and name for a route, the identifying text alone for other types. */
  type Key = (string, string)

  type Id = nat

  datatype Kind = Routes | Phones | Companies | Tariffs | Dictionaries

  datatype Column = Absent | Present(text: string)

  datatype RouteColumns = RouteColumns(provider: Option<Id>, prefix: Column, project: Column, cliType: Column,
                                       cliLabel: Column, comment: Column, inferredType: string, inferredLabel: string)

  datatype Use = Used | Unused | Unknown

  /** A line read as a phone.  `plain` are the columns that are copied as they are;
      `storable` and `dateStorable` say whether the database can hold the amounts and
      the creation date. */
  datatype PhoneColumns = PhoneColumns(provider: Option<Id>, project: Option<string>, assignment: Option<string>,
                                       use: Use, active: bool, review: bool, problematic: bool,
                                       creator: Option<string>, createdAt: Option<int>, plain: string,
                                       storable: bool, dateStorable: bool)

  /** `linked` says whether the phone has an active route link. */
  datatype Phone = Phone(provider: Option<Id>, project: Option<string>, assignment: Option<string>, use: Use,
                         active: bool, review: bool, problematic: bool, creator: Option<string>,
                         deactivatedAt: Option<int>, linked: bool, plain: string)

  /** A line read as a campaign; a column that is absent, or blank where that means the
      same, is none.  A country can also be present and mean several. */
  datatype CompanyColumns = CompanyColumns(server: string, country: Option<Option<Id>>, name: string,
                                           auto: Option<bool>, active: Option<bool>, lines: Option<nat>,
                                           dialSets: Option<nat>, retrySeconds: Option<nat>, comment: Column)

  datatype Company = Company(server: string, country: Option<Id>, name: string, auto: bool, active: bool, lines: nat,
                             dialSets: nat, retrySeconds: nat, comment: Option<string>)

  /** `checks` says whether the references and numbers of a phone or campaign can be
      read, or a tariff's references be found; `accepted` and `content` stand for the
      writers of tariffs and dictionaries. */
  datatype Row = Row(key: Option<Key>, checks: bool, accepted: bool, content: string, route: RouteColumns,
                     phone: PhoneColumns, company: CompanyColumns)

  datatype Fields =
    | RouteFields(provider: Id, prefix: Option<string>, project: Option<string>, cliType: string, cliLabel: string,
                  comment: Option<string>)
    | PhoneFields(phone: Phone)
    | CompanyFields(company: Company)
    | OtherFields(content: string)

  datatype Record = Record(id: Id, fields: Fields)

  type Table = map<Key, Record>

  // ----- The route writer --------------------------------------------------------------------

  const NO_PREFIX_LABELS := {"", "без префикса", "no prefix", "—", "-"}
  const CLI_TYPES := {"rnd", "pool", "sim", "single_number", "other"}

  predicate AllDigits(s: string) {
    forall i :: 0 <= i < |s| ==> '0' <= s[i] <= '9'
  }

  predicate PrefixReadable(c: Column) {
    c.Present? && c.text !in NO_PREFIX_LABELS ==> AllDigits(c.text)
  }

  function PrefixOf(c: Column): Option<string> {
    if c.Absent? || c.text in NO_PREFIX_LABELS then None else Some(c.text)
  }

  function OptionalText(c: Column): Option<string> {
    if c.Absent? || c.text == "" then None else Some(c.text)
  }

  function TextOr(c: Column, default: string): string {
    if c.Absent? || c.text == "" then default else c.text
  }

  function NewRoute(r: RouteColumns): Fields
    requires r.provider.Some?
  {
    RouteFields(r.provider.value, PrefixOf(r.prefix), OptionalText(r.project), TextOr(r.cliType, r.inferredType),
                TextOr(r.cliLabel, r.inferredLabel), OptionalText(r.comment))
  }

  /** The source of an existing route is guessed anew only when the file says nothing
      about it and the route still carries the old default. */
  predicate Reinferred(f: Fields, r: RouteColumns)
    requires f.RouteFields?
  {
    && r.cliType.Absent? && r.cliLabel.Absent?
    && f.cliType == "other" && ReadsOther(f.cliLabel) && r.inferredType != "other"
  }

  /** The word in either case. */
  predicate ReadsOther(s: string) {
    |s| == 5 && forall i :: 0 <= i < 5 ==> s[i] == "OTHER"[i] || s[i] == "other"[i]
  }

  /** Columns that are not in the file keep their value. */
  function MergedRoute(f: Fields, r: RouteColumns): Fields
    requires f.RouteFields? && r.provider.Some?
  {
    RouteFields(r.provider.value,
                if r.prefix.Absent? then f.prefix else PrefixOf(r.prefix),
                if r.project.Absent? then f.project else OptionalText(r.project),
                if Reinferred(f, r) then r.inferredType else TextOr(r.cliType, f.cliType),
                if Reinferred(f, r) then r.inferredLabel else TextOr(r.cliLabel, f.cliLabel),
                if r.comment.Absent? then f.comment else OptionalText(r.comment))
  }

  /** A rejected row is skipped; a crash is a database error that ends the import; a
      retired tariff loses its place as the current one before its row is skipped. */
  datatype Outcome = Rejected | Crashes | Retires | Writes(fields: Fields)

  /** A record of another section's type cannot stand under the key; it would be refused. */
  function WriteRoute(row: Row, existing: Option<Record>): Outcome {
    var r := row.route;
    if r.provider.None? || !PrefixReadable(r.prefix) || (existing.Some? && !existing.value.fields.RouteFields?)
    then Rejected
    else
      var f := if existing.Some? then MergedRoute(existing.value.fields, r) else NewRoute(r);
      if f.cliType in CLI_TYPES then Writes(f) else Crashes
  }

  // ----- The phone writer ------------------------------------------------------------------------

  /** What leaves a phone under review. */
  predicate Incomplete(c: PhoneColumns) {
    c.provider.None? || c.project.None? || c.assignment.None? || c.review
  }

  function NewPhone(c: PhoneColumns, now: int): Phone {
    Phone(c.provider, c.project, c.assignment, if c.active then c.use else Unused, c.active,
          Incomplete(c) || c.problematic, c.problematic, c.creator,
          if c.active then None else Some(if c.createdAt.Some? then c.createdAt.value else now), false, c.plain)
  }

  const OTHER_ASSIGNMENT := "other"

  /** Problems, review flags, the importer's name and the date of deactivation are never
      lost; a missing assignment becomes "other"; a problematic phone that is active and
      linked stays in use; any other that is not in use loses its links. */
  function UpdatedPhone(p: Phone, c: PhoneColumns, now: int): Phone {
    var problematic := c.problematic || p.problematic;
    var use := if !c.active then Unused else if problematic && p.linked then Used else c.use;
    Phone(c.provider, c.project, if c.assignment.Some? then c.assignment else Some(OTHER_ASSIGNMENT), use, c.active,
          Incomplete(c) || p.review || (c.active && !p.active) || problematic, problematic,
          if c.creator.Some? then c.creator else p.creator,
          if !c.active && p.deactivatedAt.None? then Some(now) else p.deactivatedAt,
          p.linked && use == Used, c.plain)
  }

  function WritePhone(row: Row, existing: Option<Record>, now: int): Outcome {
    var c := row.phone;
    if !row.checks || (existing.Some? && !existing.value.fields.PhoneFields?) then Rejected
    else if existing.Some? then
      var p := UpdatedPhone(existing.value.fields.phone, c, now);
      if c.provider.None? && !p.review then Rejected
      else if c.storable then Writes(PhoneFields(p)) else Crashes
    else if c.storable && c.dateStorable then Writes(PhoneFields(NewPhone(c, now))) else Crashes
  }

  // ----- The campaign writer ---------------------------------------------------------------------

  function Or<T>(column: Option<T>, default: T): T {
    if column.Some? then column.value else default
  }

  function NewCompany(c: CompanyColumns): Company {
    Company(c.server, Or(c.country, None), c.name, Or(c.auto, false), Or(c.active, true), Or(c.lines, 0),
            Or(c.dialSets, 0), Or(c.retrySeconds, 0), OptionalText(c.comment))
  }

  function UpdatedCompany(p: Company, c: CompanyColumns): Company {
    Company(c.server, Or(c.country, p.country), c.name, Or(c.auto, p.auto), Or(c.active, p.active),
            Or(c.lines, p.lines),
            Or(c.dialSets, p.dialSets), Or(c.retrySeconds, p.retrySeconds),
            if c.comment.Absent? then p.comment else OptionalText(c.comment))
  }

  function WriteCompany(row: Row, existing: Option<Record>): Outcome {
    if !row.checks || (existing.Some? && !existing.value.fields.CompanyFields?) then Rejected
    else if existing.Some?
    then Writes(CompanyFields(UpdatedCompany(existing.value.fields.company, row.company)))
    else Writes(CompanyFields(NewCompany(row.company)))
  }

  // ----- All writers -----------------------------------------------------------------------------

  function Writer(kind: Kind, row: Row, existing: Option<Record>, now: int): Outcome {
    match kind
    case Routes => WriteRoute(row, existing)
    case Phones => WritePhone(row, existing, now)
    case Companies => WriteCompany(row, existing)
    case Tariffs =>
      if existing.Some? then (if row.checks then Retires else Rejected)
      else if row.accepted then Writes(OtherFields(row.content)) else Rejected
    case Dictionaries => if row.accepted then Writes(OtherFields(row.content)) else Rejected
  }

  /** How an import is run: whether known records are left alone, and what the clock
      shows. */
  datatype Options = Options(skipExisting: bool, now: int)

  /** The keys an import treats as existing: a dictionary is never looked up. */
  function Known(kind: Kind, table: Table): set<Key> {
    if kind == Dictionaries then {} else table.Keys
  }

  // ----- Preview -----------------------------------------------------------------------------------

  datatype Status = WillCreate | WillUpdate | DuplicateInFile | Erroneous

  predicate Readable(kind: Kind, row: Row) {
    row.key.Some? && (kind == Phones || kind == Companies ==> row.checks)
  }

  function KeysOf(kind: Kind, rows: seq<Row>): set<Key> {
    set i | 0 <= i < |rows| && Readable(kind, rows[i]) :: rows[i].key.value
  }

  function StatusOf(kind: Kind, rows: seq<Row>, i: nat, known: set<Key>): Status
    requires i < |rows|
  {
    StatusAfter(kind, rows[i], KeysOf(kind, rows[..i]), known)
  }

  function StatusAfter(kind: Kind, row: Row, seen: set<Key>, known: set<Key>): Status {
    if !Readable(kind, row) then Erroneous
    else if row.key.value in seen then DuplicateInFile
    else if row.key.value in known then WillUpdate
    else WillCreate
  }

  function Statuses(kind: Kind, rows: seq<Row>, known: set<Key>): (r: seq<Status>)
    ensures |r| == |rows|
  {
    seq(|rows|, i requires 0 <= i < |rows| => StatusOf(kind, rows, i, known))
  }

  function Tally(statuses: seq<Status>, s: Status): nat {
    if statuses == [] then 0
    else Tally(statuses[..|statuses| - 1], s) + (if statuses[|statuses| - 1] == s then 1 else 0)
  }

  datatype Preview = Preview(total: nat, newRows: nat, duplicates: nat, errors: nat, statuses: seq<Status>)

  /** A number repeated inside a phone file is a duplicate and an error. */
  function PreviewOf(kind: Kind, rows: seq<Row>, known: set<Key>): Preview {
    var s := Statuses(kind, rows, known);
    Preview(|rows|, Tally(s, WillCreate), Tally(s, DuplicateInFile) + Tally(s, WillUpdate),
            Tally(s, Erroneous) + (if kind == Phones then Tally(s, DuplicateInFile) else 0), s)
  }

  lemma NextStatus(kind: Kind, rows: seq<Row>, i: nat, known: set<Key>)
    requires i < |rows|
    ensures Statuses(kind, rows[..i + 1], known) == Statuses(kind, rows[..i], known) + [StatusOf(kind, rows, i, known)]
  {
    forall j | 0 <= j <= i ensures StatusOf(kind, rows[..i + 1], j, known) == StatusOf(kind, rows, j, known) {
      assert rows[..i + 1][..j] == rows[..j];
    }
    forall j | 0 <= j < i ensures StatusOf(kind, rows[..i], j, known) == StatusOf(kind, rows, j, known) {
      assert rows[..i][..j] == rows[..j];
    }
  }

  lemma NextKeys(kind: Kind, rows: seq<Row>, i: nat)
    requires i < |rows|
    ensures KeysOf(kind, rows[..i + 1]) ==
            KeysOf(kind, rows[..i]) + (if Readable(kind, rows[i]) then {rows[i].key.value} else {})
  {
  }

  lemma TallyAll(statuses: seq<Status>, x: Status)
    ensures forall s :: Tally(statuses + [x], s) == Tally(statuses, s) + (if x == s then 1 else 0)
  {
  }

  lemma {:induction false} StatusesPartition(statuses: seq<Status>)
    ensures Tally(statuses, WillCreate) + Tally(statuses, WillUpdate) + Tally(statuses, DuplicateInFile)
            + Tally(statuses, Erroneous) == |statuses|
  {
    if statuses != [] {
      StatusesPartition(statuses[..|statuses| - 1]);
    }
  }

  /** Every row is counted once; a repeated number of a phone file is counted twice. */
  lemma PreviewAddsUp(kind: Kind, rows: seq<Row>, known: set<Key>)
    ensures var p := PreviewOf(kind, rows, known);
            p.newRows + p.duplicates + p.errors ==
            p.total + (if kind == Phones then Tally(p.statuses, DuplicateInFile) else 0)
  {
    StatusesPartition(Statuses(kind, rows, known));
  }

  /** A preview with one more row of this status. */
  function Counted(p: Preview, kind: Kind, status: Status): Preview {
    p.(total := p.total + 1,
       newRows := p.newRows + (if status == WillCreate then 1 else 0),
       duplicates := p.duplicates + (if status == DuplicateInFile || status == WillUpdate then 1 else 0),
       errors := p.errors + (if status == Erroneous || (status == DuplicateInFile && kind == Phones) then 1 else 0),
       statuses := p.statuses + [status])
  }

  lemma NextPreview(kind: Kind, rows: seq<Row>, i: nat, known: set<Key>)
    requires i < |rows|
    ensures PreviewOf(kind, rows[..i + 1], known) ==
            Counted(PreviewOf(kind, rows[..i], known), kind, StatusOf(kind, rows, i, known))
  {
    NextStatus(kind, rows, i, known);
    TallyAll(Statuses(kind, rows[..i], known), StatusOf(kind, rows, i, known));
  }

  /** One row of the preview loop. */
  method PreviewRow(kind: Kind, row: Row, seen: set<Key>, known: set<Key>, p: Preview)
    returns (seen': set<Key>, p': Preview)
    ensures p' == Counted(p, kind, StatusAfter(kind, row, seen, known))
    ensures seen' == seen + (if Readable(kind, row) then {row.key.value} else {})
  {
    var newRows, duplicates, errors := p.newRows, p.duplicates, p.errors;
    seen' := seen;
    var status: Status;
    if !Readable(kind, row) {
      status := Erroneous;
      errors := errors + 1;
    } else if row.key.value in seen {
      status := DuplicateInFile;
      duplicates := duplicates + 1;
      if kind == Phones {
        errors := errors + 1;
      }
    } else {
      seen' := seen + {row.key.value};
      if row.key.value in known {
        status := WillUpdate;
        duplicates := duplicates + 1;
      } else {
        status := WillCreate;
        newRows := newRows + 1;
      }
    }
    p' := Preview(p.total + 1, newRows, duplicates, errors, p.statuses + [status]);
  }

  /** The preview loop. */
  method PreviewImport(kind: Kind, rows: seq<Row>, known: set<Key>) returns (p: Preview)
    ensures p == PreviewOf(kind, rows, known)
  {
    var seen: set<Key> := {};
    var i := 0;
    p := Preview(0, 0, 0, 0, []);
    while i < |rows|
      invariant 0 <= i <= |rows|
      invariant seen == KeysOf(kind, rows[..i])
      invariant p == PreviewOf(kind, rows[..i], known)
    {
      NextPreview(kind, rows, i, known);
      NextKeys(kind, rows, i);
      seen, p := PreviewRow(kind, rows[i], seen, known, p);
      i := i + 1;
    }
    assert rows[..i] == rows;
  }

  // ----- Application -------------------------------------------------------------------------------

  datatype Progress = Progress(table: Table, nextId: Id, seen: set<Key>, created: set<Key>, updated: set<Key>,
                               skipped: nat, crashed: bool)

  function Lookup(table: Table, k: Key): Option<Record> {
    if k in table then Some(table[k]) else None
  }

  /** What a row does: to the counters alone, or to one key. */
  datatype Change =
    | SkipRow
    | SkipKey(key: Key)
    | Retire(key: Key)
    | Crash(key: Key)
    | Create(key: Key, fields: Fields)
    | Recount(key: Key)
    | Update(key: Key, fields: Fields)

  function ChangeOf(p: Progress, kind: Kind, row: Row, options: Options): Change {
    if row.key.None? || row.key.value in p.seen then SkipRow
    else NewKeyChange(kind, row, row.key.value, options, Lookup(p.table, row.key.value))
  }

  /** A key that has not been met before.  An entry that a dictionary already has is
      counted as created all the same. */
  function NewKeyChange(kind: Kind, row: Row, k: Key, options: Options, existing: Option<Record>): Change {
    var known := existing.Some? && kind != Dictionaries;
    if known && options.skipExisting then SkipKey(k)
    else
      match Writer(kind, row, existing, options.now)
      case Rejected => SkipKey(k)
      case Retires => Retire(k)
      case Crashes => Crash(k)
      case Writes(f) => if known then Update(k, f) else if existing.Some? then Recount(k) else Create(k, f)
  }

  function Apply(p: Progress, c: Change): Progress {
    match c
    case SkipRow => p.(skipped := p.skipped + 1)
    case SkipKey(k) => p.(seen := p.seen + {k}, skipped := p.skipped + 1)
    case Retire(k) => p.(seen := p.seen + {k}, skipped := p.skipped + 1, table := p.table - {k})
    case Crash(k) => p.(seen := p.seen + {k}, crashed := true)
    case Create(k, f) =>
      p.(seen := p.seen + {k}, created := p.created + {k}, table := p.table[k := Record(p.nextId, f)],
         nextId := p.nextId + 1)
    case Recount(k) => p.(seen := p.seen + {k}, created := p.created + {k})
    case Update(k, f) =>
      p.(seen := p.seen + {k}, updated := p.updated + {k},
         table := if k in p.table then p.table[k := Record(p.table[k].id, f)] else p.table)
  }

  lemma AppliedSizes(p: Progress, c: Change)
    requires c.SkipRow? || (c.key !in p.created && c.key !in p.updated)
    ensures |Apply(p, c).created| == |p.created| + (if c.Create? || c.Recount? then 1 else 0)
    ensures |Apply(p, c).updated| == |p.updated| + (if c.Update? then 1 else 0)
  {
  }

  function AfterRow(p: Progress, kind: Kind, row: Row, options: Options): Progress {
    if p.crashed then p else Apply(p, ChangeOf(p, kind, row, options))
  }

  function AfterRows(p: Progress, kind: Kind, rows: seq<Row>, options: Options): Progress {
    if rows == [] then p
    else AfterRow(AfterRows(p, kind, rows[..|rows| - 1], options), kind, rows[|rows| - 1], options)
  }

  function Imported(table: Table, nextId: Id, kind: Kind, rows: seq<Row>, options: Options): Progress {
    AfterRows(Progress(table, nextId, {}, {}, {}, 0, false), kind, rows, options)
  }

  /** A phone or company file with an error is refused as a whole. */
  predicate Importable(kind: Kind, rows: seq<Row>, known: set<Key>) {
    kind == Phones || kind == Companies ==> PreviewOf(kind, rows, known).errors == 0
  }

  /** Position of the first row with this key. */
  function FirstIndex(rows: seq<Row>, k: Key): (r: Option<nat>)
    ensures r.Some? ==> r.value < |rows| && rows[r.value].key == Some(k)
                        && forall j :: 0 <= j < r.value ==> rows[j].key != Some(k)
    ensures r.None? ==> forall j :: 0 <= j < |rows| ==> rows[j].key != Some(k)
  {
    if rows == [] then None
    else
      var r := FirstIndex(rows[..|rows| - 1], k);
      if r.None? && rows[|rows| - 1].key == Some(k) then Some(|rows| - 1) else r
  }

  /** In every finished import, created, updated and skipped rows make up the file. */
  ghost predicate AddsUp(p: Progress, rows: seq<Row>) {
    && p.created <= p.seen && p.updated <= p.seen && p.created !! p.updated
    && (!p.crashed ==> |p.created| + |p.updated| + p.skipped == |rows|)
  }

  lemma ChangeIsCounted(p: Progress, c: Change, rows: seq<Row>, row: Row)
    requires AddsUp(p, rows) && !p.crashed && (c.SkipRow? || c.key !in p.seen)
    ensures AddsUp(Apply(p, c), rows + [row])
  {
  }

  /** A change concerns a key that has not been met, and existing records as it should. */
  lemma ChangeFits(p: Progress, kind: Kind, row: Row, options: Options)
    ensures var c := ChangeOf(p, kind, row, options);
            && (c.SkipRow? || (c.key !in p.seen && row.key == Some(c.key)))
            && (c.Create? ==> c.key !in p.table)
            && (c.Recount? ==> kind == Dictionaries)
            && (c.Update? ==> c.key in p.table)
  {
  }

  lemma {:induction false} CountsAddUp(kind: Kind, rows: seq<Row>, options: Options, before: Table, nextId: Id)
    ensures AddsUp(Imported(before, nextId, kind, rows, options), rows)
  {
    if rows != [] {
      var n := |rows| - 1;
      CountsAddUp(kind, rows[..n], options, before, nextId);
      var p := Imported(before, nextId, kind, rows[..n], options);
      ChangeFits(p, kind, rows[n], options);
      if !p.crashed {
        ChangeIsCounted(p, ChangeOf(p, kind, rows[n], options), rows[..n], rows[n]);
        assert rows[..n] + [rows[n]] == rows;
      }
    }
  }

  /** What one key has come to: `row` is the first that has it. */
  ghost predicate Settled(p: Progress, kind: Kind, k: Key, row: Row, options: Options, was: Option<Record>) {
    var w := Writer(kind, row, was, options.now);
    var existed := was.Some? && kind != Dictionaries;
    if existed && options.skipExisting then k !in p.created && k !in p.updated && Lookup(p.table, k) == was
    else if w.Retires? then k !in p.created && k !in p.updated && k !in p.table
    else if w.Writes? && existed then
      && k in p.updated && k !in p.created
      && Lookup(p.table, k) == Some(Record(was.value.id, w.fields))
    else if w.Writes? && was.Some? then k in p.created && k !in p.updated && Lookup(p.table, k) == was
    else if w.Writes? then k in p.created && k !in p.updated && k in p.table && p.table[k].fields == w.fields
    else w.Rejected? && k !in p.created && k !in p.updated && Lookup(p.table, k) == was
  }

  ghost predicate Untouched(p: Progress, k: Key, was: Option<Record>) {
    k !in p.seen && k !in p.created && k !in p.updated && Lookup(p.table, k) == was
  }

  ghost predicate Decided(p: Progress, kind: Kind, rows: seq<Row>, k: Key, options: Options, was: Option<Record>) {
    match FirstIndex(rows, k)
    case None => Untouched(p, k, was)
    case Some(i) => i < |rows| && k in p.seen && Settled(p, kind, k, rows[i], options, was)
  }

  /** Rows with another key leave this one alone. */
  lemma OtherRowKeeps(p: Progress, kind: Kind, row: Row, options: Options, k: Key)
    requires row.key != Some(k) || k in p.seen
    ensures var q := AfterRow(p, kind, row, options);
            && (k in q.created <==> k in p.created) && (k in q.updated <==> k in p.updated)
            && (k in q.seen <==> k in p.seen) && Lookup(q.table, k) == Lookup(p.table, k)
  {
    ChangeFits(p, kind, row, options);
  }

  lemma FirstRowSettles(p: Progress, kind: Kind, row: Row, options: Options, k: Key, was: Option<Record>)
    requires !p.crashed && row.key == Some(k) && Untouched(p, k, was)
    requires !AfterRow(p, kind, row, options).crashed
    ensures k in AfterRow(p, kind, row, options).seen
    ensures Settled(AfterRow(p, kind, row, options), kind, k, row, options, was)
  {
  }

  /** The first row with a key alone decides whether its record is created, updated or
      left, and what it holds; keys not in the file are untouched. */
  lemma {:induction false} FirstRowDecides(kind: Kind, rows: seq<Row>, options: Options, before: Table, nextId: Id,
                                          k: Key)
    requires !Imported(before, nextId, kind, rows, options).crashed
    ensures Decided(Imported(before, nextId, kind, rows, options), kind, rows, k, options, Lookup(before, k))
  {
    if rows != [] {
      var n := |rows| - 1;
      var p := Imported(before, nextId, kind, rows[..n], options);
      FirstRowDecides(kind, rows[..n], options, before, nextId, k);
      if FirstIndex(rows[..n], k).None? && rows[n].key == Some(k) {
        FirstRowSettles(p, kind, rows[n], options, k, Lookup(before, k));
      } else {
        OtherRowKeeps(p, kind, rows[n], options, k);
      }
    }
  }

  /** Ids: created records have ids of their own, from `nextId` on. */
  ghost predicate IdsFresh(p: Progress, nextId: Id) {
    && nextId <= p.nextId
    && (forall k :: k in p.created ==> k in p.table && nextId <= p.table[k].id < p.nextId)
    && (forall k, l :: k in p.created && l in p.created && k != l ==> p.table[k].id != p.table[l].id)
  }

  lemma ChangeKeepsIdsFresh(p: Progress, c: Change, nextId: Id)
    requires IdsFresh(p, nextId) && p.created <= p.seen
    requires (c.SkipRow? || c.key !in p.seen) && !c.Recount?
    ensures IdsFresh(Apply(p, c), nextId)
  {
  }

  lemma {:induction false} CreatedIdsAreFresh(kind: Kind, rows: seq<Row>, options: Options, before: Table, nextId: Id)
    requires kind != Dictionaries
    ensures IdsFresh(Imported(before, nextId, kind, rows, options), nextId)
  {
    if rows != [] {
      var n := |rows| - 1;
      var p := Imported(before, nextId, kind, rows[..n], options);
      CreatedIdsAreFresh(kind, rows[..n], options, before, nextId);
      CountsAddUp(kind, rows[..n], options, before, nextId);
      ChangeFits(p, kind, rows[n], options);
      ChangeKeepsIdsFresh(p, ChangeOf(p, kind, rows[n], options), nextId);
    }
  }

  // ----- Created as previewed -----------------------------------------------------------------------

  lemma {:induction false} TallyZero(statuses: seq<Status>, s: Status, i: nat)
    requires Tally(statuses, s) == 0 && i < |statuses|
    ensures statuses[i] != s
  {
    if i < |statuses| - 1 {
      TallyZero(statuses[..|statuses| - 1], s, i);
    }
  }

  /** Every row with a key is readable. */
  ghost predicate AllReadable(kind: Kind, rows: seq<Row>) {
    forall j :: 0 <= j < |rows| && rows[j].key.Some? ==> Readable(kind, rows[j])
  }

  lemma ImportableReadable(kind: Kind, rows: seq<Row>, known: set<Key>)
    requires Importable(kind, rows, known)
    ensures AllReadable(kind, rows)
  {
    forall i | 0 <= i < |rows| && rows[i].key.Some? ensures Readable(kind, rows[i]) {
      if kind == Phones || kind == Companies {
        TallyZero(Statuses(kind, rows, known), Erroneous, i);
      }
    }
  }

  /** The rows previewed as `create`: the first with a key that is not known yet. */
  lemma PreviewedCreateIff(kind: Kind, rows: seq<Row>, known: set<Key>, i: nat)
    requires i < |rows| && AllReadable(kind, rows)
    ensures StatusOf(kind, rows, i, known) == WillCreate <==>
            rows[i].key.Some? && rows[i].key.value !in known && FirstIndex(rows, rows[i].key.value) == Some(i)
  {
  }

  /** No row is refused by its writer. */
  ghost predicate NoneRejected(kind: Kind, rows: seq<Row>, before: Table, options: Options) {
    forall j :: 0 <= j < |rows| && rows[j].key.Some? ==>
      !Writer(kind, rows[j], Lookup(before, rows[j].key.value), options.now).Rejected?
  }

  /** A row is previewed as `create` exactly when it is the first with its key and that
      key ends up among the created ones. */
  lemma CreatedAsPreviewed(kind: Kind, rows: seq<Row>, options: Options, before: Table, nextId: Id, i: nat)
    requires i < |rows| && rows[i].key.Some? && Importable(kind, rows, Known(kind, before))
    requires !Imported(before, nextId, kind, rows, options).crashed && NoneRejected(kind, rows, before, options)
    ensures StatusOf(kind, rows, i, Known(kind, before)) == WillCreate <==>
            FirstIndex(rows, rows[i].key.value) == Some(i)
            && rows[i].key.value in Imported(before, nextId, kind, rows, options).created
  {
    ImportableReadable(kind, rows, Known(kind, before));
    PreviewedCreateIff(kind, rows, Known(kind, before), i);
    FirstRowDecides(kind, rows, options, before, nextId, rows[i].key.value);
  }

  /** Without rejections, a row creates a record exactly when its key is new to the
      file and to the table. */
  ghost predicate Creates(p: Progress, kind: Kind, row: Row) {
    row.key.Some? && row.key.value !in p.seen && row.key.value !in Known(kind, p.table)
  }

  ghost predicate Willing(p: Progress, kind: Kind, row: Row, options: Options) {
    row.key.Some? && row.key.value !in p.seen ==>
      !Writer(kind, row, Lookup(p.table, row.key.value), options.now).Rejected?
  }

  lemma ChangeCreates(p: Progress, kind: Kind, row: Row, options: Options)
    requires Willing(p, kind, row, options)
    requires !ChangeOf(p, kind, row, options).Crash?
    ensures var c := ChangeOf(p, kind, row, options);
            (c.Create? || c.Recount? <==> Creates(p, kind, row)) && (c.SkipRow? || c.key !in p.seen)
  {
  }

  lemma CreatedGrows(p: Progress, c: Change)
    requires p.created <= p.seen && (c.SkipRow? || c.key !in p.seen)
    ensures |Apply(p, c).created| == |p.created| + (if c.Create? || c.Recount? then 1 else 0)
  {
  }

  lemma RowCreates(p: Progress, kind: Kind, row: Row, options: Options)
    requires p.created <= p.seen && !AfterRow(p, kind, row, options).crashed
    requires Willing(p, kind, row, options)
    ensures |AfterRow(p, kind, row, options).created| == |p.created| + (if Creates(p, kind, row) then 1 else 0)
  {
    ChangeCreates(p, kind, row, options);
    CreatedGrows(p, ChangeOf(p, kind, row, options));
  }

  lemma WillingRow(kind: Kind, rows: seq<Row>, options: Options, before: Table, nextId: Id)
    requires rows != [] && NoneRejected(kind, rows, before, options)
    requires !Imported(before, nextId, kind, rows[..|rows| - 1], options).crashed
    ensures Willing(Imported(before, nextId, kind, rows[..|rows| - 1], options), kind, rows[|rows| - 1], options)
  {
    var n := |rows| - 1;
    if rows[n].key.Some? {
      FirstRowDecides(kind, rows[..n], options, before, nextId, rows[n].key.value);
    }
  }

  /** The last row of a file creates a record exactly when it was announced as new. */
  lemma CreatesIffAnnounced(kind: Kind, rows: seq<Row>, options: Options, before: Table, nextId: Id)
    requires rows != [] && AllReadable(kind, rows)
    requires !Imported(before, nextId, kind, rows[..|rows| - 1], options).crashed
    ensures Creates(Imported(before, nextId, kind, rows[..|rows| - 1], options), kind, rows[|rows| - 1]) <==>
            StatusOf(kind, rows, |rows| - 1, Known(kind, before)) == WillCreate
  {
    var n := |rows| - 1;
    PreviewedCreateIff(kind, rows, Known(kind, before), n);
    if rows[n].key.Some? {
      FirstRowDecides(kind, rows[..n], options, before, nextId, rows[n].key.value);
    }
  }

  lemma {:induction false} AsManyCreated(kind: Kind, rows: seq<Row>, options: Options, before: Table, nextId: Id)
    requires AllReadable(kind, rows) && NoneRejected(kind, rows, before, options)
    requires !Imported(before, nextId, kind, rows, options).crashed
    ensures |Imported(before, nextId, kind, rows, options).created| ==
            PreviewOf(kind, rows, Known(kind, before)).newRows
  {
    var known := Known(kind, before);
    if rows == [] {
      assert Statuses(kind, rows, known) == [];
    } else {
      var n := |rows| - 1;
      assert rows[..n + 1] == rows;
      AsManyCreated(kind, rows[..n], options, before, nextId);
      CountsAddUp(kind, rows[..n], options, before, nextId);
      WillingRow(kind, rows, options, before, nextId);
      RowCreates(Imported(before, nextId, kind, rows[..n], options), kind, rows[n], options);
      CreatesIffAnnounced(kind, rows, options, before, nextId);
      NextPreview(kind, rows, n, known);
    }
  }

  /** As many records are created as rows were announced as new, with or without
      updating of the known ones. */
  lemma AsManyCreatedAsPreviewed(kind: Kind, rows: seq<Row>, options: Options, before: Table, nextId: Id)
    requires Importable(kind, rows, Known(kind, before)) && NoneRejected(kind, rows, before, options)
    requires !Imported(before, nextId, kind, rows, options).crashed
    ensures |Imported(before, nextId, kind, rows, options).created| ==
            PreviewOf(kind, rows, Known(kind, before)).newRows
  {
    ImportableReadable(kind, rows, Known(kind, before));
    AsManyCreated(kind, rows, options, before, nextId);
  }

  // ----- Importing the same file again ---------------------------------------------------------------

  /** What a second import does to a record: it fills in a missing assignment. */
  function Filled(f: Fields): Fields {
    if f.PhoneFields? && f.phone.assignment.None?
    then PhoneFields(f.phone.(assignment := Some(OTHER_ASSIGNMENT))) else f
  }

  /** A campaign or route row writes over its own result without effect; a phone row
      fills in the assignment that it leaves open when it creates a phone. */
  lemma WritingAgain(kind: Kind, row: Row, was: Option<Record>, id: Id, first: int, second: int)
    requires kind != Tariffs && Writer(kind, row, was, first).Writes?
    ensures var f := Writer(kind, row, was, first).fields;
            Writer(kind, row, Some(Record(id, f)), second) == Writes(if kind == Phones then Filled(f) else f)
  {
  }

  /** The phones that an import has created without an assignment. */
  ghost predicate Open(p: Progress, kind: Kind, k: Key) {
    && kind == Phones && k in p.created && k in p.table
    && p.table[k].fields.PhoneFields? && p.table[k].fields.phone.assignment.None?
  }

  ghost predicate SameMode(a: Options, b: Options) {
    a.skipExisting == b.skipExisting
  }

  /** What becomes of a record when the row that decided it comes again. */
  ghost predicate Again(c: Change, was: Option<Record>, open: bool) {
    match c
    case SkipKey(_) => !open
    case Recount(_) => !open
    case Update(_, f) => was.Some? && f == Filled(was.value.fields) && (f != was.value.fields <==> open)
    case _ => false
  }

  lemma SecondWrite(kind: Kind, rows: seq<Row>, options: Options, again: Options, before: Table, nextId: Id, k: Key)
    requires kind != Tariffs && SameMode(options, again) && FirstIndex(rows, k).Some?
    requires !Imported(before, nextId, kind, rows, options).crashed
    ensures var once := Imported(before, nextId, kind, rows, options);
            var was := Lookup(once.table, k);
            Again(NewKeyChange(kind, rows[FirstIndex(rows, k).value], k, again, was), was,
                  Open(once, kind, k) && !options.skipExisting)
  {
    FirstRowDecides(kind, rows, options, before, nextId, k);
    var row := rows[FirstIndex(rows, k).value];
    var p := Imported(before, nextId, kind, rows, options);
    if Writer(kind, row, Lookup(before, k), options.now).Writes? && k in p.table {
      WritingAgain(kind, row, Lookup(before, k), p.table[k].id, options.now, again.now);
    }
  }

  lemma {:induction false} SecondImport(kind: Kind, rows: seq<Row>, m: nat, options: Options, again: Options,
                                       before: Table, nextId: Id)
    requires kind != Tariffs && SameMode(options, again) && m <= |rows|
    requires !Imported(before, nextId, kind, rows, options).crashed
    ensures var once := Imported(before, nextId, kind, rows, options);
            var twice := Imported(once.table, once.nextId, kind, rows[..m], again);
            !twice.crashed && (kind != Dictionaries ==> twice.created == {})
  {
    if m > 0 {
      var once := Imported(before, nextId, kind, rows, options);
      SecondImport(kind, rows, m - 1, options, again, before, nextId);
      assert rows[..m][..m - 1] == rows[..m - 1];
      var key := rows[m - 1].key;
      if key.Some? {
        FirstRowDecides(kind, rows[..m - 1], again, once.table, once.nextId, key.value);
        FirstInPrefix(rows, m - 1, key.value);
        SecondWrite(kind, rows, options, again, before, nextId, key.value);
      }
      HarmlessRow(Imported(once.table, once.nextId, kind, rows[..m - 1], again), kind, rows[m - 1], again);
    }
  }

  ghost predicate Harmless(c: Change) {
    c.SkipKey? || c.Recount? || c.Update?
  }

  lemma HarmlessRow(p: Progress, kind: Kind, row: Row, options: Options)
    requires !p.crashed
    requires row.key.Some? && row.key.value !in p.seen ==>
               Harmless(NewKeyChange(kind, row, row.key.value, options, Lookup(p.table, row.key.value)))
    ensures var q := AfterRow(p, kind, row, options);
            !q.crashed && (kind != Dictionaries ==> q.created == p.created)
  {
  }

  lemma FirstInPrefix(rows: seq<Row>, m: nat, k: Key)
    requires m < |rows| && rows[m].key == Some(k)
    ensures FirstIndex(rows, k) == (if FirstIndex(rows[..m], k).Some? then FirstIndex(rows[..m], k) else Some(m))
  {
  }

  /** Importing a file again cannot fail and creates nothing.  It leaves every record as
      it is, but for the phones it had created without an assignment: these become
      "other", unless known records are skipped. */
  lemma SecondImportFills(kind: Kind, rows: seq<Row>, options: Options, again: Options,
                          before: Table, nextId: Id, k: Key)
    requires kind != Tariffs && SameMode(options, again)
    requires !Imported(before, nextId, kind, rows, options).crashed
    ensures var once := Imported(before, nextId, kind, rows, options);
            var twice := Imported(once.table, once.nextId, kind, rows, again);
            var was := Lookup(once.table, k);
            && !twice.crashed && (kind != Dictionaries ==> twice.created == {})
            && Lookup(twice.table, k) == (if Open(once, kind, k) && !options.skipExisting
                                          then Some(Record(was.value.id, Filled(was.value.fields))) else was)
  {
    assert rows[..|rows|] == rows;
    SecondImport(kind, rows, |rows|, options, again, before, nextId);
    var once := Imported(before, nextId, kind, rows, options);
    FirstRowDecides(kind, rows, options, before, nextId, k);
    FirstRowDecides(kind, rows, again, once.table, once.nextId, k);
    if FirstIndex(rows, k).Some? {
      SecondWrite(kind, rows, options, again, before, nextId, k);
    }
  }

  /** The file brings a new number whose first row can be read and has no assignment. */
  ghost predicate LeavesOpen(kind: Kind, rows: seq<Row>, before: Table, k: Key) {
    var i := FirstIndex(rows, k);
    && kind == Phones && k !in before && i.Some? && i.value < |rows|
    && rows[i.value].checks && rows[i.value].phone.assignment.None?
  }

  /** So a second import changes nothing exactly when known records are skipped or no
      phone row leaves the assignment of a new number open. */
  lemma SecondImportChangesNothingIff(kind: Kind, rows: seq<Row>, options: Options, again: Options, before: Table,
                                      nextId: Id)
    requires kind != Tariffs && SameMode(options, again)
    requires !Imported(before, nextId, kind, rows, options).crashed
    ensures var once := Imported(before, nextId, kind, rows, options);
            Imported(once.table, once.nextId, kind, rows, again).table == once.table <==>
            options.skipExisting || forall k :: !LeavesOpen(kind, rows, before, k)
  {
    var once := Imported(before, nextId, kind, rows, options);
    var twice := Imported(once.table, once.nextId, kind, rows, again);
    forall k ensures Lookup(twice.table, k) == Lookup(once.table, k) <==>
                     options.skipExisting || !LeavesOpen(kind, rows, before, k) {
      SecondImportFills(kind, rows, options, again, before, nextId, k);
      OpenIff(kind, rows, options, before, nextId, k);
    }
    SameLookups(twice.table, once.table);
  }

  lemma SameLookups(a: Table, b: Table)
    ensures a == b <==> forall k :: Lookup(a, k) == Lookup(b, k)
  {
    if forall k :: Lookup(a, k) == Lookup(b, k) {
      forall k ensures (k in a <==> k in b) && (k in a ==> a[k] == b[k]) {
        assert Lookup(a, k) == Lookup(b, k);
      }
    }
  }

  lemma OpenIff(kind: Kind, rows: seq<Row>, options: Options, before: Table, nextId: Id, k: Key)
    requires !Imported(before, nextId, kind, rows, options).crashed
    ensures Open(Imported(before, nextId, kind, rows, options), kind, k) <==> LeavesOpen(kind, rows, before, k)
  {
    FirstRowDecides(kind, rows, options, before, nextId, k);
  }

  /** A phone file with one new number and a blank assignment is such a file. */
  lemma SecondImportCanChange(row: Row, before: Table, nextId: Id, now: int)
    requires row.key.Some? && row.key.value !in before && row.checks
    requires row.phone.storable && row.phone.dateStorable && row.phone.assignment.None?
    ensures var options := Options(false, now);
            var once := Imported(before, nextId, Phones, [row], options);
            var twice := Imported(once.table, once.nextId, Phones, [row], options);
            && !once.crashed && !twice.crashed
            && Assigned(once, row.key.value, None) && Assigned(twice, row.key.value, Some(OTHER_ASSIGNMENT))
  {
    var options, k := Options(false, now), row.key.value;
    var start := Imported(before, nextId, Phones, [], options);
    assert [row][..0] == [] && [row][0] == row;
    assert Imported(before, nextId, Phones, [row], options) == AfterRow(start, Phones, row, options);
    SecondImportFills(Phones, [row], options, options, before, nextId, k);
  }

  ghost predicate Assigned(p: Progress, k: Key, assignment: Option<string>) {
    k in p.table && p.table[k].fields.PhoneFields? && p.table[k].fields.phone.assignment == assignment
  }

  // ----- The section in the database ---------------------------------------------------------------

  datatype Reply = Finished(created: nat, updated: nat, skipped: nat) | PreviewHasErrors | DatabaseError

  /** A section of the database with the counters of the import at work on it. */
  class Section {
    var table: Table
    var nextId: Id
    var seen: set<Key>
    var created: nat
    var updated: nat
    var skipped: nat

    constructor ()
      ensures table == map[] && nextId == 1
    {
      table, nextId := map[], 1;
      seen, created, updated, skipped := {}, 0, 0, 0;
    }

    ghost predicate Shows(p: Progress)
      reads this
    {
      && table == p.table && nextId == p.nextId && seen == p.seen
      && created == |p.created| && updated == |p.updated| && skipped == p.skipped
    }

    method ApplyChange(c: Change, ghost p: Progress) returns (crashed: bool)
      requires Shows(p) && !p.crashed
      requires c.SkipRow? || (c.key !in p.created && c.key !in p.updated)
      requires c.Update? ==> c.key in table
      modifies this
      ensures Shows(Apply(p, c)) && crashed == Apply(p, c).crashed
    {
      AppliedSizes(p, c);
      crashed := c.Crash?;
      if !c.SkipRow? {
        seen := seen + {c.key};
      }
      match c {
        case SkipRow | SkipKey(_) =>
          skipped := skipped + 1;
        case Retire(k) =>
          table := table - {k};
          skipped := skipped + 1;
        case Crash(_) =>
        case Create(k, f) =>
          table := table[k := Record(nextId, f)];
          nextId := nextId + 1;
          created := created + 1;
        case Recount(_) =>
          created := created + 1;
        case Update(k, f) =>
          table := table[k := Record(table[k].id, f)];
          updated := updated + 1;
      }
    }

    method ApplyRow(kind: Kind, row: Row, options: Options, ghost p: Progress) returns (crashed: bool)
      requires Shows(p) && p.created <= p.seen && p.updated <= p.seen && !p.crashed
      modifies this
      ensures Shows(AfterRow(p, kind, row, options))
      ensures crashed == AfterRow(p, kind, row, options).crashed
    {
      ChangeFits(p, kind, row, options);
      var c := SkipRow;
      if row.key.Some? && row.key.value !in seen {
        c := NewKeyChange(kind, row, row.key.value, options, Lookup(table, row.key.value));
      }
      crashed := ApplyChange(c, p);
    }

    /** Rows written before a database error stay, since every writer commits. */
    method ApplyImport(kind: Kind, rows: seq<Row>, options: Options) returns (r: Reply)
      modifies this
      ensures r.PreviewHasErrors? <==> !Importable(kind, rows, Known(kind, old(table)))
      ensures r.PreviewHasErrors? ==> table == old(table) && nextId == old(nextId)
      ensures !r.PreviewHasErrors? ==>
                var p := Imported(old(table), old(nextId), kind, rows, options);
                && table == p.table && nextId == p.nextId
                && r == if p.crashed then DatabaseError else Finished(|p.created|, |p.updated|, p.skipped)
    {
      var preview := PreviewImport(kind, rows, Known(kind, table));
      if (kind == Phones || kind == Companies) && preview.errors > 0 {
        return PreviewHasErrors;
      }
      ghost var table0, nextId0 := table, nextId;
      ghost var p := Imported(table0, nextId0, kind, [], options);
      seen, created, updated, skipped := {}, 0, 0, 0;
      var i := 0;
      while i < |rows|
        invariant 0 <= i <= |rows|
        invariant p == Imported(table0, nextId0, kind, rows[..i], options)
        invariant !p.crashed && Shows(p)
      {
        CountsAddUp(kind, rows[..i], options, table0, nextId0);
        NextImported(table0, nextId0, kind, rows, i, options);
        var crashed := ApplyRow(kind, rows[i], options, p);
        i := i + 1;
        p := Imported(table0, nextId0, kind, rows[..i], options);
        if crashed {
          CrashEnds(table0, nextId0, kind, rows, i, options);
          return DatabaseError;
        }
      }
      assert rows[..i] == rows;
      return Finished(created, updated, skipped);
    }
  }

  lemma NextImported(before: Table, nextId: Id, kind: Kind, rows: seq<Row>, i: nat, options: Options)
    requires i < |rows|
    ensures Imported(before, nextId, kind, rows[..i + 1], options) ==
            AfterRow(Imported(before, nextId, kind, rows[..i], options), kind, rows[i], options)
  {
    assert rows[..i + 1][..i] == rows[..i];
  }

  /** After a crash the remaining rows are not applied. */
  lemma {:induction false} CrashEnds(before: Table, nextId: Id, kind: Kind, rows: seq<Row>, i: nat, options: Options)
    requires i <= |rows| && Imported(before, nextId, kind, rows[..i], options).crashed
    ensures Imported(before, nextId, kind, rows, options) == Imported(before, nextId, kind, rows[..i], options)
  {
    if i == |rows| {
      assert rows[..i] == rows;
    } else {
      assert rows[..|rows| - 1][..i] == rows[..i];
      CrashEnds(before, nextId, kind, rows[..|rows| - 1], i, options);
    }
  }
}
