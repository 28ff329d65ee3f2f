/** What the import writers store, column by column, and what the preview's statuses and
    counters say. */
module ImporterMeaning {
  import opened Common
  import opened Importer

  // ----- Routes -------------------------------------------------------------------------------

  /** A text column of the file: absent, it leaves what was there; blank, it empties. */
  predicate TextStored(c: Column, was: Option<string>, now: Option<string>) {
    && (c == Absent ==> now == was) && (c == Present("") ==> now == None)
    && (c.Present? && c.text != "" ==> now == Some(c.text))
  }

  predicate MeansNoPrefix(s: string) {
    s in {"", "без префикса", "no prefix", "—", "-"}
  }

  /** A prefix that is given and has something else than digits. */
  predicate NoNumber(c: Column) {
    c.Present? && !MeansNoPrefix(c.text) && exists i :: 0 <= i < |c.text| && !('0' <= c.text[i] <= '9')
  }

  predicate Given(c: Column) {
    c.Present? && c.text != ""
  }

  /** The route that is stored: its source is taken from the file, otherwise kept; a new
      route without one, and an old one that still says "other" when the file has neither
      source column, take the source inferred from the line. */
  predicate RouteStored(was: Option<Fields>, r: RouteColumns, now: Fields)
    requires was.Some? ==> was.value.RouteFields?
  {
    var kept := was.Some?;
    var guessed := if kept
                   then r.cliType.Absent? && r.cliLabel.Absent? && was.value.cliType == "other"
                        && ReadsOther(was.value.cliLabel) && r.inferredType != "other"
                   else true;
    && now.RouteFields? && r.provider == Some(now.provider)
    && (r.prefix.Absent? ==> now.prefix == if kept then was.value.prefix else None)
    && (r.prefix.Present? ==> now.prefix == if MeansNoPrefix(r.prefix.text) then None else Some(r.prefix.text))
    && TextStored(r.project, if kept then was.value.project else None, now.project)
    && TextStored(r.comment, if kept then was.value.comment else None, now.comment)
    && (Given(r.cliType) ==> now.cliType == r.cliType.text)
    && (Given(r.cliLabel) ==> now.cliLabel == r.cliLabel.text)
    && (guessed && !Given(r.cliType) ==> now.cliType == r.inferredType)
    && (guessed && !Given(r.cliLabel) ==> now.cliLabel == r.inferredLabel)
    && (!guessed && !Given(r.cliType) ==> now.cliType == was.value.cliType)
    && (!guessed && !Given(r.cliLabel) ==> now.cliLabel == was.value.cliLabel)
  }

  /** A route row is refused without a provider or with a prefix that is no number, and stops
      the import when its source is none of the five that the database knows. */
  lemma RouteWriteMeans(row: Row, existing: Option<Record>)
    requires existing.Some? ==> existing.value.fields.RouteFields?
    ensures var r := row.route; var w := WriteRoute(row, existing);
            var was := if existing.Some? then Some(existing.value.fields) else None;
            && (w.Rejected? <==> r.provider.None? || NoNumber(r.prefix))
            && (w.Writes? ==> RouteStored(was, r, w.fields)
                              && w.fields.cliType in {"rnd", "pool", "sim", "single_number", "other"})
            && (w.Crashes? ==> exists f :: RouteStored(was, r, f)
                                           && f.cliType !in {"rnd", "pool", "sim", "single_number", "other"})
            && !w.Retires?
  {
    var was := if existing.Some? then Some(existing.value.fields) else None;
    if row.route.provider.Some? {
      var f := if existing.Some? then MergedRoute(existing.value.fields, row.route) else NewRoute(row.route);
      assert RouteStored(was, row.route, f);
    }
  }

  // ----- Phones ---------------------------------------------------------------------------------

  /** A new phone: unused unless active, and under review unless provider, project and
      assignment are all given and nothing asks for a review. */
  predicate PhoneCreated(c: PhoneColumns, now: int, p: Phone) {
    && p.provider == c.provider && p.project == c.project && p.assignment == c.assignment && p.active == c.active
    && p.creator == c.creator && p.plain == c.plain && !p.linked
    && p.use == (if c.active then c.use else Unused)
    && (p.problematic <==> c.problematic)
    && (p.review <==> c.provider == None || c.project == None || c.assignment == None || c.review || c.problematic)
    && (c.active ==> p.deactivatedAt == None)
    && (!c.active ==> p.deactivatedAt == Some(if c.createdAt.Some? then c.createdAt.value else now))
  }

  /** An updated phone: problems, reviews, the importer and the date of deactivation are not
      lost, a missing assignment becomes "other", a problematic active linked phone stays in
      use, and one not in use has no link. */
  predicate PhoneMerged(was: Phone, c: PhoneColumns, now: int, p: Phone) {
    && p.provider == c.provider && p.project == c.project && p.active == c.active && p.plain == c.plain
    && p.assignment == Some(if c.assignment.Some? then c.assignment.value else "other")
    && (p.problematic <==> c.problematic || was.problematic)
    && p.use == (if !c.active then Unused else if p.problematic && was.linked then Used else c.use)
    && (p.review <==> c.provider == None || c.project == None || c.assignment == None || c.review || was.review
                      || (c.active && !was.active) || p.problematic)
    && p.creator == (if c.creator.Some? then c.creator else was.creator)
    && p.deactivatedAt == (if c.active || was.deactivatedAt.Some? then was.deactivatedAt else Some(now))
    && (p.linked <==> was.linked && p.use == Used)
  }

  /** A phone row is refused when its references cannot be read, and an update also when it
      would leave a phone without provider and review; amounts and dates that the database
      cannot hold stop the import. */
  lemma PhoneWriteMeans(row: Row, existing: Option<Record>, now: int)
    requires existing.Some? ==> existing.value.fields.PhoneFields?
    ensures var c := row.phone; var w := WritePhone(row, existing, now);
            && (existing.None? ==>
                  && (w.Rejected? <==> !row.checks)
                  && (w.Writes? <==> row.checks && c.storable && c.dateStorable)
                  && (w.Writes? ==> w.fields.PhoneFields? && PhoneCreated(c, now, w.fields.phone)))
            && (existing.Some? ==>
                  && (w.Writes? ==> w.fields.PhoneFields?
                                    && PhoneMerged(existing.value.fields.phone, c, now, w.fields.phone))
                  && (w.Crashes? ==> !c.storable) && (w.Writes? ==> c.storable)
                  && (!row.checks ==> w.Rejected?))
            && !w.Retires?
  {
  }

  /** The check on the provider never refuses an update, because a missing provider asks for
      a review itself. */
  lemma ProviderCheckIsIdle(row: Row, existing: Record, now: int)
    requires existing.fields.PhoneFields?
    ensures WritePhone(row, Some(existing), now).Rejected? <==> !row.checks
  {
  }

  // ----- Campaigns --------------------------------------------------------------------------------

  /** A column that is given is stored; one that is not leaves what was there. */
  predicate ColumnStored<T(==)>(c: Option<T>, was: T, now: T) {
    now == match c case Some(v) => v case None => was
  }

  const FRESH := Company("", None, "", false, true, 0, 0, 0, None)

  predicate CompanyStored(was: Company, c: CompanyColumns, now: Company) {
    && now.server == c.server && now.name == c.name
    && ColumnStored(c.country, was.country, now.country) && ColumnStored(c.auto, was.auto, now.auto)
    && ColumnStored(c.active, was.active, now.active) && ColumnStored(c.lines, was.lines, now.lines)
    && ColumnStored(c.dialSets, was.dialSets, now.dialSets)
    && ColumnStored(c.retrySeconds, was.retrySeconds, now.retrySeconds)
    && TextStored(c.comment, was.comment, now.comment)
  }

  /** A campaign row that can be read is stored over the existing campaign, or over one that
      is active, without autorotation and with zeros. */
  lemma CompanyWriteMeans(row: Row, existing: Option<Record>)
    requires existing.Some? ==> existing.value.fields.CompanyFields?
    ensures var w := WriteCompany(row, existing);
            && (w.Rejected? <==> !row.checks) && (w.Writes? <==> row.checks)
            && (w.Writes? ==>
                  && w.fields.CompanyFields?
                  && CompanyStored(if existing.Some? then existing.value.fields.company else FRESH, row.company,
                                   w.fields.company))
  {
  }

  // ----- The preview ----------------------------------------------------------------------------------

  /** A row whose key can be worked out, and for phones and campaigns also its references. */
  predicate CanBeRead(kind: Kind, row: Row) {
    row.key.Some? && (kind == Phones || kind == Companies ==> row.checks)
  }

  ghost predicate RepeatsEarlier(kind: Kind, rows: seq<Row>, i: nat)
    requires i < |rows|
  {
    exists j :: 0 <= j < i && CanBeRead(kind, rows[j]) && rows[j].key == rows[i].key
  }

  /** The status of a row: an error, a repetition, an update of a known key, or new. */
  ghost predicate StatusSays(kind: Kind, rows: seq<Row>, i: nat, known: set<Key>, s: Status)
    requires i < |rows|
  {
    var first := CanBeRead(kind, rows[i]) && !RepeatsEarlier(kind, rows, i);
    && (s == Erroneous <==> !CanBeRead(kind, rows[i]))
    && (s == DuplicateInFile <==> CanBeRead(kind, rows[i]) && RepeatsEarlier(kind, rows, i))
    && (s == WillUpdate <==> first && rows[i].key.value in known)
    && (s == WillCreate <==> first && rows[i].key.value !in known)
  }

  lemma StatusMeans(kind: Kind, rows: seq<Row>, i: nat, known: set<Key>)
    requires i < |rows|
    ensures StatusSays(kind, rows, i, known, StatusOf(kind, rows, i, known))
  {
    if CanBeRead(kind, rows[i]) {
      var k := rows[i].key.value;
      if RepeatsEarlier(kind, rows, i) {
        var j :| 0 <= j < i && CanBeRead(kind, rows[j]) && rows[j].key == rows[i].key;
        assert rows[..i][j] == rows[j];
        assert k in KeysOf(kind, rows[..i]);
      }
      if k in KeysOf(kind, rows[..i]) {
        var j :| 0 <= j < i && Readable(kind, rows[..i][j]) && rows[..i][j].key.value == k;
        assert rows[..i][j] == rows[j];
      }
    }
  }

  lemma {:induction false} TallyIsCount(statuses: seq<Status>, s: Status, p: Status -> bool)
    requires forall x :: p(x) <==> x == s
    ensures Tally(statuses, s) == |Positions(statuses, p)|
  {
    if statuses != [] {
      TallyIsCount(statuses[..|statuses| - 1], s, p);
      OneMorePosition(statuses, p);
    }
  }

  lemma TallyCounts(statuses: seq<Status>, s: Status)
    ensures Tally(statuses, s) == |(set i | 0 <= i < |statuses| && statuses[i] == s)|
  {
    var p := (x: Status) => x == s;
    TallyIsCount(statuses, s, p);
    assert Positions(statuses, p) == set i | 0 <= i < |statuses| && statuses[i] == s;
  }

  /** The counters count statuses: a repeated phone number is a duplicate and an error. */
  ghost predicate PreviewSays(kind: Kind, rows: seq<Row>, known: set<Key>, p: Preview) {
    && p.total == |rows| == |p.statuses|
    && (forall i :: 0 <= i < |rows| ==> StatusSays(kind, rows, i, known, p.statuses[i]))
    && var repeated := |(set i | 0 <= i < |rows| && p.statuses[i] == DuplicateInFile)|;
    && p.newRows == |(set i | 0 <= i < |rows| && p.statuses[i] == WillCreate)|
    && p.duplicates == repeated + |(set i | 0 <= i < |rows| && p.statuses[i] == WillUpdate)|
    && p.errors == |(set i | 0 <= i < |rows| && p.statuses[i] == Erroneous)| + (if kind == Phones then repeated else 0)
  }

  lemma PreviewMeans(kind: Kind, rows: seq<Row>, known: set<Key>)
    ensures PreviewSays(kind, rows, known, PreviewOf(kind, rows, known))
  {
    var p := PreviewOf(kind, rows, known);
    forall i | 0 <= i < |rows| ensures StatusSays(kind, rows, i, known, p.statuses[i]) {
      StatusMeans(kind, rows, i, known);
    }
    TallyCounts(p.statuses, WillCreate);
    TallyCounts(p.statuses, WillUpdate);
    TallyCounts(p.statuses, DuplicateInFile);
    TallyCounts(p.statuses, Erroneous);
  }
}
