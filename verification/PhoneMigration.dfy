/** Migrating phones and route links out of the legacy database.

    Rows are converted one by one; a row that violates a constraint of the new
    schema aborts the migration.  Two reconciliation updates then make the links
    agree with the phones they belong to. */
module PhoneMigration {
  import opened Common
  import opened PhoneLinks
  import opened PhoneLinkProofs
  import opened PhoneMeaning

  /** A legacy row; `status` is the lower-case text, `problematic` is absent when the
      legacy table has no such column. */
  datatype LegacyPhone = LegacyPhone(number: string, provider: Option<Id>, status: string, active: bool,
                                     review: bool, problematic: Option<bool>, deactivatedAt: Option<int>)

  function LegacyStatus(row: LegacyPhone): Status {
    if row.status == "free" || row.status == "reserved" then Unused
    else if LegacyProblem(row.status) then (if row.active then Unknown else Unused)
    else if row.status == "used" then Used
    else if row.status == "unused" then Unused
    else Unknown
  }

  function Converted(row: LegacyPhone): Phone {
    Phone(row.number, row.provider, LegacyStatus(row), row.active,
          row.review || LegacyProblem(row.status),
          if row.problematic.Some? then row.problematic.value else LegacyProblem(row.status),
          row.deactivatedAt)
  }

  /** The constraints of the new phone table. */
  predicate Insertable(phones: seq<Phone>, p: Phone) {
    ValidNumber(p.number) && (p.problematic ==> p.review) && !NumberTaken(phones, p.number, -1)
  }

  /** The constraints of the new link table: the phone exists, and a pair has at
      most one active link. */
  predicate LinkInsertable(phones: seq<Phone>, links: seq<Link>, l: Link) {
    l.phone < |phones| && (l.active ==> !Linked(links, l.route, l.phone))
  }

  predicate AllInsertable(rows: seq<LegacyPhone>) {
    rows != [] ==>
      var n := |rows| - 1;
      AllInsertable(rows[..n]) && Insertable(AllConverted(rows[..n]), Converted(rows[n]))
  }

  function AllConverted(rows: seq<LegacyPhone>): (r: seq<Phone>)
    ensures |r| == |rows| && forall i :: 0 <= i < |rows| ==> r[i] == Converted(rows[i])
  {
    seq(|rows|, i requires 0 <= i < |rows| => Converted(rows[i]))
  }

  predicate LinksInsertable(phones: seq<Phone>, links: seq<Link>) {
    links != [] ==>
      var n := |links| - 1;
      LinksInsertable(phones, links[..n]) && LinkInsertable(phones, links[..n], links[n])
  }

  /** An active phone out of use that still has an active link is put in use and
      marked for review. */
  function ReconciledPhone(phones: seq<Phone>, links: seq<Link>, p: Id): Phone
    requires p < |phones|
  {
    if phones[p].active && phones[p].status != Used && HasActiveLink(links, p)
    then phones[p].(status := Used, review := true) else phones[p]
  }

  /** An active link of an inactive phone is closed. */
  function ReconciledLink(phones: seq<Phone>, l: Link, now: int): Link
    requires l.phone < |phones|
  {
    if l.active && !phones[l.phone].active
    then l.(active := false, removedAt := if l.removedAt.Some? then l.removedAt else Some(now)) else l
  }

  /** The outcome of a completed migration. */
  ghost predicate Migrated(rows: seq<LegacyPhone>, links: seq<Link>, now: int, phones: seq<Phone>, closed: seq<Link>) {
    && AllInsertable(rows) && LinksInsertable(AllConverted(rows), links)
    && |phones| == |rows| && |closed| == |links|
    && (forall p :: 0 <= p < |rows| ==> phones[p] == ReconciledPhone(AllConverted(rows), links, p))
    && (forall i :: 0 <= i < |links| ==> links[i].phone < |rows|)
    && (forall i :: 0 <= i < |links| ==> closed[i] == ReconciledLink(AllConverted(rows), links[i], now))
  }

  /** The migration, loop by loop. */
  method Migrate(rows: seq<LegacyPhone>, links: seq<Link>, now: int) returns (r: Result<(seq<Phone>, seq<Link>)>)
    ensures r.Ok? <==> AllInsertable(rows) && LinksInsertable(AllConverted(rows), links)
    ensures r.Ok? ==> Migrated(rows, links, now, r.value.0, r.value.1)
    ensures r.Ok? <==> RowsFit(rows) && LinksFit(|rows|, links)
    ensures r.Ok? ==> && |r.value.0| == |rows| && |r.value.1| == |links|
                      && (forall p :: 0 <= p < |rows| ==> PhoneMigrated(rows[p], LinkedTo(links, p), r.value.0[p]))
                      && (forall i :: 0 <= i < |links| ==> LinkMigrated(rows, links[i], now, r.value.1[i]))
  {
    RowsFitIff(rows);
    LinksFitIff(AllConverted(rows), links);
    r := MigrateTables(rows, links, now);
    if r.Ok? {
      MigratedMeans(rows, links, now, r.value.0, r.value.1);
    }
  }

  lemma MigratedMeans(rows: seq<LegacyPhone>, links: seq<Link>, now: int, phones: seq<Phone>, closed: seq<Link>)
    requires Migrated(rows, links, now, phones, closed)
    ensures forall p :: 0 <= p < |rows| ==> PhoneMigrated(rows[p], LinkedTo(links, p), phones[p])
    ensures forall i :: 0 <= i < |links| ==> LinkMigrated(rows, links[i], now, closed[i])
  {
    forall p | 0 <= p < |rows| ensures PhoneMigrated(rows[p], LinkedTo(links, p), phones[p]) {
      assert HasActiveLink(links, p) <==> LinkedTo(links, p);
    }
    forall i | 0 <= i < |links| ensures LinkMigrated(rows, links[i], now, closed[i]) {
      assert AllConverted(rows)[links[i].phone] == Converted(rows[links[i].phone]);
    }
  }

  /** The loops one after the other. */
  method MigrateTables(rows: seq<LegacyPhone>, links: seq<Link>, now: int)
    returns (r: Result<(seq<Phone>, seq<Link>)>)
    ensures r.Ok? <==> AllInsertable(rows) && LinksInsertable(AllConverted(rows), links)
    ensures r.Ok? ==> Migrated(rows, links, now, r.value.0, r.value.1)
  {
    var imported := ImportPhones(rows);
    if imported.Refused? { return Refused; }
    var phones := imported.value;
    var linksOk := CheckLinks(phones, links);
    if !linksOk { return Refused; }
    LinksHavePhones(phones, links);
    var used := ReconcilePhones(phones, links);
    var closed := ReconcileLinks(used, links, now);
    assert forall i :: 0 <= i < |links| ==> used[links[i].phone].active == phones[links[i].phone].active;
    return Ok((used, closed));
  }

  // ----- What becomes of a row, column by column ----------------------------------------

  /** The old words for a number with a problem. */
  predicate OldProblem(row: LegacyPhone) {
    row.status in {"blocked", "disabled", "problem"}
  }

  predicate LinkedTo(links: seq<Link>, p: Id) {
    exists i :: 0 <= i < |links| && links[i].active && links[i].phone == p
  }

  /** The migrated phone: an active phone with an active link is in use; a problem word makes
      any other unknown, or unused when it is inactive, and asks for a review, as does a
      phone put in use. */
  predicate PhoneMigrated(row: LegacyPhone, linked: bool, p: Phone) {
    var inUse := row.status == "used" || (row.active && linked);
    && p.number == row.number && p.provider == row.provider && p.active == row.active
    && p.deactivatedAt == row.deactivatedAt
    && (p.status == Used <==> inUse)
    && (p.status == Unused <==>
          !inUse && (row.status in {"unused", "free", "reserved"} || (OldProblem(row) && !row.active)))
    && (p.problematic <==> if row.problematic.Some? then row.problematic.value else OldProblem(row))
    && (p.review <==> row.review || OldProblem(row) || (row.active && linked && row.status != "used"))
  }

  /** A link stays as it is unless it is an active link of an inactive phone. */
  predicate LinkMigrated(rows: seq<LegacyPhone>, l: Link, now: int, migrated: Link) {
    && l.phone < |rows|
    && if l.active && !rows[l.phone].active
       then migrated == Link(l.route, l.phone, false, Some(if l.removedAt.Some? then l.removedAt.value else now))
       else migrated == l
  }

  /** Every number is well formed and occurs once, and every problem is under review. */
  predicate RowsFit(rows: seq<LegacyPhone>) {
    && (forall p :: 0 <= p < |rows| ==> WellFormed(rows[p].number))
    && (forall p :: 0 <= p < |rows| && rows[p].problematic == Some(true) ==> rows[p].review || OldProblem(rows[p]))
    && (forall p, q :: 0 <= p < q < |rows| ==> rows[p].number != rows[q].number)
  }

  /** Every link has a phone, and no two active links join the same route and phone. */
  predicate LinksFit(phones: nat, links: seq<Link>) {
    && (forall i :: 0 <= i < |links| ==> links[i].phone < phones)
    && (forall i, j :: 0 <= i < j < |links| && links[i].active && links[j].active ==>
          !(links[i].route == links[j].route && links[i].phone == links[j].phone))
  }

  lemma InsertableIff(rows: seq<LegacyPhone>, row: LegacyPhone)
    ensures Insertable(AllConverted(rows), Converted(row)) <==>
            && WellFormed(row.number)
            && (row.problematic == Some(true) ==> row.review || OldProblem(row))
            && forall p :: 0 <= p < |rows| ==> rows[p].number != row.number
  {
    WellFormedIff(row.number);
    var phones := AllConverted(rows);
    if NumberTaken(phones, row.number, -1) {
      var p :| 0 <= p < |phones| && p != -1 && phones[p].number == row.number;
      assert rows[p].number == row.number;
    }
    if exists p :: 0 <= p < |rows| && rows[p].number == row.number {
      var p :| 0 <= p < |rows| && rows[p].number == row.number;
      assert phones[p].number == row.number;
    }
  }

  lemma {:induction false} RowsFitIff(rows: seq<LegacyPhone>)
    ensures AllInsertable(rows) <==> RowsFit(rows)
  {
    if rows != [] {
      var n := |rows| - 1;
      RowsFitIff(rows[..n]);
      InsertableIff(rows[..n], rows[n]);
      RowsFitNext(rows);
    }
  }

  lemma RowsFitNext(rows: seq<LegacyPhone>)
    requires rows != []
    ensures var n := |rows| - 1;
            RowsFit(rows) <==>
            && RowsFit(rows[..n]) && WellFormed(rows[n].number)
            && (rows[n].problematic == Some(true) ==> rows[n].review || OldProblem(rows[n]))
            && forall p :: 0 <= p < n ==> rows[..n][p].number != rows[n].number
  {
    var n := |rows| - 1;
    assert forall p :: 0 <= p < n ==> rows[..n][p] == rows[p];
  }

  lemma {:induction false} LinksFitIff(phones: seq<Phone>, links: seq<Link>)
    ensures LinksInsertable(phones, links) <==> LinksFit(|phones|, links)
  {
    if links != [] {
      var n := |links| - 1;
      LinksFitIff(phones, links[..n]);
      assert forall i :: 0 <= i < n ==> links[..n][i] == links[i];
    }
  }

  method ImportPhones(rows: seq<LegacyPhone>) returns (r: Result<seq<Phone>>)
    ensures r.Ok? <==> AllInsertable(rows)
    ensures r.Ok? ==> r.value == AllConverted(rows)
  {
    var phones: seq<Phone> := [];
    var i := 0;
    while i < |rows|
      invariant 0 <= i <= |rows|
      invariant AllInsertable(rows[..i]) && phones == AllConverted(rows[..i])
    {
      NextRow(rows, i);
      var p := Converted(rows[i]);
      if !Insertable(phones, p) {
        FailedPrefix(rows, i + 1);
        return Refused;
      }
      phones := phones + [p];
      i := i + 1;
    }
    assert rows[..i] == rows;
    return Ok(phones);
  }

  lemma NextRow(rows: seq<LegacyPhone>, i: nat)
    requires i < |rows|
    ensures AllInsertable(rows[..i + 1]) <==>
            AllInsertable(rows[..i]) && Insertable(AllConverted(rows[..i]), Converted(rows[i]))
    ensures AllConverted(rows[..i + 1]) == AllConverted(rows[..i]) + [Converted(rows[i])]
  {
    assert rows[..i + 1][..i] == rows[..i];
  }

  lemma {:induction false} FailedPrefix(rows: seq<LegacyPhone>, n: nat)
    requires n <= |rows| && !AllInsertable(rows[..n])
    ensures !AllInsertable(rows)
    decreases |rows| - n
  {
    if n == |rows| {
      assert rows[..n] == rows;
    } else {
      assert rows[..n + 1][..n] == rows[..n];
      FailedPrefix(rows, n + 1);
    }
  }

  method CheckLinks(phones: seq<Phone>, links: seq<Link>) returns (ok: bool)
    ensures ok <==> LinksInsertable(phones, links)
  {
    var i := 0;
    while i < |links|
      invariant 0 <= i <= |links| && LinksInsertable(phones, links[..i])
    {
      assert links[..i + 1][..i] == links[..i];
      if !LinkInsertable(phones, links[..i], links[i]) {
        FailedLinkPrefix(phones, links, i + 1);
        return false;
      }
      i := i + 1;
    }
    assert links[..i] == links;
    return true;
  }

  lemma {:induction false} FailedLinkPrefix(phones: seq<Phone>, links: seq<Link>, n: nat)
    requires n <= |links| && !LinksInsertable(phones, links[..n])
    ensures !LinksInsertable(phones, links)
    decreases |links| - n
  {
    if n == |links| {
      assert links[..n] == links;
    } else {
      assert links[..n + 1][..n] == links[..n];
      FailedLinkPrefix(phones, links, n + 1);
    }
  }

  method ReconcilePhones(phones: seq<Phone>, links: seq<Link>) returns (r: seq<Phone>)
    ensures |r| == |phones| && forall p :: 0 <= p < |phones| ==> r[p] == ReconciledPhone(phones, links, p)
  {
    r := phones;
    var p := 0;
    while p < |phones|
      invariant 0 <= p <= |phones| == |r|
      invariant forall q :: 0 <= q < |phones| ==> r[q] == if q < p then ReconciledPhone(phones, links, q) else phones[q]
    {
      if r[p].active && r[p].status != Used && HasActiveLink(links, p) {
        r := r[p := r[p].(status := Used, review := true)];
      }
      p := p + 1;
    }
  }

  method ReconcileLinks(phones: seq<Phone>, links: seq<Link>, now: int) returns (r: seq<Link>)
    requires forall i :: 0 <= i < |links| ==> links[i].phone < |phones|
    ensures |r| == |links| && forall i :: 0 <= i < |links| ==> r[i] == ReconciledLink(phones, links[i], now)
  {
    r := links;
    var i := 0;
    while i < |links|
      invariant 0 <= i <= |links| == |r|
      invariant forall k :: 0 <= k < |links| ==>
                  r[k] == if k < i then ReconciledLink(phones, links[k], now) else links[k]
    {
      if r[i].active && !phones[r[i].phone].active {
        r := r[i := r[i].(active := false, removedAt := if r[i].removedAt.Some? then r[i].removedAt else Some(now))];
      }
      i := i + 1;
    }
  }

  // ----- What the migrated tables satisfy ------------------------------------------------

  lemma {:induction false} LinksHavePhones(phones: seq<Phone>, links: seq<Link>)
    requires LinksInsertable(phones, links)
    ensures forall i :: 0 <= i < |links| ==> links[i].phone < |phones|
    ensures OneLinkPerPair(links)
  {
    if links != [] {
      var n := |links| - 1;
      LinksHavePhones(phones, links[..n]);
      forall i, j | 0 <= i < j < |links| && links[i].active && links[j].active
        ensures Pair(links[i]) != Pair(links[j])
      {
        if j == n {
          assert links[..n][i] == links[i];
        } else {
          assert links[..n][i] == links[i] && links[..n][j] == links[j];
        }
      }
    }
  }

  lemma {:induction false} ConvertedConstraints(rows: seq<LegacyPhone>)
    requires AllInsertable(rows)
    ensures forall p :: 0 <= p < |rows| ==> (Converted(rows[p]).problematic ==> Converted(rows[p]).review)
    ensures forall p, q :: 0 <= p < q < |rows| ==> rows[p].number != rows[q].number
  {
    if rows != [] {
      var n := |rows| - 1;
      ConvertedConstraints(rows[..n]);
      var phones := AllConverted(rows[..n]);
      forall p, q | 0 <= p < q < |rows| ensures rows[p].number != rows[q].number {
        if q == n {
          assert phones[p].number == rows[p].number;
        } else {
          assert rows[..n][p] == rows[p] && rows[..n][q] == rows[q];
        }
      }
    }
  }

  /** The reconciliation establishes the link part of the invariant: an active link
      has an active phone in use, a pair has at most one, and problems are reviewed. */
  lemma ReconciliationEstablishesLinks(
      rows: seq<LegacyPhone>, links: seq<Link>, now: int, phones: seq<Phone>, closed: seq<Link>)
    requires Migrated(rows, links, now, phones, closed)
    ensures LinksOk(phones, closed) && OneLinkPerPair(closed)
    ensures forall p :: 0 <= p < |phones| ==> (phones[p].problematic ==> phones[p].review)
    ensures forall p, q :: 0 <= p < q < |phones| ==> phones[p].number != phones[q].number
  {
    LinksHavePhones(AllConverted(rows), links);
    ConvertedConstraints(rows);
    forall i | 0 <= i < |closed| ensures LinkOk(closed[i], phones) {
      var l := links[i];
      if l.active {
        assert HasActiveLink(links, l.phone);
      }
    }
  }

  /** No link of an active phone is lost, and no link is created. */
  lemma ReconciliationKeepsLinksOfActivePhones(
      rows: seq<LegacyPhone>, links: seq<Link>, now: int, phones: seq<Phone>, closed: seq<Link>, i: nat)
    requires Migrated(rows, links, now, phones, closed) && i < |links|
    ensures closed[i].active <==> links[i].active && rows[links[i].phone].active
    ensures rows[links[i].phone].active ==> closed[i] == links[i]
  {
  }

  /** Read off the legacy row: it is active, or it becomes unused and has its date. */
  predicate RetiredCleanly(row: LegacyPhone) {
    row.active ||
    (row.deactivatedAt.Some?
     && (row.status == "unused" || row.status == "free" || row.status == "reserved" || LegacyProblem(row.status)))
  }

  /** The rest of the phone invariant is not established for every legacy table: an
      inactive legacy phone may stay in use or undated.  It holds exactly when every
      inactive row was retired cleanly. */
  lemma InactivePhonesUnusedIff(
      rows: seq<LegacyPhone>, links: seq<Link>, now: int, phones: seq<Phone>, closed: seq<Link>)
    requires Migrated(rows, links, now, phones, closed)
    ensures (forall p :: 0 <= p < |phones| ==> PhoneOk(phones[p])) <==>
            (forall p :: 0 <= p < |rows| ==> RetiredCleanly(rows[p]))
  {
    ConvertedConstraints(rows);
    if forall p :: 0 <= p < |phones| ==> PhoneOk(phones[p]) {
      forall p | 0 <= p < |rows| ensures RetiredCleanly(rows[p]) {
        assert PhoneOk(phones[p]);
      }
    }
  }

  /** A legacy number that is inactive but still marked as used, and undated. */
  const UNDATED := LegacyPhone("1234567", None, "used", false, false, Some(false), None)

  /** It is migrated as it is. */
  lemma UndatedPhoneStaysUsed(now: int)
    ensures Migrated([UNDATED], [], now, [Converted(UNDATED)], [])
    ensures !RetiredCleanly(UNDATED) && !PhoneOk(Converted(UNDATED)) && Converted(UNDATED).status == Used
  {
    assert AllConverted([UNDATED][..0]) == [];
    assert ValidNumber("1234567");
    assert AllInsertable([UNDATED][..0]);
  }
}
