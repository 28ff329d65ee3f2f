/** Several editors saving one row of routes, tariffs or calling companies.

    An editor loads a form (with the row's `updated_at` as its token), later submits
    it, which first SELECTs the row and then UPDATEs it under a guard.  The
    statements of different editors interleave in any order. */
module OptimisticLocking {
  import opened Common

  type Client = nat
  type Stamp = int
  type Fields = map<string, string>

  datatype Row = Row(data: Fields, updatedAt: Stamp)

  datatype Kind = RouteEdit | TariffEdit | CompanyEdit

  /** Where an editor is.  `loaded` and `read` count the commits made before the form
      was loaded and before the row was SELECTed. */
  datatype Editor =
    | Idle
    | FormOpen(token: Option<Stamp>, loaded: nat)
    | Selected(kind: Kind, token: Option<Stamp>, form: Fields, seen: Row, loaded: nat, read: nat)
    | Saved
    | Conflict
    | NotFound
    | NothingToSave

  /** One accepted write: what it was based on, what the history recorded as old
      values, what it overwrote and what it left. */
  datatype Commit = Commit(client: Client, token: Option<Stamp>, loaded: nat,
                           logged: Fields, replaced: Row, written: Row)

  /** `versions` lists every version the row has had, the first one included. */
  datatype System = System(versions: seq<Row>, row: Option<Row>, log: seq<Commit>, editors: map<Client, Editor>)

  datatype Label =
    | Load(client: Client, withToken: bool)
    | Select(client: Client, kind: Kind, form: Fields)
    | Update(client: Client, stamp: Stamp)
    | GiveUp(client: Client)
    | Delete

  // ----- The statements -----------------------------------------------------------------

  /** Fields kept from the row as read when the form leaves them out. */
  function Carried(kind: Kind): set<string> {
    match kind
    case RouteEdit => {"provider_id", "cli_source_type", "cli_source_label"}
    case TariffEdit => {"is_current"}
    case CompanyEdit => {}
  }

  function Assigned(kind: Kind, seen: Fields, form: Fields): Fields {
    (map k | k in Carried(kind) && k in seen :: seen[k]) + form
  }

  /** A tariff form is saved only when one of these fields differs. */
  const TARIFF_FIELDS := {"price", "currency", "comment", "is_current"}

  predicate TariffChanged(seen: Fields, form: Fields) {
    exists k :: k in TARIFF_FIELDS && k in form && !(k in seen && seen[k] == form[k])
  }

  function At(s: System, c: Client): Editor {
    if c in s.editors then s.editors[c] else Idle
  }

  function Moved(s: System, c: Client, e: Editor): System {
    s.(editors := s.editors[c := e])
  }

  /** The SELECT of a submitted form.  Routes and tariffs compare the token here;
      a company form goes straight on to the UPDATE. */
  function AfterSelect(row: Option<Row>, kind: Kind, form: Fields, token: Option<Stamp>,
                       loaded: nat, now: nat): Editor
  {
    if row.None? then NotFound
    else if kind != CompanyEdit && token.Some? && token.value != row.value.updatedAt then Conflict
    else if kind == TariffEdit && !TariffChanged(row.value.data, form) then NothingToSave
    else Selected(kind, token, form, row.value, loaded, now)
  }

  /** The stamp the UPDATE insists on, if any. */
  function Guard(e: Editor): Option<Stamp>
    requires e.Selected?
  {
    if e.token.None? then None
    else if e.kind == CompanyEdit then e.token
    else Some(e.seen.updatedAt)
  }

  predicate Commits(s: System, c: Client) {
    var e := At(s, c);
    e.Selected? && s.row.Some? && (Guard(e).Some? ==> Guard(e).value == s.row.value.updatedAt)
  }

  function AfterUpdate(s: System, c: Client, stamp: Stamp): System
    requires At(s, c).Selected?
  {
    var e := At(s, c);
    if s.row.None? then Moved(s, c, NotFound)
    else if !Commits(s, c) then Moved(s, c, Conflict)
    else
      var written := Row(s.row.value.data + Assigned(e.kind, e.seen.data, e.form), stamp);
      Moved(s.(row := Some(written), versions := s.versions + [written],
               log := s.log + [Commit(c, e.token, e.loaded, e.seen.data, s.row.value, written)]), c, Saved)
  }

  function Step(s: System, l: Label): System {
    match l
    case Load(c, withToken) =>
      if s.row.None? then Moved(s, c, NotFound)
      else Moved(s, c, FormOpen(if withToken then Some(s.row.value.updatedAt) else None, |s.log|))
    case Select(c, kind, form) =>
      var e := At(s, c);
      if e.FormOpen? then Moved(s, c, AfterSelect(s.row, kind, form, e.token, e.loaded, |s.log|)) else s
    case Update(c, stamp) => if At(s, c).Selected? then AfterUpdate(s, c, stamp) else s
    case GiveUp(c) => Moved(s, c, Idle)
    case Delete => s.(row := None)
  }

  function Run(s: System, labels: seq<Label>): System {
    if labels == [] then s else Step(Run(s, labels[..|labels| - 1]), labels[|labels| - 1])
  }

  function Start(first: Row): System {
    System([first], Some(first), [], map[])
  }

  // ----- Versions of the row ---------------------------------------------------------------

  /** Every committed write gives the row a stamp it never had. */
  ghost predicate FreshAlong(first: Row, labels: seq<Label>) {
    labels != [] ==>
      var n := |labels| - 1;
      FreshAlong(first, labels[..n]) && FreshStep(Run(Start(first), labels[..n]), labels[n])
  }

  ghost predicate FreshStep(s: System, l: Label) {
    l.Update? && Commits(s, l.client) ==> NeverUsed(s.versions, l.stamp)
  }

  ghost predicate NeverUsed(versions: seq<Row>, stamp: Stamp) {
    forall n :: 0 <= n < |versions| ==> versions[n].updatedAt != stamp
  }

  /** The log links each version to the next, and the stored row is the last version. */
  ghost predicate Linked(versions: seq<Row>, log: seq<Commit>, row: Option<Row>) {
    && |versions| == |log| + 1
    && (forall n :: 0 <= n < |log| ==> log[n].replaced == versions[n] && log[n].written == versions[n + 1])
    && (row.Some? ==> row.value == versions[|log|])
  }

  /** And all stamps differ. */
  ghost predicate Chain(versions: seq<Row>, log: seq<Commit>, row: Option<Row>) {
    && Linked(versions, log, row)
    && (forall m, n :: 0 <= m < n < |versions| ==> versions[m].updatedAt != versions[n].updatedAt)
  }

  /** A token is the stamp of the version shown, and a row read is one of the versions
      since then; for routes and tariffs it is the very version shown. */
  ghost predicate EditorOk(versions: seq<Row>, e: Editor) {
    match e
    case FormOpen(token, loaded) =>
      loaded < |versions| && (token.Some? ==> token.value == versions[loaded].updatedAt)
    case Selected(kind, token, _, seen, loaded, read) =>
      && loaded <= read < |versions| && seen == versions[read]
      && (token.Some? ==> token.value == versions[loaded].updatedAt)
      && (token.Some? && kind != CompanyEdit ==> seen.updatedAt == token.value)
    case _ => true
  }

  /** An accepted save with a token replaced exactly the version its form showed, and
      recorded exactly the values it overwrote. */
  ghost predicate Based(c: Commit, n: nat) {
    c.token.Some? ==>
      && c.loaded == n
      && c.token.value == c.replaced.updatedAt
      && c.logged == c.replaced.data
  }

  ghost predicate Inv(s: System) {
    && Chain(s.versions, s.log, s.row)
    && (forall c :: c in s.editors ==> EditorOk(s.versions, s.editors[c]))
    && (forall n :: 0 <= n < |s.log| ==> Based(s.log[n], n))
  }

  // ----- Every step keeps the invariant --------------------------------------------------------

  lemma MoveKeepsInv(s: System, c: Client, e: Editor)
    requires Inv(s) && EditorOk(s.versions, e)
    ensures Inv(Moved(s, c, e))
  {
  }

  /** The version an UPDATE replaces is the one its editor's form showed. */
  lemma CommitIsBased(s: System, c: Client)
    requires Inv(s) && Commits(s, c) && At(s, c).token.Some?
    ensures At(s, c).loaded == |s.log| && At(s, c).seen == s.row.value
    ensures At(s, c).token.value == s.row.value.updatedAt
  {
    assert EditorOk(s.versions, At(s, c));
  }

  lemma ChainGrows(versions: seq<Row>, log: seq<Commit>, row: Row, c: Commit)
    requires Chain(versions, log, Some(row)) && NeverUsed(versions, c.written.updatedAt)
    requires c.replaced == row
    ensures Chain(versions + [c.written], log + [c], Some(c.written))
  {
  }

  lemma CommitKeepsInv(s: System, c: Client, stamp: Stamp)
    requires Inv(s) && Commits(s, c) && NeverUsed(s.versions, stamp)
    ensures Inv(AfterUpdate(s, c, stamp))
  {
    var t := AfterUpdate(s, c, stamp);
    var commit := t.log[|s.log|];
    ChainGrows(s.versions, s.log, s.row.value, commit);
    forall d | d in t.editors ensures EditorOk(t.versions, t.editors[d]) {
      if d != c {
        assert EditorOk(s.versions, s.editors[d]);
      }
    }
    if commit.token.Some? {
      CommitIsBased(s, c);
    }
    assert Based(commit, |s.log|);
  }

  lemma SelectKeepsInv(s: System, c: Client, kind: Kind, form: Fields)
    requires Inv(s) && At(s, c).FormOpen?
    ensures Inv(Step(s, Select(c, kind, form)))
  {
  }

  lemma StepKeepsInv(s: System, l: Label)
    requires Inv(s) && FreshStep(s, l)
    ensures Inv(Step(s, l))
  {
    match l {
      case Load(c, withToken) =>
        MoveKeepsInv(s, c, if s.row.None? then NotFound
                           else FormOpen(if withToken then Some(s.row.value.updatedAt) else None, |s.log|));
      case Select(c, kind, form) =>
        if At(s, c).FormOpen? { SelectKeepsInv(s, c, kind, form); }
      case Update(c, stamp) =>
        if Commits(s, c) {
          CommitKeepsInv(s, c, stamp);
        } else {
          MoveKeepsInv(s, c, if s.row.None? then NotFound else Conflict);
        }
      case GiveUp(c) => MoveKeepsInv(s, c, Idle);
      case Delete =>
    }
  }

  /** Under any interleaving with fresh stamps, no update is lost: the accepted
      writes form one chain of versions, and each one made with a token replaced the
      version its form showed and logged the values it overwrote. */
  lemma {:induction false} NoUpdateIsLost(first: Row, labels: seq<Label>)
    requires FreshAlong(first, labels)
    ensures Inv(Run(Start(first), labels))
  {
    if labels != [] {
      var n := |labels| - 1;
      NoUpdateIsLost(first, labels[..n]);
      StepKeepsInv(Run(Start(first), labels[..n]), labels[n]);
    }
  }

  /** At most one editor wins per version. */
  lemma OneWinnerPerVersion(s: System, m: nat, n: nat)
    requires Inv(s) && m < n < |s.log| && s.log[m].token.Some? && s.log[n].token.Some?
    ensures s.log[m].token != s.log[n].token
  {
    assert Based(s.log[m], m) && Based(s.log[n], n);
    assert s.versions[m].updatedAt != s.versions[n].updatedAt;
  }

  /** An editor with a token is turned away on reading the row (routes, tariffs)
      exactly when a write has been committed since the form was loaded. */
  lemma SelectRefusesIffOvertaken(s: System, c: Client, kind: Kind, form: Fields)
    requires Inv(s) && s.row.Some? && kind != CompanyEdit
    requires At(s, c).FormOpen? && At(s, c).token.Some?
    ensures At(Step(s, Select(c, kind, form)), c) == Conflict <==> At(s, c).loaded < |s.log|
  {
    var e := At(s, c);
    assert EditorOk(s.versions, e);
    assert e.loaded < |s.log| ==> s.versions[e.loaded].updatedAt != s.versions[|s.log|].updatedAt;
  }

  /** Likewise on writing the row, for all three kinds; otherwise the save goes through. */
  lemma UpdateRefusesIffOvertaken(s: System, c: Client, stamp: Stamp)
    requires Inv(s) && s.row.Some? && At(s, c).Selected? && At(s, c).token.Some?
    ensures At(Step(s, Update(c, stamp)), c) == if At(s, c).loaded < |s.log| then Conflict else Saved
  {
    var e := At(s, c);
    assert EditorOk(s.versions, e);
    if e.loaded < |s.log| {
      assert s.versions[e.loaded].updatedAt != s.versions[|s.log|].updatedAt;
    } else {
      assert e.seen == s.versions[|s.log|];
    }
  }

  /** The form leaves the field out or gives the value the row has. */
  predicate Repeats(data: Fields, form: Fields, k: string) {
    k in form ==> k in data && data[k] == form[k]
  }

  /** The tariff form repeats the four fields that count as a change. */
  predicate WithoutChanges(data: Fields, form: Fields) {
    && Repeats(data, form, "price") && Repeats(data, form, "currency")
    && Repeats(data, form, "comment") && Repeats(data, form, "is_current")
  }

  lemma ChangedIff(data: Fields, form: Fields)
    ensures TariffChanged(data, form) <==> !WithoutChanges(data, form)
  {
    if !Repeats(data, form, "price") { assert "price" in TARIFF_FIELDS; }
    if !Repeats(data, form, "currency") { assert "currency" in TARIFF_FIELDS; }
    if !Repeats(data, form, "comment") { assert "comment" in TARIFF_FIELDS; }
    if !Repeats(data, form, "is_current") { assert "is_current" in TARIFF_FIELDS; }
  }

  /** Without commits since the form was loaded, a save goes through and leaves the
      row's values overlaid with the form's. */
  lemma UndisturbedSaveSucceeds(s: System, c: Client, kind: Kind, form: Fields, stamp: Stamp)
    requires Inv(s) && s.row.Some? && At(s, c).FormOpen? && At(s, c).loaded == |s.log|
    requires kind == TariffEdit ==> !WithoutChanges(s.row.value.data, form)
    ensures var t := Step(Step(s, Select(c, kind, form)), Update(c, stamp));
            At(t, c) == Saved && t.row == Some(Row(s.row.value.data + form, stamp))
  {
    var e := At(s, c);
    assert EditorOk(s.versions, e);
    ChangedIff(s.row.value.data, form);
    CarriedFieldsAreKept(kind, s.row.value.data, form);
    assert AfterSelect(s.row, kind, form, e.token, e.loaded, |s.log|) ==
           Selected(kind, e.token, form, s.row.value, e.loaded, |s.log|);
  }

  lemma CarriedFieldsAreKept(kind: Kind, data: Fields, form: Fields)
    ensures data + Assigned(kind, data, form) == data + form
  {
  }

  /** A submitted tariff form whose token (if any) is the row's stamp is found to be without
      changes exactly when it repeats the row's price, currency, comment and current flag;
      otherwise it is saved, and in any case the row keeps what the form leaves out. */
  lemma TariffSaveIff(s: System, c: Client, form: Fields, stamp: Stamp)
    requires s.row.Some? && At(s, c).FormOpen?
    requires At(s, c).token.Some? ==> At(s, c).token.value == s.row.value.updatedAt
    ensures var data := s.row.value.data; var t := Step(s, Select(c, TariffEdit, form));
            var u := Step(t, Update(c, stamp));
            && (At(t, c) == NothingToSave <==> WithoutChanges(data, form))
            && (At(u, c) == Saved <==> !WithoutChanges(data, form))
            && u.row == if WithoutChanges(data, form) then s.row else Some(Row(data + form, stamp))
  {
    ChangedIff(s.row.value.data, form);
    CarriedFieldsAreKept(TariffEdit, s.row.value.data, form);
  }

  /** So it is whenever nothing has been committed since the form was loaded. */
  lemma UndisturbedTariffSaveIff(s: System, c: Client, form: Fields, stamp: Stamp)
    requires Inv(s) && s.row.Some? && At(s, c).FormOpen? && At(s, c).loaded == |s.log|
    ensures var data := s.row.value.data; var t := Step(s, Select(c, TariffEdit, form));
            var u := Step(t, Update(c, stamp));
            && (At(t, c) == NothingToSave <==> WithoutChanges(data, form))
            && (At(u, c) == Saved <==> !WithoutChanges(data, form))
            && u.row == if WithoutChanges(data, form) then s.row else Some(Row(data + form, stamp))
  {
    assert EditorOk(s.versions, At(s, c));
    TariffSaveIff(s, c, form, stamp);
  }

  predicate ByAnother(l: Label, c: Client) {
    l.Delete? || l.client != c
  }

  lemma OneDoesNotMove(s: System, l: Label, c: Client)
    requires ByAnother(l, c)
    ensures At(Step(s, l), c) == At(s, c)
  {
  }

  /** What the other editors do leaves an editor where it is. */
  lemma {:induction false} OthersDoNotMove(s: System, others: seq<Label>, c: Client)
    requires forall k :: 0 <= k < |others| ==> ByAnother(others[k], c)
    ensures At(Run(s, others), c) == At(s, c)
  {
    if others != [] {
      var n := |others| - 1;
      OthersDoNotMove(s, others[..n], c);
      OneDoesNotMove(Run(s, others[..n]), others[n], c);
    }
  }

  /** A route or a calling company is saved whether or not its form changes anything, and
      without a token also over whatever others have committed, before or after it was read. */
  lemma SaveWithoutTokenOverwrites(s: System, c: Client, kind: Kind, form: Fields, others: seq<Label>, stamp: Stamp)
    requires s.row.Some? && At(s, c).FormOpen? && At(s, c).token.None? && kind != TariffEdit
    requires forall k :: 0 <= k < |others| ==> ByAnother(others[k], c)
    ensures var t := Run(Step(s, Select(c, kind, form)), others); var u := Step(t, Update(c, stamp));
            At(u, c) == (if t.row.Some? then Saved else NotFound)
            && (t.row.Some? ==> u.row.Some? && u.row.value.updatedAt == stamp)
  {
    OthersDoNotMove(Step(s, Select(c, kind, form)), others, c);
  }

  /** Fields of a route or tariff that the form leaves out are written back as read. */
  predicate WrittenBack(kind: Kind, k: string) {
    match kind
    case RouteEdit => k == "provider_id" || k == "cli_source_type" || k == "cli_source_label"
    case TariffEdit => k == "is_current"
    case CompanyEdit => false
  }

  /** Field by field, the row that an accepted save leaves: the form's value; for a field
      written back the value read, even if it has changed since; otherwise what is there. */
  lemma SavedFieldByField(s: System, c: Client, stamp: Stamp, k: string)
    requires At(s, c).Selected? && At(Step(s, Update(c, stamp)), c) == Saved
    ensures s.row.Some? && Step(s, Update(c, stamp)).row.Some?
    ensures var e := At(s, c); var written := Step(s, Update(c, stamp)).row.value;
            && written.updatedAt == stamp
            && (k in e.form ==> k in written.data && written.data[k] == e.form[k])
            && (k !in e.form && WrittenBack(e.kind, k) && k in e.seen.data ==>
                  k in written.data && written.data[k] == e.seen.data[k])
            && (k !in e.form && !(WrittenBack(e.kind, k) && k in e.seen.data) ==>
                  && (k in written.data <==> k in s.row.value.data)
                  && (k in written.data ==> written.data[k] == s.row.value.data[k]))
  {
  }

  // ----- Without fresh stamps ---------------------------------------------------------------------------

  /** What every run keeps, whatever stamps its writes carry. */
  ghost predicate LinkedInv(s: System) {
    Linked(s.versions, s.log, s.row) && forall c :: c in s.editors ==> EditorOk(s.versions, s.editors[c])
  }

  lemma MoveKeepsLinked(s: System, c: Client, e: Editor)
    requires LinkedInv(s) && EditorOk(s.versions, e)
    ensures LinkedInv(Moved(s, c, e))
  {
  }

  lemma CommitKeepsLinked(s: System, c: Client, stamp: Stamp)
    requires LinkedInv(s) && Commits(s, c)
    ensures LinkedInv(AfterUpdate(s, c, stamp))
  {
    var t := AfterUpdate(s, c, stamp);
    forall d | d in t.editors ensures EditorOk(t.versions, t.editors[d]) {
      if d != c {
        assert EditorOk(s.versions, s.editors[d]);
      }
    }
  }

  lemma StepKeepsLinked(s: System, l: Label)
    requires LinkedInv(s)
    ensures LinkedInv(Step(s, l))
  {
    match l {
      case Load(c, withToken) =>
        MoveKeepsLinked(s, c, if s.row.None? then NotFound
                              else FormOpen(if withToken then Some(s.row.value.updatedAt) else None, |s.log|));
      case Select(c, kind, form) =>
        if At(s, c).FormOpen? {
          var e := At(s, c);
          MoveKeepsLinked(s, c, AfterSelect(s.row, kind, form, e.token, e.loaded, |s.log|));
        }
      case Update(c, stamp) =>
        if Commits(s, c) {
          CommitKeepsLinked(s, c, stamp);
        } else {
          MoveKeepsLinked(s, c, if s.row.None? then NotFound else Conflict);
        }
      case GiveUp(c) => MoveKeepsLinked(s, c, Idle);
      case Delete =>
    }
  }

  lemma {:induction false} EveryRunIsLinked(first: Row, labels: seq<Label>)
    ensures LinkedInv(Run(Start(first), labels))
  {
    if labels != [] {
      var n := |labels| - 1;
      EveryRunIsLinked(first, labels[..n]);
      StepKeepsLinked(Run(Start(first), labels[..n]), labels[n]);
    }
  }

  /** In every run, whatever its stamps: a save with a token goes through exactly when the
      last version carries the stamp of the version its form showed. */
  lemma SaveAcceptedIff(first: Row, labels: seq<Label>, c: Client)
    requires var s := Run(Start(first), labels); s.row.Some? && At(s, c).Selected? && At(s, c).token.Some?
    ensures var s := Run(Start(first), labels); var e := At(s, c);
            && e.loaded <= |s.log| < |s.versions|
            && (Commits(s, c) <==> s.versions[e.loaded].updatedAt == s.versions[|s.log|].updatedAt)
  {
    var s := Run(Start(first), labels);
    EveryRunIsLinked(first, labels);
    assert EditorOk(s.versions, At(s, c));
  }

  /** So it overwrites versions that its editor never saw exactly when there are such
      versions and the last of them repeats the stamp of the version shown. */
  lemma UpdateLostIff(first: Row, labels: seq<Label>, c: Client, stamp: Stamp)
    requires var s := Run(Start(first), labels); s.row.Some? && At(s, c).Selected? && At(s, c).token.Some?
    ensures var s := Run(Start(first), labels); var e := At(s, c); var t := Step(s, Update(c, stamp));
            && e.loaded <= |s.log| < |s.versions|
            && (|t.log| == |s.log| + 1 && t.log[|s.log|].loaded < |s.log| <==>
                e.loaded < |s.log| && s.versions[e.loaded].updatedAt == s.versions[|s.log|].updatedAt)
  {
    SaveAcceptedIff(first, labels, c);
  }

  /** Two saves without tokens whose transactions began at the same instant, 10, carry the
      same stamp.  An editor who loads the first of the two versions gets through over the
      second, although its own save is later. */
  const OVERLAPPING_SAVES: seq<Label> :=
    [Load(1, false), Load(2, false), Select(1, RouteEdit, map["comment" := "one"]),
     Select(2, RouteEdit, map["comment" := "two"]), Update(1, 10), Load(3, true), Update(2, 10),
     Select(3, RouteEdit, map["comment" := "three"]), Update(3, 20)]

  lemma RunOfOne(s: System, labels: seq<Label>, n: nat)
    requires n < |labels|
    ensures Run(s, labels[..n + 1]) == Step(Run(s, labels[..n]), labels[n])
  {
    assert labels[..n + 1][..n] == labels[..n];
  }

  lemma OverlappingSavesLoseAnUpdate(first: Row)
    requires first.updatedAt < 10
    ensures var s := Run(Start(first), OVERLAPPING_SAVES);
            && At(s, 1) == At(s, 2) == At(s, 3) == Saved && |s.log| == 3
            && s.log[2].token == Some(10) && s.log[2].loaded == 1
  {
    var l, s0 := OVERLAPPING_SAVES, Start(first);
    assert l[..9] == l;
    BothRead(first);
    BothSave(Run(s0, l[..4]));
    RunOfOne(s0, l, 4);
    RunOfOne(s0, l, 5);
    RunOfOne(s0, l, 6);
    RunOfOne(s0, l, 7);
    RunOfOne(s0, l, 8);
  }

  lemma BothRead(first: Row)
    ensures var s := Run(Start(first), OVERLAPPING_SAVES[..4]);
            && s.row == Some(first) && s.log == []
            && At(s, 1) == Selected(RouteEdit, None, map["comment" := "one"], first, 0, 0)
            && At(s, 2) == Selected(RouteEdit, None, map["comment" := "two"], first, 0, 0)
  {
    var l, s0 := OVERLAPPING_SAVES, Start(first);
    assert l[..0] == [];
    RunOfOne(s0, l, 0);
    RunOfOne(s0, l, 1);
    RunOfOne(s0, l, 2);
    RunOfOne(s0, l, 3);
  }

  /** The second half of that run, from the point where both transactions have read. */
  lemma BothSave(s: System)
    requires s.row.Some? && s.log == [] && At(s, 1).Selected? && At(s, 2).Selected?
    requires At(s, 1).token == None == At(s, 2).token
    ensures var t := Step(Step(Step(s, Update(1, 10)), Load(3, true)), Update(2, 10));
            var u := Step(Step(t, Select(3, RouteEdit, map["comment" := "three"])), Update(3, 20));
            && At(u, 1) == At(u, 2) == At(u, 3) == Saved && |u.log| == 3
            && u.log[2].token == Some(10) && u.log[2].loaded == 1
  {
    var s1 := Step(s, Update(1, 10));
    assert s1.row.value.updatedAt == 10 && |s1.log| == 1 && At(s1, 2) == At(s, 2) && At(s1, 1) == Saved;
    var s2 := Step(s1, Load(3, true));
    assert At(s2, 3) == FormOpen(Some(10), 1) && At(s2, 2) == At(s, 2);
    var t := Step(s2, Update(2, 10));
    assert t.row.value.updatedAt == 10 && |t.log| == 2 && At(t, 3) == FormOpen(Some(10), 1);
    var t1 := Step(t, Select(3, RouteEdit, map["comment" := "three"]));
    assert At(t1, 3) == Selected(RouteEdit, Some(10), map["comment" := "three"], t.row.value, 1, 2);
  }
}
