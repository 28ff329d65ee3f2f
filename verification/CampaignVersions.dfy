/** What every run keeps about the versions of a campaign's routing scheme. */
module CampaignVersions {
  import opened Common
  import opened CampaignRouting

  // ----- At most one open version ------------------------------------------------

  /** A version is closed exactly when it is inactive, and only the last version of
      a campaign can be open. */
  ghost predicate VersionsOk(settings: seq<Setting>) {
    && (forall i :: 0 <= i < |settings| ==> (settings[i].active <==> settings[i].to.None?))
    && (forall i, j :: 0 <= i < j < |settings| && settings[i].company == settings[j].company
          ==> !settings[i].active)
  }

  lemma OpenedKeepsVersions(settings: seq<Setting>, company: Id, s: Scheme, at: int)
    requires VersionsOk(settings)
    requires forall i :: 0 <= i < |settings| && settings[i].company == company ==> !settings[i].active
    ensures VersionsOk(Opened(settings, company, s, at))
    ensures ActiveSetting(Opened(settings, company, s, at), company) == Some(|settings|)
    ensures forall c :: c != company ==>
              ActiveSetting(Opened(settings, company, s, at), c) == ActiveSetting(settings, c)
  {
    assert Opened(settings, company, s, at)[..|settings|] == settings;
  }

  lemma ClosedKeepsVersions(settings: seq<Setting>, i: nat, at: int)
    requires VersionsOk(settings) && Editable(settings, i)
    ensures VersionsOk(Closed(settings, i, at))
    ensures ActiveSetting(Closed(settings, i, at), settings[i].company) == None
    ensures forall j :: 0 <= j < |settings| && settings[j].company == settings[i].company
              ==> !Closed(settings, i, at)[j].active
    ensures forall c :: c != settings[i].company ==>
              ActiveSetting(Closed(settings, i, at), c) == ActiveSetting(settings, c)
  {
    forall c | c != settings[i].company
      ensures ActiveSetting(Closed(settings, i, at), c) == ActiveSetting(settings, c)
    {
      SameOpenRowsSameActive(settings, Closed(settings, i, at), c);
    }
  }

  /** The active version depends only on which rows are open. */
  lemma SameOpenRowsSameActive(a: seq<Setting>, b: seq<Setting>, c: Id)
    requires |a| == |b| && forall j :: 0 <= j < |a| ==> Open(a[j], c) == Open(b[j], c)
    ensures ActiveSetting(a, c) == ActiveSetting(b, c)
  {
  }

  lemma CommentedKeepsVersions(settings: seq<Setting>, i: nat, comment: string)
    requires VersionsOk(settings) && i < |settings|
    ensures VersionsOk(Commented(settings, i, comment))
    ensures forall c :: ActiveSetting(Commented(settings, i, comment), c) == ActiveSetting(settings, c)
  {
    forall c ensures ActiveSetting(Commented(settings, i, comment), c) == ActiveSetting(settings, c) {
      SameOpenRowsSameActive(settings, Commented(settings, i, comment), c);
    }
  }

  /** Rewriting the open version leaves exactly one open: the new row, or the same
      row with a new comment. */
  lemma ReplacedKeepsVersions(settings: seq<Setting>, i: nat, s: Scheme, at: int)
    requires VersionsOk(settings) && Editable(settings, i)
    ensures VersionsOk(Replaced(settings, i, s, at))
    ensures ActiveSetting(Replaced(settings, i, s, at), settings[i].company) ==
            Some(if SameRouting(settings[i].scheme, s) then i else |settings|)
    ensures forall c :: c != settings[i].company ==>
              ActiveSetting(Replaced(settings, i, s, at), c) == ActiveSetting(settings, c)
  {
    if SameRouting(settings[i].scheme, s) {
      CommentedKeepsVersions(settings, i, s.comment);
      TheOpenVersion(settings, i);
    } else {
      ClosedKeepsVersions(settings, i, at);
      OpenedKeepsVersions(Closed(settings, i, at), settings[i].company, s, at);
    }
  }

  lemma TheOpenVersion(settings: seq<Setting>, i: nat)
    requires VersionsOk(settings) && Editable(settings, i)
    ensures ActiveSetting(settings, settings[i].company) == Some(i)
  {
  }

  lemma NoActiveNoneActive(settings: seq<Setting>, c: Id)
    requires VersionsOk(settings) && ActiveSetting(settings, c).None?
    ensures forall i :: 0 <= i < |settings| && settings[i].company == c ==> !settings[i].active
  {
  }

  ghost predicate OwnersExist(t: Tables) {
    && (forall i :: 0 <= i < |t.settings| ==> t.settings[i].company < |t.companies|)
    && (forall i :: 0 <= i < |t.events| ==> t.events[i].company < |t.companies|)
  }

  lemma EventKeepsVersions(t: Tables, e: EventInput)
    requires VersionsOk(t.settings) && e.company < |t.companies|
    ensures VersionsOk(SettingsAfterEvent(t, e))
    ensures forall c :: c != e.company ==>
              ActiveSetting(SettingsAfterEvent(t, e), c) == ActiveSetting(t.settings, c)
  {
    var s := EventScheme(t, e);
    match ActiveSetting(t.settings, e.company) {
      case None =>
        NoActiveNoneActive(t.settings, e.company);
        OpenedKeepsVersions(t.settings, e.company, s, e.at);
      case Some(i) =>
        ReplacedKeepsVersions(t.settings, i, s, e.at);
        ClosedKeepsVersions(t.settings, i, e.at);
    }
  }

  lemma EditKeepsVersions(t: Tables, i: nat, comment: string)
    requires VersionsOk(t.settings) && i < |t.events|
    ensures VersionsOk(SettingsAfterEdit(t, i, comment))
    ensures forall c :: ActiveSetting(SettingsAfterEdit(t, i, comment), c) == ActiveSetting(t.settings, c)
  {
    if Reaches(t, i) {
      CommentedKeepsVersions(t.settings, ActiveSetting(t.settings, t.events[i].company).value, comment);
    }
  }

  lemma EffectKeepsOwners(t: Tables, call: Call)
    requires Accepted(t, call) && OwnersExist(t)
    ensures OwnersExist(Effect(t, call))
  {
  }

  lemma EffectKeepsVersions(t: Tables, call: Call)
    requires Accepted(t, call) && VersionsOk(t.settings) && OwnersExist(t)
    ensures VersionsOk(Effect(t, call).settings)
  {
    match call {
      case CreateCompany(c, now) => OpenedKeepsVersions(t.settings, |t.companies|, InitialScheme(c), now);
      case CampaignEvent(e) => EventKeepsVersions(t, e);
      case EditEventComment(i, comment) => EditKeepsVersions(t, i, comment);
      case DeactivateEvent(i, _) =>
      case CreateSetting(c, s, at) =>
        NoActiveNoneActive(t.settings, c);
        OpenedKeepsVersions(t.settings, c, s, at);
      case UpdateSetting(i, s, at) => ReplacedKeepsVersions(t.settings, i, s, at);
      case EditSettingComment(i, comment) => CommentedKeepsVersions(t.settings, i, comment);
      case DeactivateSetting(i, at) => ClosedKeepsVersions(t.settings, i, at);
      case EditCompany(_, _, _, _) =>
      case EditReferences(_, _, _, _) =>
    }
  }

  lemma StepKeepsVersions(t: Tables, call: Call)
    requires VersionsOk(t.settings) && OwnersExist(t)
    ensures VersionsOk(Step(t, call).settings) && OwnersExist(Step(t, call))
  {
    if Accepted(t, call) {
      EffectKeepsVersions(t, call);
      EffectKeepsOwners(t, call);
    }
  }

  /** Every run, administrative edits included, leaves each campaign with at most
      one open version, its last; every other version is closed and inactive. */
  lemma {:induction false} AtMostOneOpenVersion(calls: seq<Call>)
    ensures VersionsOk(Run(EMPTY, calls).settings) && OwnersExist(Run(EMPTY, calls))
  {
    if calls != [] {
      AtMostOneOpenVersion(calls[..|calls| - 1]);
      StepKeepsVersions(Run(EMPTY, calls[..|calls| - 1]), calls[|calls| - 1]);
    }
  }
}
