/** Validity intervals of a campaign's versions, and when they stay in order. */
module CampaignTimeline {
  import opened Common
  import opened CampaignRouting
  import opened CampaignVersions

  /** The campaign's intervals are well formed, pairwise disjoint and ordered. */
  ghost predicate Timeline(settings: seq<Setting>, c: Id) {
    && (forall i :: 0 <= i < |settings| && settings[i].company == c ==> WellFormed(settings[i]))
    && (forall i, j :: 0 <= i < j < |settings| && settings[i].company == c && settings[j].company == c
          ==> Precedes(settings[i], settings[j]))
  }

  ghost predicate WellFormed(s: Setting) {
    s.to.Some? ==> s.from <= s.to.value
  }

  ghost predicate Precedes(s: Setting, later: Setting) {
    s.to.Some? && s.to.value <= later.from
  }

  /** The latest instant written for the campaign. */
  function LastBoundary(settings: seq<Setting>, c: Id): Option<int> {
    if settings == [] then None
    else
      var s := settings[|settings| - 1];
      if s.company == c then Some(if s.to.Some? then s.to.value else s.from)
      else LastBoundary(settings[..|settings| - 1], c)
  }

  /** The instant is not before anything already written for the campaign. */
  predicate NotBackdated(settings: seq<Setting>, c: Id, at: int) {
    var b := LastBoundary(settings, c);
    b.Some? ==> b.value <= at
  }

  lemma {:induction false} LastBoundaryIsOfLastRow(settings: seq<Setting>, c: Id)
    ensures LastBoundary(settings, c).None? <==> forall i :: 0 <= i < |settings| ==> settings[i].company != c
    ensures LastBoundary(settings, c).Some? ==>
              exists i :: 0 <= i < |settings| && LastRow(settings, c, i)
                          && LastBoundary(settings, c).value ==
                             (if settings[i].to.Some? then settings[i].to.value else settings[i].from)
  {
    if settings != [] {
      var n := |settings| - 1;
      if settings[n].company == c {
        assert LastRow(settings, c, n);
      } else {
        LastBoundaryIsOfLastRow(settings[..n], c);
        if LastBoundary(settings[..n], c).Some? {
          var i :| 0 <= i < n && LastRow(settings[..n], c, i)
                   && LastBoundary(settings[..n], c).value ==
                      (if settings[..n][i].to.Some? then settings[..n][i].to.value else settings[..n][i].from);
          assert LastRow(settings, c, i);
        }
      }
    }
  }

  ghost predicate LastRow(settings: seq<Setting>, c: Id, i: nat) {
    && i < |settings| && settings[i].company == c
    && forall j :: i < j < |settings| ==> settings[j].company != c
  }

  lemma RowsOfOthersDoNotMatter(a: seq<Setting>, b: seq<Setting>, c: Id)
    requires |a| <= |b|
    requires forall i :: 0 <= i < |a| ==> (a[i].company == c <==> b[i].company == c)
    requires forall i :: 0 <= i < |a| && a[i].company == c ==> a[i].from == b[i].from && a[i].to == b[i].to
    requires forall i :: |a| <= i < |b| ==> b[i].company != c
    ensures Timeline(a, c) <==> Timeline(b, c)
  {
  }

  /** Opening a first or later version keeps the order exactly when its instant is
      not before the campaign's last one. */
  lemma OpenedTimeline(settings: seq<Setting>, c: Id, s: Scheme, at: int)
    requires VersionsOk(settings) && Timeline(settings, c)
    requires forall i :: 0 <= i < |settings| && settings[i].company == c ==> !settings[i].active
    ensures Timeline(Opened(settings, c, s, at), c) <==> NotBackdated(settings, c, at)
    ensures LastBoundary(Opened(settings, c, s, at), c) == Some(at)
  {
    var more := Opened(settings, c, s, at);
    var n := |settings|;
    LastBoundaryIsOfLastRow(settings, c);
    if Timeline(more, c) && LastBoundary(settings, c).Some? {
      var i :| 0 <= i < n && LastRow(settings, c, i);
      assert Precedes(more[i], more[n]);
    }
    if NotBackdated(settings, c, at) {
      forall i, j | 0 <= i < j < |more| && more[i].company == c && more[j].company == c
        ensures Precedes(more[i], more[j])
      {
        if j < n {
          assert Precedes(settings[i], settings[j]);
        } else {
          var k :| 0 <= k < n && LastRow(settings, c, k);
          assert WellFormed(settings[k]);
          if i != k {
            assert i < k;
            assert Precedes(settings[i], settings[k]);
          }
        }
      }
      forall i | 0 <= i < |more| && more[i].company == c ensures WellFormed(more[i]) {
        if i < n { assert WellFormed(settings[i]); }
      }
    }
  }

  lemma ClosedTimeline(settings: seq<Setting>, i: nat, at: int)
    requires VersionsOk(settings) && Editable(settings, i) && Timeline(settings, settings[i].company)
    ensures Timeline(Closed(settings, i, at), settings[i].company) <==>
            NotBackdated(settings, settings[i].company, at)
    ensures LastBoundary(Closed(settings, i, at), settings[i].company) == Some(at)
  {
    var c := settings[i].company;
    var less := Closed(settings, i, at);
    LastBoundaryIsOfLastRow(settings, c);
    LastBoundaryIsOfLastRow(less, c);
    assert LastRow(settings, c, i) && LastRow(less, c, i);
    if Timeline(less, c) {
      assert WellFormed(less[i]);
    }
    if NotBackdated(settings, c, at) {
      forall k, j | 0 <= k < j < |less| && less[k].company == c && less[j].company == c
        ensures Precedes(less[k], less[j])
      {
        assert Precedes(settings[k], settings[j]);
      }
      forall k | 0 <= k < |less| && less[k].company == c ensures WellFormed(less[k]) {
        if k != i { assert WellFormed(settings[k]); }
      }
    }
  }

  /** Closing and reopening at one instant: only that instant matters. */
  lemma ReplacedTimeline(settings: seq<Setting>, i: nat, s: Scheme, at: int)
    requires VersionsOk(settings) && Editable(settings, i) && Timeline(settings, settings[i].company)
    requires !SameRouting(settings[i].scheme, s)
    ensures Timeline(Replaced(settings, i, s, at), settings[i].company) <==>
            NotBackdated(settings, settings[i].company, at)
  {
    var c := settings[i].company;
    var closed := Closed(settings, i, at);
    ClosedTimeline(settings, i, at);
    ClosedKeepsVersions(settings, i, at);
    if Timeline(closed, c) {
      OpenedTimeline(closed, c, s, at);
    } else if Timeline(Opened(closed, c, s, at), c) {
      TimelineOfPrefix(closed, Opened(closed, c, s, at), c);
    }
  }

  lemma TimelineOfPrefix(a: seq<Setting>, b: seq<Setting>, c: Id)
    requires a <= b && Timeline(b, c)
    ensures Timeline(a, c)
  {
  }

  /** The instant a call writes into the campaign's version table, if it does. */
  function Written(t: Tables, call: Call, c: Id): Option<int> {
    match call
    case CreateCompany(company, now) => if company.initialAuto && c == |t.companies| then Some(now) else None
    case CampaignEvent(e) => if e.company == c then Some(e.at) else None
    case CreateSetting(company, _, at) => if company == c then Some(at) else None
    case UpdateSetting(i, s, at) =>
      if i < |t.settings| && t.settings[i].company == c && !SameRouting(t.settings[i].scheme, s)
      then Some(at) else None
    case DeactivateSetting(i, at) => if i < |t.settings| && t.settings[i].company == c then Some(at) else None
    case _ => None
  }

  /** An accepted event always writes: it changes the routing in force. */
  lemma EventTimeline(t: Tables, e: EventInput, c: Id)
    requires VersionsOk(t.settings) && EventAccepted(t, e) && Timeline(t.settings, c)
    ensures Timeline(SettingsAfterEvent(t, e), c) <==> (c == e.company ==> NotBackdated(t.settings, c, e.at))
  {
    var s := EventScheme(t, e);
    match ActiveSetting(t.settings, e.company) {
      case None =>
        NoActiveNoneActive(t.settings, e.company);
        assert NeedsVersion(s.routing);
        if c == e.company {
          OpenedTimeline(t.settings, c, s, e.at);
        } else {
          RowsOfOthersDoNotMatter(t.settings, SettingsAfterEvent(t, e), c);
        }
      case Some(i) =>
        assert !SameRouting(t.settings[i].scheme, s);
        if c == e.company {
          ReplacedTimeline(t.settings, i, s, e.at);
          ClosedTimeline(t.settings, i, e.at);
        } else {
          RowsOfOthersDoNotMatter(t.settings, SettingsAfterEvent(t, e), c);
        }
    }
  }

  lemma CommentKeepsTimeline(settings: seq<Setting>, i: nat, comment: string, c: Id)
    requires i < |settings|
    ensures Timeline(Commented(settings, i, comment), c) <==> Timeline(settings, c)
  {
    RowsOfOthersDoNotMatter(settings, Commented(settings, i, comment), c);
  }

  lemma UpdateTimeline(settings: seq<Setting>, i: nat, s: Scheme, at: int, c: Id)
    requires VersionsOk(settings) && Editable(settings, i) && Timeline(settings, c)
    ensures Timeline(Replaced(settings, i, s, at), c) <==>
            (settings[i].company == c && !SameRouting(settings[i].scheme, s) ==> NotBackdated(settings, c, at))
  {
    if SameRouting(settings[i].scheme, s) {
      CommentKeepsTimeline(settings, i, s.comment, c);
    } else if settings[i].company == c {
      ReplacedTimeline(settings, i, s, at);
    } else {
      RowsOfOthersDoNotMatter(settings, Replaced(settings, i, s, at), c);
    }
  }

  /** Intervals stay disjoint and ordered under a call exactly when the instant it
      writes for the campaign (if any) is not before the last one written. */
  lemma TimelineKeptIff(t: Tables, call: Call, c: Id)
    requires VersionsOk(t.settings) && OwnersExist(t) && Accepted(t, call) && Timeline(t.settings, c)
    ensures Timeline(Effect(t, call).settings, c) <==>
            (Written(t, call, c).Some? ==> NotBackdated(t.settings, c, Written(t, call, c).value))
  {
    match call {
      case CreateCompany(company, now) =>
        if company.initialAuto {
          if c == |t.companies| {
            OpenedTimeline(t.settings, c, InitialScheme(company), now);
          } else {
            RowsOfOthersDoNotMatter(t.settings, Effect(t, call).settings, c);
          }
        }
      case CampaignEvent(e) => EventTimeline(t, e, c);
      case EditEventComment(i, comment) =>
        if Reaches(t, i) {
          CommentKeepsTimeline(t.settings, ActiveSetting(t.settings, t.events[i].company).value, comment, c);
        }
      case DeactivateEvent(_, _) =>
      case CreateSetting(company, s, at) =>
        NoActiveNoneActive(t.settings, company);
        if c == company {
          OpenedTimeline(t.settings, c, s, at);
        } else {
          RowsOfOthersDoNotMatter(t.settings, Effect(t, call).settings, c);
        }
      case UpdateSetting(i, s, at) => UpdateTimeline(t.settings, i, s, at, c);
      case EditSettingComment(i, comment) => CommentKeepsTimeline(t.settings, i, comment, c);
      case DeactivateSetting(i, at) =>
        if t.settings[i].company == c {
          ClosedTimeline(t.settings, i, at);
        } else {
          RowsOfOthersDoNotMatter(t.settings, Effect(t, call).settings, c);
        }
      case EditCompany(_, _, _, _) =>
      case EditReferences(_, _, _, _) =>
    }
  }

  /** The order is lost as soon as a version is closed at an instant before the one it was
      opened at: a campaign created at 10 and deactivated as of 5. */
  lemma BackdatedCloseLosesOrder(c: Company)
    requires Rotating(c)
    ensures Timeline(Run(EMPTY, Opening(c)).settings, 0)
    ensures Accepted(Run(EMPTY, Opening(c)), DeactivateSetting(0, 5))
    ensures !Timeline(Run(EMPTY, Opening(c) + [DeactivateSetting(0, 5)]).settings, 0)
  {
    OpeningState(c);
    RunOfOneMore(EMPTY, Opening(c), DeactivateSetting(0, 5));
    assert !WellFormed(Run(EMPTY, Opening(c) + [DeactivateSetting(0, 5)]).settings[0]);
  }

  // ----- Whole runs --------------------------------------------------------------

  function Instant(call: Call): Option<int> {
    match call
    case CreateCompany(_, now) => Some(now)
    case CampaignEvent(e) => Some(e.at)
    case CreateSetting(_, _, at) => Some(at)
    case UpdateSetting(_, _, at) => Some(at)
    case DeactivateSetting(_, at) => Some(at)
    case _ => None
  }

  /** The effective instants of the calls never go back. */
  ghost predicate InOrder(calls: seq<Call>) {
    forall i, j :: 0 <= i < j < |calls| && Instant(calls[i]).Some? && Instant(calls[j]).Some?
      ==> Instant(calls[i]).value <= Instant(calls[j]).value
  }

  ghost predicate InstantsUpTo(calls: seq<Call>, bound: int) {
    forall i :: 0 <= i < |calls| && Instant(calls[i]).Some? ==> Instant(calls[i]).value <= bound
  }

  ghost predicate RowsUpTo(settings: seq<Setting>, bound: int) {
    forall i :: 0 <= i < |settings| ==> RowUpTo(settings[i], bound)
  }

  ghost predicate RowUpTo(s: Setting, bound: int) {
    s.from <= bound && (s.to.Some? ==> s.to.value <= bound)
  }

  lemma EffectRowsUpTo(t: Tables, call: Call, bound: int)
    requires Accepted(t, call) && RowsUpTo(t.settings, bound)
    requires Instant(call).Some? ==> Instant(call).value <= bound
    ensures RowsUpTo(Effect(t, call).settings, bound)
  {
  }

  lemma {:induction false} RunRowsUpTo(calls: seq<Call>, bound: int)
    requires InstantsUpTo(calls, bound)
    ensures RowsUpTo(Run(EMPTY, calls).settings, bound)
  {
    if calls != [] {
      var n := |calls| - 1;
      RunRowsUpTo(calls[..n], bound);
      if Accepted(Run(EMPTY, calls[..n]), calls[n]) {
        EffectRowsUpTo(Run(EMPTY, calls[..n]), calls[n], bound);
      }
    }
  }

  lemma RowsUpToNotBackdated(settings: seq<Setting>, c: Id, bound: int)
    requires RowsUpTo(settings, bound)
    ensures NotBackdated(settings, c, bound)
  {
    LastBoundaryIsOfLastRow(settings, c);
    if LastBoundary(settings, c).Some? {
      var i :| 0 <= i < |settings| && LastRow(settings, c, i) && LastBoundary(settings, c).value ==
               (if settings[i].to.Some? then settings[i].to.value else settings[i].from);
      assert RowUpTo(settings[i], bound);
    }
  }

  /** When effective instants never go back, the validity intervals of every
      campaign are pairwise disjoint and ordered at the end of every run. */
  lemma {:induction false} OrderedCallsOrderedIntervals(calls: seq<Call>, c: Id)
    requires InOrder(calls)
    ensures Timeline(Run(EMPTY, calls).settings, c)
  {
    if calls != [] {
      var n := |calls| - 1;
      var t := Run(EMPTY, calls[..n]);
      OrderedCallsOrderedIntervals(calls[..n], c);
      AtMostOneOpenVersion(calls[..n]);
      if Accepted(t, calls[n]) {
        if Instant(calls[n]).Some? {
          RunRowsUpTo(calls[..n], Instant(calls[n]).value);
          RowsUpToNotBackdated(t.settings, c, Instant(calls[n]).value);
        }
        TimelineKeptIff(t, calls[n], c);
      }
    }
  }

  // ----- Hand-over and history ---------------------------------------------------

  /** Whenever a call moves a campaign from one open version to another, the old
      version closes at exactly the instant the new one opens. */
  lemma VersionChangeHandsOver(t: Tables, call: Call, c: Id)
    requires VersionsOk(t.settings) && OwnersExist(t)
    requires ActiveSetting(t.settings, c).Some? && ActiveSetting(Step(t, call).settings, c).Some?
    requires ActiveSetting(t.settings, c) != ActiveSetting(Step(t, call).settings, c)
    ensures var i := ActiveSetting(t.settings, c).value;
            var after := Step(t, call).settings;
            var k := ActiveSetting(after, c).value;
            i < k && after[i].to == Some(after[k].from)
  {
    assert Accepted(t, call);
    match call {
      case CreateCompany(company, now) => OpenedKeepsVersions(t.settings, |t.companies|, InitialScheme(company), now);
      case CampaignEvent(e) => EventHandsOver(t, e, c);
      case EditEventComment(i, comment) => EditKeepsVersions(t, i, comment);
      case CreateSetting(company, s, at) =>
        NoActiveNoneActive(t.settings, company);
        OpenedKeepsVersions(t.settings, company, s, at);
      case UpdateSetting(i, s, at) =>
        TheOpenVersion(t.settings, i);
        ReplacedKeepsVersions(t.settings, i, s, at);
      case EditSettingComment(i, comment) => CommentedKeepsVersions(t.settings, i, comment);
      case DeactivateSetting(i, at) => ClosedKeepsVersions(t.settings, i, at);
      case _ =>
    }
  }

  lemma EventHandsOver(t: Tables, e: EventInput, c: Id)
    requires VersionsOk(t.settings) && e.company < |t.companies|
    requires ActiveSetting(t.settings, c).Some? && ActiveSetting(SettingsAfterEvent(t, e), c).Some?
    requires ActiveSetting(t.settings, c) != ActiveSetting(SettingsAfterEvent(t, e), c)
    ensures var i := ActiveSetting(t.settings, c).value;
            var after := SettingsAfterEvent(t, e);
            var k := ActiveSetting(after, c).value;
            i < k && after[i].to == Some(after[k].from)
  {
  }

  /** No call rewrites a closed version, removes one, or moves one to another campaign. */
  lemma ClosedVersionsAreImmutable(t: Tables, call: Call, i: nat)
    requires i < |t.settings|
    ensures i < |Step(t, call).settings|
    ensures Step(t, call).settings[i].company == t.settings[i].company
    ensures !Editable(t.settings, i) ==> Step(t, call).settings[i] == t.settings[i]
  {
  }
}
