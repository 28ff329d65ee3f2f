/** Event-driven runs: the settings table is a cache of the event log.

    Here campaign routing is changed by campaign events only (besides the version
    a new company may start with); events may be edited or deactivated, companies
    and reference data may change, at any point. */
module CampaignReplay {
  import opened Common
  import opened CampaignRouting
  import opened CampaignVersions

  /** The campaign's log, replayed from its first event, deactivated events included. */
  function Replay(events: seq<Event>, c: Id, initial: Routing): Routing {
    if events == [] then initial
    else
      var e := events[|events| - 1];
      var before := Replay(events[..|events| - 1], c, initial);
      if e.company == c then Applied(e.change, before) else before
  }

  function Initial(t: Tables, c: Id): Routing
    requires c < |t.companies|
  {
    Routing(None, t.companies[c].initialAuto)
  }

  /** The event recorded the state it found and a different state it left, with the
      modes that belong to them. */
  ghost predicate Recorded(events: seq<Event>, k: nat, initial: Routing)
    requires k < |events|
  {
    var e := events[k];
    && e.before == Replay(events[..k], e.company, initial)
    && e.after == Applied(e.change, e.before)
    && e.after != e.before
    && Follows(e.change, e.before, e.after)
    && ModeFits(e.before, e.beforeMode) && ModeFits(e.after, e.afterMode)
  }

  ghost predicate Chained(events: seq<Event>, c: Id, initial: Routing) {
    forall k :: 0 <= k < |events| && events[k].company == c ==> Recorded(events, k, initial)
  }

  /** The active version is the replay of the log, under the mode that goes with it. */
  ghost predicate Cached(t: Tables, c: Id)
    requires c < |t.companies|
  {
    && Current(t.settings, c) == Replay(t.events, c, Initial(t, c))
    && ModeFits(Current(t.settings, c), CurrentMode(t.settings, c))
    && (ActiveSetting(t.settings, c).Some? ==> NeedsVersion(Current(t.settings, c)))
  }

  ghost predicate Synchronized(t: Tables) {
    && VersionsOk(t.settings) && OwnersExist(t)
    && forall c :: 0 <= c < |t.companies| ==> Cached(t, c) && Chained(t.events, c, Initial(t, c))
  }

  predicate EventDriven(call: Call) {
    call.CreateCompany? || call.CampaignEvent? || call.EditEventComment? || call.DeactivateEvent?
    || call.EditCompany? || call.EditReferences?
  }

  // ----- Properties of replaying -------------------------------------------------

  /** Only owners and change types matter to a replay. */
  lemma {:induction false} ReplayCongruent(a: seq<Event>, b: seq<Event>, c: Id, initial: Routing)
    requires |a| == |b|
    requires forall k :: 0 <= k < |a| ==> a[k].company == b[k].company && a[k].change == b[k].change
    ensures Replay(a, c, initial) == Replay(b, c, initial)
  {
    if a != [] {
      ReplayCongruent(a[..|a| - 1], b[..|b| - 1], c, initial);
    }
  }

  lemma {:induction false} ReplayOfOthers(events: seq<Event>, c: Id, initial: Routing)
    requires forall k :: 0 <= k < |events| ==> events[k].company != c
    ensures Replay(events, c, initial) == initial
  {
    if events != [] {
      ReplayOfOthers(events[..|events| - 1], c, initial);
    }
  }

  /** Appending an event extends the replay by one change. */
  lemma ReplayAppend(events: seq<Event>, e: Event, c: Id, initial: Routing)
    ensures Replay(events + [e], c, initial) ==
            if e.company == c then Applied(e.change, Replay(events, c, initial)) else Replay(events, c, initial)
  {
  }

  lemma ChainedAppend(events: seq<Event>, e: Event, c: Id, initial: Routing)
    requires Chained(events, c, initial)
    requires e.company == c ==> Recorded(events + [e], |events|, initial)
    ensures Chained(events + [e], c, initial)
  {
    var more := events + [e];
    forall k | 0 <= k < |more| && more[k].company == c ensures Recorded(more, k, initial) {
      if k < |events| {
        assert Recorded(events, k, initial);
        assert more[..k] == events[..k];
      }
    }
  }

  /** Rewriting a comment or the active flag of an event leaves the log as it was. */
  lemma ChainedRewrite(events: seq<Event>, i: nat, e: Event, c: Id, initial: Routing)
    requires Chained(events, c, initial) && i < |events|
    requires e == events[i].(comment := e.comment, active := e.active)
    ensures Chained(events[i := e], c, initial)
    ensures Replay(events[i := e], c, initial) == Replay(events, c, initial)
  {
    var other := events[i := e];
    ReplayCongruent(events, other, c, initial);
    forall k | 0 <= k < |other| && other[k].company == c ensures Recorded(other, k, initial) {
      assert Recorded(events, k, initial);
      ReplayCongruent(events[..k], other[..k], c, initial);
    }
  }

  // ----- Every call keeps the cache ------------------------------------------------

  /** An accepted event leaves exactly the routing it announces. */
  lemma EventSetsCurrent(t: Tables, e: EventInput)
    requires VersionsOk(t.settings) && EventAccepted(t, e)
    ensures var after := SettingsAfterEvent(t, e);
            var next := Applied(e.change, Current(t.settings, e.company));
            && Current(after, e.company) == next
            && Follows(e.change, Current(t.settings, e.company), next)
            && ModeFits(next, CurrentMode(after, e.company))
            && (ActiveSetting(after, e.company).Some? <==> next.route.Some? || next.auto)
  {
    var s := EventScheme(t, e);
    match ActiveSetting(t.settings, e.company) {
      case None =>
        NoActiveNoneActive(t.settings, e.company);
        OpenedKeepsVersions(t.settings, e.company, s, e.at);
      case Some(i) =>
        assert !SameRouting(t.settings[i].scheme, s);
        ReplacedKeepsVersions(t.settings, i, s, e.at);
        ClosedKeepsVersions(t.settings, i, e.at);
    }
  }

  /** A campaign other than the event's keeps its version. */
  lemma EventSparesOthers(t: Tables, e: EventInput, c: Id)
    requires VersionsOk(t.settings) && EventAccepted(t, e) && c != e.company
    ensures Current(SettingsAfterEvent(t, e), c) == Current(t.settings, c)
    ensures CurrentMode(SettingsAfterEvent(t, e), c) == CurrentMode(t.settings, c)
    ensures ActiveSetting(SettingsAfterEvent(t, e), c) == ActiveSetting(t.settings, c)
  {
    EventKeepsVersions(t, e);
  }

  lemma EventKeepsCache(t: Tables, e: EventInput, c: Id)
    requires Synchronized(t) && EventAccepted(t, e) && c < |t.companies|
    ensures var after := Effect(t, CampaignEvent(e));
            Cached(after, c) && Chained(after.events, c, Initial(after, c))
  {
    var row := EventRow(t, e);
    assert Cached(t, c) && Chained(t.events, c, Initial(t, c));
    ReplayAppend(t.events, row, c, Initial(t, c));
    assert (t.events + [row])[..|t.events|] == t.events;
    ChainedAppend(t.events, row, c, Initial(t, c));
    if c == e.company {
      EventSetsCurrent(t, e);
    } else {
      EventSparesOthers(t, e, c);
    }
  }

  lemma CommentKeepsCurrent(settings: seq<Setting>, i: nat, comment: string, c: Id)
    requires VersionsOk(settings) && i < |settings|
    ensures Current(Commented(settings, i, comment), c) == Current(settings, c)
    ensures CurrentMode(Commented(settings, i, comment), c) == CurrentMode(settings, c)
    ensures ActiveSetting(Commented(settings, i, comment), c) == ActiveSetting(settings, c)
  {
    CommentedKeepsVersions(settings, i, comment);
  }

  lemma EditKeepsCache(t: Tables, i: nat, comment: string, c: Id)
    requires Synchronized(t) && i < |t.events| && c < |t.companies|
    ensures var after := t.(events := t.events[i := t.events[i].(comment := comment)],
                            settings := SettingsAfterEdit(t, i, comment));
            Cached(after, c) && Chained(after.events, c, Initial(after, c))
  {
    assert Cached(t, c);
    ChainedRewrite(t.events, i, t.events[i].(comment := comment), c, Initial(t, c));
    if Reaches(t, i) {
      CommentKeepsCurrent(t.settings, ActiveSetting(t.settings, t.events[i].company).value, comment, c);
    }
  }

  lemma CreateKeepsCache(t: Tables, company: Company, now: int, c: Id)
    requires Synchronized(t) && c <= |t.companies|
    ensures var after := t.(companies := t.companies + [company],
                            settings := if company.initialAuto
                                        then Opened(t.settings, |t.companies|, InitialScheme(company), now)
                                        else t.settings);
            Cached(after, c) && Chained(after.events, c, Initial(after, c))
  {
    OpenedKeepsVersions(t.settings, |t.companies|, InitialScheme(company), now);
    if c == |t.companies| {
      ReplayOfOthers(t.events, c, Routing(None, company.initialAuto));
    } else {
      assert Cached(t, c) && Chained(t.events, c, Initial(t, c));
    }
  }

  lemma StepKeepsSynchronized(t: Tables, call: Call)
    requires Synchronized(t) && EventDriven(call)
    ensures Synchronized(Step(t, call))
  {
    StepKeepsVersions(t, call);
    var after := Step(t, call);
    if Accepted(t, call) {
      forall c | 0 <= c < |after.companies|
        ensures Cached(after, c) && Chained(after.events, c, Initial(after, c))
      {
        EffectKeepsCache(t, call, c);
      }
    }
  }

  lemma EffectKeepsCache(t: Tables, call: Call, c: Id)
    requires Synchronized(t) && EventDriven(call) && Accepted(t, call) && c < |Effect(t, call).companies|
    ensures Cached(Effect(t, call), c) && Chained(Effect(t, call).events, c, Initial(Effect(t, call), c))
  {
    match call {
      case CreateCompany(company, now) => CreateKeepsCache(t, company, now, c);
      case CampaignEvent(e) => EventKeepsCache(t, e, c);
      case EditEventComment(i, comment) => EditKeepsCache(t, i, comment, c);
      case DeactivateEvent(i, _) =>
        assert Cached(t, c);
        ChainedRewrite(t.events, i, t.events[i].(active := false), c, Initial(t, c));
      case EditCompany(_, _, _, _) => assert Cached(t, c) && Chained(t.events, c, Initial(t, c));
      case EditReferences(_, _, _, _) => assert Cached(t, c) && Chained(t.events, c, Initial(t, c));
    }
  }

  ghost predicate AllEventDriven(calls: seq<Call>) {
    forall k :: 0 <= k < |calls| ==> EventDriven(calls[k])
  }

  /** At the end of every event-driven run each campaign's active version (or its
      absence) is the replay of the campaign's whole log. */
  lemma {:induction false} SettingsReplayTheLog(calls: seq<Call>)
    requires AllEventDriven(calls)
    ensures Synchronized(Run(EMPTY, calls))
  {
    if calls != [] {
      SettingsReplayTheLog(calls[..|calls| - 1]);
      StepKeepsSynchronized(Run(EMPTY, calls[..|calls| - 1]), calls[|calls| - 1]);
    }
  }

  /** There is an active version exactly when the replay asks for one. */
  lemma ActiveIffReplayNeedsVersion(t: Tables, c: Id)
    requires Synchronized(t) && c < |t.companies|
    ensures var r := Replay(t.events, c, Initial(t, c));
            ActiveSetting(t.settings, c).Some? <==> r.route.Some? || r.auto
  {
    assert Cached(t, c);
  }

  // ----- What the log looks like ---------------------------------------------------

  ghost predicate NoneBetween(events: seq<Event>, c: Id, i: nat, j: nat) {
    forall k :: i < k < j && k < |events| ==> events[k].company != c
  }

  lemma {:induction false} ReplayAcrossOthers(events: seq<Event>, c: Id, i: nat, j: nat, initial: Routing)
    requires i < j <= |events| && events[i].company == c && NoneBetween(events, c, i, j)
    ensures Replay(events[..j], c, initial) == Applied(events[i].change, Replay(events[..i], c, initial))
  {
    assert events[..j][..j - 1] == events[..j - 1];
    if i + 1 < j {
      ReplayAcrossOthers(events, c, i, j - 1, initial);
    }
  }

  /** Consecutive events of a campaign: each starts from the state its predecessor
      recorded as new, under the predecessor's mode. */
  lemma OldStateIsPreviousNewState(t: Tables, c: Id, i: nat, j: nat)
    requires Synchronized(t) && c < |t.companies|
    requires i < j < |t.events| && t.events[i].company == c && t.events[j].company == c
    requires NoneBetween(t.events, c, i, j)
    ensures t.events[j].before == t.events[i].after && t.events[j].beforeMode == t.events[i].afterMode
  {
    assert Chained(t.events, c, Initial(t, c));
    assert Recorded(t.events, i, Initial(t, c)) && Recorded(t.events, j, Initial(t, c));
    ReplayAcrossOthers(t.events, c, i, j, Initial(t, c));
  }

  /** The last event of a campaign describes the routing in force. */
  lemma {:induction false} LastEventIsCurrent(t: Tables, c: Id, i: nat)
    requires Synchronized(t) && c < |t.companies|
    requires i < |t.events| && t.events[i].company == c && NoneBetween(t.events, c, i, |t.events|)
    ensures Current(t.settings, c) == t.events[i].after && CurrentMode(t.settings, c) == t.events[i].afterMode
  {
    assert Cached(t, c) && Recorded(t.events, i, Initial(t, c));
    assert t.events[..|t.events|] == t.events;
    ReplayAcrossOthers(t.events, c, i, |t.events|, Initial(t, c));
  }

  predicate SwitchesTo(e: Event, c: Id, auto: bool) {
    e.company == c && e.change == (if auto then EnableAutorotation else DisableAutorotation)
  }

  /** Without the opposite switch in between, autorotation stays as it was set. */
  lemma {:induction false} SwitchHolds(events: seq<Event>, c: Id, i: nat, j: nat, auto: bool, initial: Routing)
    requires i < j <= |events| && SwitchesTo(events[i], c, auto)
    requires forall k :: i < k < j ==> !SwitchesTo(events[k], c, !auto)
    ensures Replay(events[..j], c, initial).auto == auto
  {
    assert events[..j][..j - 1] == events[..j - 1];
    if i + 1 < j {
      SwitchHolds(events, c, i, j - 1, auto, initial);
    }
  }

  /** Enabling and disabling autorotation strictly alternate in every campaign's log. */
  lemma SwitchesAlternate(t: Tables, c: Id, i: nat, j: nat, auto: bool)
    requires Synchronized(t) && c < |t.companies|
    requires i < j < |t.events| && SwitchesTo(t.events[i], c, auto) && SwitchesTo(t.events[j], c, auto)
    ensures exists k :: i < k < j && SwitchesTo(t.events[k], c, !auto)
  {
    assert Recorded(t.events, j, Initial(t, c));
    if forall k :: i < k < j ==> !SwitchesTo(t.events[k], c, !auto) {
      SwitchHolds(t.events, c, i, j, auto, Initial(t, c));
      assert false;
    }
  }
}
