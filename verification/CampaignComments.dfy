/** The comment of the active version follows the comment of the last event. */
module CampaignComments {
  import opened Common
  import opened CampaignRouting
  import opened CampaignVersions
  import opened CampaignReplay

  /** The campaign's last event. */
  function LastEvent(events: seq<Event>, c: Id): (r: Option<nat>)
    ensures r.Some? ==> r.value < |events| && events[r.value].company == c && NoneBetween(events, c, r.value, |events|)
    ensures r.None? ==> forall k :: 0 <= k < |events| ==> events[k].company != c
  {
    if events == [] then None
    else if events[|events| - 1].company == c then Some(|events| - 1)
    else LastEvent(events[..|events| - 1], c)
  }

  ghost predicate Agrees(t: Tables, c: Id) {
    var active, last := ActiveSetting(t.settings, c), LastEvent(t.events, c);
    active.Some? && last.Some? ==> t.settings[active.value].scheme.comment == t.events[last.value].comment
  }

  lemma SameOwnersSameLast(a: seq<Event>, b: seq<Event>, c: Id)
    requires |a| == |b| && forall k :: 0 <= k < |a| ==> a[k].company == b[k].company
    ensures LastEvent(a, c) == LastEvent(b, c)
  {
  }

  /** Comment edits change nothing but comments: not the owner, instants or status
      of any version, not its route, mode or autorotation, and nothing of any event. */
  lemma EditsTouchOnlyComments(t: Tables, call: Call)
    requires call.EditEventComment? || call.EditSettingComment?
    ensures var after := Step(t, call);
            && |after.settings| == |t.settings| && |after.events| == |t.events|
            && (forall i :: 0 <= i < |t.settings| ==>
                  after.settings[i] == t.settings[i].(scheme :=
                    t.settings[i].scheme.(comment := after.settings[i].scheme.comment)))
            && (forall i :: 0 <= i < |t.events| ==>
                  after.events[i] == t.events[i].(comment := after.events[i].comment))
            && after == t.(settings := after.settings, events := after.events)
  {
  }

  // ----- One edit ------------------------------------------------------------------

  /** Read before the edit: an edit of the last event needs no later active event
      (it may be backdated); an edit of an earlier event must be shadowed by a later
      active event, describe another routing, or say what the last event says. */
  predicate EditIsSafe(t: Tables, i: nat, comment: string)
    requires i < |t.events|
  {
    match LastEvent(t.events, t.events[i].company)
    case None => true
    case Some(last) =>
      if i == last then !HasLaterActive(t.events, i)
      else HasLaterActive(t.events, i) || t.events[i].after != t.events[last].after
           || comment == t.events[last].comment
  }

  /** An edit of a campaign with an active version keeps the agreement exactly when
      it is safe. */
  lemma EditKeepsAgreementIff(t: Tables, i: nat, comment: string)
    requires Synchronized(t) && Accepted(t, EditEventComment(i, comment)) && comment != t.events[i].comment
    requires ActiveSetting(t.settings, t.events[i].company).Some? && Agrees(t, t.events[i].company)
    ensures Agrees(Effect(t, EditEventComment(i, comment)), t.events[i].company) <==> EditIsSafe(t, i, comment)
  {
    var c := t.events[i].company;
    var after := Effect(t, EditEventComment(i, comment));
    var last := LastEvent(t.events, c);
    SameOwnersSameLast(t.events, after.events, c);
    EditKeepsVersions(t, i, comment);
    LastEventIsCurrent(t, c, last.value);
    assert Chained(t.events, c, Initial(t, c));
    assert Recorded(t.events, i, Initial(t, c)) && Recorded(t.events, last.value, Initial(t, c));
    assert Reaches(t, i) <==> !HasLaterActive(t.events, i) && t.events[i].after == t.events[last.value].after;
  }

  /** An edit does not reach the campaigns of other events. */
  lemma EditSparesOthers(t: Tables, i: nat, comment: string, c: Id)
    requires VersionsOk(t.settings) && Accepted(t, EditEventComment(i, comment)) && c != t.events[i].company
    ensures Agrees(Effect(t, EditEventComment(i, comment)), c) <==> Agrees(t, c)
  {
    SameOwnersSameLast(t.events, Effect(t, EditEventComment(i, comment)).events, c);
    EditKeepsVersions(t, i, comment);
  }

  /** With no active version there is nothing to disagree. */
  lemma EditWithoutVersion(t: Tables, i: nat, comment: string)
    requires VersionsOk(t.settings) && Accepted(t, EditEventComment(i, comment))
    requires ActiveSetting(t.settings, t.events[i].company).None?
    ensures Agrees(Effect(t, EditEventComment(i, comment)), t.events[i].company)
  {
  }

  // ----- Runs in order and without deactivation --------------------------------------

  ghost predicate LogInOrder(events: seq<Event>) {
    && (forall i :: 0 <= i < |events| ==> events[i].active)
    && (forall i, j :: 0 <= i < j < |events| ==> events[i].at <= events[j].at)
  }

  lemma InOrderEditsAreSafe(t: Tables, i: nat, comment: string)
    requires LogInOrder(t.events) && i < |t.events|
    ensures EditIsSafe(t, i, comment)
  {
  }

  /** The active version, if there is one, has this comment. */
  ghost predicate Shows(settings: seq<Setting>, c: Id, comment: string) {
    ActiveSetting(settings, c).Some? ==> settings[ActiveSetting(settings, c).value].scheme.comment == comment
  }

  lemma OpenedShows(settings: seq<Setting>, c: Id, s: Scheme, at: int)
    requires VersionsOk(settings) && ActiveSetting(settings, c).None?
    ensures Shows(Opened(settings, c, s, at), c, s.comment)
  {
    NoActiveNoneActive(settings, c);
    OpenedKeepsVersions(settings, c, s, at);
  }

  lemma ReplacedShows(settings: seq<Setting>, i: nat, s: Scheme, at: int)
    requires VersionsOk(settings) && Editable(settings, i) && !SameRouting(settings[i].scheme, s)
    ensures Shows(Replaced(settings, i, s, at), settings[i].company, s.comment)
  {
    ReplacedKeepsVersions(settings, i, s, at);
  }

  lemma ClosedShows(settings: seq<Setting>, i: nat, at: int, comment: string)
    requires VersionsOk(settings) && Editable(settings, i)
    ensures Shows(Closed(settings, i, at), settings[i].company, comment)
  {
    ClosedKeepsVersions(settings, i, at);
  }

  /** An accepted event changes the routing, so the version it leaves is a new one. */
  lemma EventChangesScheme(t: Tables, e: EventInput, i: nat)
    requires EventAccepted(t, e) && ActiveSetting(t.settings, e.company) == Some(i)
    ensures !SameRouting(t.settings[i].scheme, EventScheme(t, e))
  {
  }

  lemma EventShows(t: Tables, e: EventInput)
    requires VersionsOk(t.settings) && EventAccepted(t, e)
    ensures Shows(SettingsAfterEvent(t, e), e.company, e.comment)
  {
    var s := EventScheme(t, e);
    match ActiveSetting(t.settings, e.company) {
      case None => OpenedShows(t.settings, e.company, s, e.at);
      case Some(i) =>
        EventChangesScheme(t, e, i);
        ReplacedShows(t.settings, i, s, e.at);
        ClosedShows(t.settings, i, e.at, e.comment);
    }
  }

  lemma LastEventAfter(events: seq<Event>, row: Event, c: Id)
    ensures LastEvent(events + [row], c) == if row.company == c then Some(|events|) else LastEvent(events, c)
  {
    assert (events + [row])[..|events|] == events;
  }

  lemma EventSparesComment(t: Tables, e: EventInput, c: Id)
    requires VersionsOk(t.settings) && EventAccepted(t, e) && Agrees(t, c) && c != e.company
    ensures Agrees(Effect(t, CampaignEvent(e)), c)
  {
    LastEventAfter(t.events, EventRow(t, e), c);
    EventKeepsVersions(t, e);
    if ActiveSetting(t.settings, c).Some? {
      EventKeepsRow(t, e, ActiveSetting(t.settings, c).value);
    }
  }

  lemma EventKeepsRow(t: Tables, e: EventInput, j: nat)
    requires EventAccepted(t, e) && j < |t.settings| && t.settings[j].company != e.company
    ensures j < |SettingsAfterEvent(t, e)| && SettingsAfterEvent(t, e)[j] == t.settings[j]
  {
  }

  /** Every accepted event brings its own comment into force. */
  lemma EventBringsComment(t: Tables, e: EventInput, c: Id)
    requires VersionsOk(t.settings) && EventAccepted(t, e) && Agrees(t, c)
    ensures Agrees(Effect(t, CampaignEvent(e)), c)
  {
    if c != e.company {
      EventSparesComment(t, e, c);
    } else {
      LastEventAfter(t.events, EventRow(t, e), c);
      EventShows(t, e);
    }
  }

  lemma CreateKeepsAgreement(t: Tables, company: Company, now: int, c: Id)
    requires VersionsOk(t.settings) && OwnersExist(t)
    requires Accepted(t, CreateCompany(company, now)) && Agrees(t, c)
    ensures Agrees(Effect(t, CreateCompany(company, now)), c)
  {
  }

  lemma StepKeepsAgreement(t: Tables, call: Call, c: Id)
    requires Synchronized(t) && EventDriven(call) && !call.DeactivateEvent?
    requires LogInOrder(t.events) && Agrees(t, c)
    ensures Agrees(Step(t, call), c)
  {
    if Accepted(t, call) {
      match call {
        case CreateCompany(company, now) => CreateKeepsAgreement(t, company, now, c);
        case CampaignEvent(e) => EventBringsComment(t, e, c);
        case EditEventComment(i, comment) =>
          if c != t.events[i].company {
            EditSparesOthers(t, i, comment, c);
          } else if ActiveSetting(t.settings, c).None? {
            EditWithoutVersion(t, i, comment);
          } else if comment != t.events[i].comment {
            InOrderEditsAreSafe(t, i, comment);
            EditKeepsAgreementIff(t, i, comment);
          }
        case EditCompany(_, _, _, _) =>
        case EditReferences(_, _, _, _) =>
      }
    }
  }

  /** Event times never go back, and no event is deactivated. */
  ghost predicate OrderlyEvents(calls: seq<Call>) {
    && AllEventDriven(calls)
    && (forall k :: 0 <= k < |calls| ==> !calls[k].DeactivateEvent?)
    && (forall i, j :: 0 <= i < j < |calls| && calls[i].CampaignEvent? && calls[j].CampaignEvent?
          ==> calls[i].input.at <= calls[j].input.at)
  }

  ghost predicate EventsUpTo(events: seq<Event>, bound: int) {
    forall i :: 0 <= i < |events| ==> events[i].at <= bound
  }

  lemma {:induction false} RunEventsUpTo(calls: seq<Call>, bound: int)
    requires forall i :: 0 <= i < |calls| && calls[i].CampaignEvent? ==> calls[i].input.at <= bound
    ensures EventsUpTo(Run(EMPTY, calls).events, bound)
  {
    if calls != [] {
      RunEventsUpTo(calls[..|calls| - 1], bound);
      EventsUpToStep(Run(EMPTY, calls[..|calls| - 1]), calls[|calls| - 1], bound);
    }
  }

  lemma EventsUpToStep(t: Tables, call: Call, bound: int)
    requires EventsUpTo(t.events, bound) && (call.CampaignEvent? ==> call.input.at <= bound)
    ensures EventsUpTo(Step(t, call).events, bound)
  {
  }

  lemma LogInOrderStep(t: Tables, call: Call)
    requires LogInOrder(t.events) && !call.DeactivateEvent?
    requires call.CampaignEvent? ==> EventsUpTo(t.events, call.input.at)
    ensures LogInOrder(Step(t, call).events)
  {
  }

  /** At the end of every orderly run, and so after any sequence of comment edits, a
      campaign with an event and an active version shows its last event's comment. */
  lemma {:induction false} ActiveCommentIsLastEvents(calls: seq<Call>, c: Id)
    requires OrderlyEvents(calls)
    ensures Synchronized(Run(EMPTY, calls)) && LogInOrder(Run(EMPTY, calls).events)
    ensures Agrees(Run(EMPTY, calls), c)
  {
    SettingsReplayTheLog(calls);
    if calls != [] {
      var n := |calls| - 1;
      var t := Run(EMPTY, calls[..n]);
      ActiveCommentIsLastEvents(calls[..n], c);
      if calls[n].CampaignEvent? {
        RunEventsUpTo(calls[..n], calls[n].input.at);
      }
      LogInOrderStep(t, calls[n]);
      StepKeepsAgreement(t, calls[n], c);
    }
  }

  // ----- A run that loses the agreement ----------------------------------------------

  const OFF_AT_TEN := CampaignEvent(EventInput(10, 0, DisableAutorotation, "r", "a"))
  const ON_AT_FIVE := CampaignEvent(EventInput(5, 0, EnableAutorotation, "r", "b"))

  function SwitchedTwice(c: Company): seq<Call> {
    Opening(c) + [OFF_AT_TEN] + [ON_AT_FIVE]
  }

  lemma SwitchedOff(c: Company)
    requires Rotating(c)
    ensures var t := Run(EMPTY, Opening(c) + [OFF_AT_TEN]);
            && Accepted(Run(EMPTY, Opening(c)), OFF_AT_TEN)
            && t.companies == [c] && t.servers == {c.server} && t.reasons == {"r"}
            && |t.settings| == 1 && !t.settings[0].active
            && |t.events| == 1 && t.events[0].company == 0 && t.events[0].at == 10 && t.events[0].active
  {
    OpeningState(c);
    RunOfOneMore(EMPTY, Opening(c), OFF_AT_TEN);
    var t := Run(EMPTY, Opening(c));
    assert ActiveSetting(t.settings, 0) == Some(0);
  }

  lemma SwitchedOnAgain(c: Company)
    requires Rotating(c)
    ensures var t := Run(EMPTY, SwitchedTwice(c));
            && Accepted(Run(EMPTY, Opening(c) + [OFF_AT_TEN]), ON_AT_FIVE)
            && |t.settings| == 2 && ActiveSetting(t.settings, 0) == Some(1) && t.settings[1].scheme.comment == "b"
            && |t.events| == 2 && t.events[0].company == t.events[1].company == 0
            && t.events[0].at == 10 && t.events[1].at == 5 && t.events[0].active && t.events[1].comment == "b"
  {
    SwitchedOff(c);
    RunOfOneMore(EMPTY, Opening(c) + [OFF_AT_TEN], ON_AT_FIVE);
    var t := Run(EMPTY, Opening(c) + [OFF_AT_TEN]);
    assert ActiveSetting(t.settings[..0], 0) == None;
    assert ActiveSetting(t.settings, 0) == None;
  }

  /** Autorotation is switched off at 10 and then, in an event dated 5, on again.  An edit
      of that last event does not reach the active version. */
  lemma BackdatedEditLosesAgreement(c: Company)
    requires Rotating(c)
    ensures var t := Run(EMPTY, SwitchedTwice(c));
            var u := Run(EMPTY, SwitchedTwice(c) + [EditEventComment(1, "c")]);
            Accepted(t, EditEventComment(1, "c")) && !EditIsSafe(t, 1, "c") && Agrees(t, 0) && !Agrees(u, 0)
  {
    SwitchedOnAgain(c);
    RunOfOneMore(EMPTY, SwitchedTwice(c), EditEventComment(1, "c"));
    assert HasLaterActive(Run(EMPTY, SwitchedTwice(c)).events, 1);
  }
}
