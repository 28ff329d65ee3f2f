/** What campaign events and edits of versions are for, said of the tables before and after
    them, and where the routing in force comes from. */
module CampaignMeaning {
  import opened Common
  import opened CampaignReplay
  import opened CampaignRouting
  import opened CampaignVersions

  // ----- Reading the versions -----------------------------------------------------------

  predicate LastOpen(settings: seq<Setting>, company: Id, i: nat) {
    && i < |settings| && Open(settings[i], company)
    && forall j :: i < j < |settings| ==> !Open(settings[j], company)
  }

  /** The routing and mode in force are those of the campaign's last open version; without
      one there is no route, no autorotation, and the server's priority decides. */
  lemma InForceIsLastOpen(settings: seq<Setting>, company: Id)
    ensures forall i: nat :: LastOpen(settings, company, i) ==>
              && ActiveSetting(settings, company) == Some(i)
              && Current(settings, company) == settings[i].scheme.routing
              && CurrentMode(settings, company) == settings[i].scheme.mode
    ensures (forall i: nat :: !LastOpen(settings, company, i)) ==>
              && ActiveSetting(settings, company) == None
              && Current(settings, company) == Routing(None, false)
              && CurrentMode(settings, company) == ServerPriorityMode
  {
  }

  // ----- When an event is accepted ---------------------------------------------------------

  /** What a version asks of the reference tables: its campaign's server, and for a campaign
      of one GEO that GEO and a route of it; a campaign of several GEOs has no route. */
  predicate VersionFits(t: Tables, c: Company, route: Option<Id>) {
    && c.server in t.servers
    && (c.country.None? ==> route.None?)
    && (c.country.Some? ==>
          && c.country.value in t.countries
          && (route.Some? ==> route.value in t.routes && t.routes[route.value].country == c.country.value))
  }

  /** When an event is accepted, check by check. */
  predicate MayHappen(t: Tables, e: EventInput) {
    && e.reason in t.reasons && (e.reason == "Другое" ==> e.comment != "")
    && e.company < |t.companies| && t.companies[e.company].active
    && var c := t.companies[e.company];
    && var before := Current(t.settings, e.company);
    match e.change
    case EnableAutorotation => !before.auto && VersionFits(t, c, before.route)
    case DisableAutorotation => before.auto && (before.route.Some? ==> VersionFits(t, c, before.route))
    case SetCampaignRoute(r) =>
      r.Some? && r != before.route && r.value in t.routes && t.routes[r.value].actual && VersionFits(t, c, r)
    case RemoveCampaignRoute =>
      && before.route.Some? && before.route.value in t.routes
      && (before.auto ==>
            && c.server in t.servers && t.routes[before.route.value].country in t.countries
            && (c.country.Some? ==> t.routes[before.route.value].country == c.country.value))
    case UnknownChange => false
  }

  lemma EventAcceptedIff(t: Tables, e: EventInput)
    ensures EventAccepted(t, e) <==> MayHappen(t, e)
  {
  }

  // ----- What an accepted event leaves ---------------------------------------------------------

  /** The GEO of an event: that of the route set or removed, otherwise the campaign's. */
  predicate CountryRecorded(t: Tables, e: EventInput, country: Option<Id>)
    requires e.company < |t.companies|
  {
    match e.change
    case SetCampaignRoute(Some(r)) => r in t.routes && country == Some(t.routes[r].country)
    case RemoveCampaignRoute =>
      var r := Current(t.settings, e.company).route;
      r.Some? && r.value in t.routes && country == Some(t.routes[r.value].country)
    case _ => country == t.companies[e.company].country
  }

  /** One event is added, with the routing it found and the routing it leads to. */
  ghost predicate EventFiled(before: Tables, after: Tables, e: EventInput) {
    && e.company < |before.companies|
    && |after.events| == |before.events| + 1 && before.events <= after.events
    && var row := after.events[|before.events|];
    && row.at == e.at && row.company == e.company && row.change == e.change && row.comment == e.comment && row.active
    && row.before == Current(before.settings, e.company)
    && row.beforeMode == CurrentMode(before.settings, e.company)
    && Follows(e.change, row.before, row.after) && ModeFits(row.after, row.afterMode)
    && CountryRecorded(before, e, row.country)
  }

  /** The open version is closed at the event's instant; if the new routing has a route or
      autorotation, a version with it is opened at that instant. */
  ghost predicate VersionsFollow(before: Tables, after: Tables, e: EventInput)
    requires EventFiled(before, after, e)
  {
    var row := after.events[|before.events|];
    var needed := row.after.route.Some? || row.after.auto;
    var server := before.companies[e.company].server;
    var n := |before.settings|;
    && |after.settings| == n + (if needed then 1 else 0)
    && (needed ==>
          after.settings[n] ==
          Setting(e.company, Scheme(row.country, server, row.after, row.afterMode, e.comment), true, e.at, None))
    && forall i :: 0 <= i < n ==>
         var was := before.settings[i];
         after.settings[i] ==
         if LastOpen(before.settings, e.company, i) then Setting(was.company, was.scheme, false, was.from, Some(e.at))
         else was
  }

  lemma EventIsFiled(t: Tables, e: EventInput)
    requires EventAccepted(t, e)
    ensures EventFiled(t, Effect(t, CampaignEvent(e)), e)
  {
    EventAcceptedIff(t, e);
  }

  lemma EventMovesVersions(t: Tables, e: EventInput)
    requires EventAccepted(t, e) && EventFiled(t, Effect(t, CampaignEvent(e)), e)
    ensures VersionsFollow(t, Effect(t, CampaignEvent(e)), e)
  {
    var next := Applied(e.change, Current(t.settings, e.company));
    InForceIsLastOpen(t.settings, e.company);
    if ActiveSetting(t.settings, e.company).Some? {
      var i := ActiveSetting(t.settings, e.company).value;
      assert !SameRouting(t.settings[i].scheme, EventScheme(t, e));
      assert LastOpen(t.settings, e.company, i);
    }
  }

  /** The routing announced is in force. */
  lemma EventIsInForce(t: Tables, e: EventInput)
    requires EventAccepted(t, e) && VersionsOk(t.settings)
    ensures var after := Effect(t, CampaignEvent(e)).settings;
            && Follows(e.change, Current(t.settings, e.company), Current(after, e.company))
            && ModeFits(Current(after, e.company), CurrentMode(after, e.company))
  {
    EventSetsCurrent(t, e);
  }

  // ----- Where the routing in force comes from ----------------------------------------------------

  predicate SetsRoute(e: Event, c: Id) {
    e.company == c && (e.change.SetCampaignRoute? || e.change.RemoveCampaignRoute?)
  }

  predicate Switches(e: Event, c: Id) {
    e.company == c && (e.change.EnableAutorotation? || e.change.DisableAutorotation?)
  }

  /** The route is that of the last event to set one; none after a removal, or without such
      an event. */
  ghost predicate RouteIsLastSet(events: seq<Event>, c: Id, route: Option<Id>) {
    && (forall i :: 0 <= i < |events| && SetsRoute(events[i], c)
          && (forall k :: i < k < |events| ==> !SetsRoute(events[k], c))
          ==> route == if events[i].change.SetCampaignRoute? then events[i].change.route else None)
    && ((forall k :: 0 <= k < |events| ==> !SetsRoute(events[k], c)) ==> route == None)
  }

  /** Autorotation is as the last switch left it, or as it was at first. */
  ghost predicate AutoIsLastSwitch(events: seq<Event>, c: Id, initial: bool, auto: bool) {
    && (forall i :: 0 <= i < |events| && Switches(events[i], c)
          && (forall k :: i < k < |events| ==> !Switches(events[k], c))
          ==> auto == events[i].change.EnableAutorotation?)
    && ((forall k :: 0 <= k < |events| ==> !Switches(events[k], c)) ==> auto == initial)
  }

  lemma RouteOfOneMore(events: seq<Event>, e: Event, c: Id, route: Option<Id>)
    requires RouteIsLastSet(events, c, route)
    ensures !SetsRoute(e, c) ==> RouteIsLastSet(events + [e], c, route)
    ensures SetsRoute(e, c) ==>
              RouteIsLastSet(events + [e], c, if e.change.SetCampaignRoute? then e.change.route else None)
  {
    var more := events + [e];
    if !SetsRoute(e, c) {
      forall i | 0 <= i < |more| && SetsRoute(more[i], c) && (forall k :: i < k < |more| ==> !SetsRoute(more[k], c))
        ensures route == if more[i].change.SetCampaignRoute? then more[i].change.route else None
      {
        assert events[i] == more[i];
        assert forall k :: i < k < |events| ==> events[k] == more[k];
      }
      assert forall k :: 0 <= k < |events| ==> events[k] == more[k];
    } else {
      assert SetsRoute(more[|events|], c);
    }
  }

  lemma AutoOfOneMore(events: seq<Event>, e: Event, c: Id, initial: bool, auto: bool)
    requires AutoIsLastSwitch(events, c, initial, auto)
    ensures !Switches(e, c) ==> AutoIsLastSwitch(events + [e], c, initial, auto)
    ensures Switches(e, c) ==> AutoIsLastSwitch(events + [e], c, initial, e.change.EnableAutorotation?)
  {
    var more := events + [e];
    if !Switches(e, c) {
      forall i | 0 <= i < |more| && Switches(more[i], c) && (forall k :: i < k < |more| ==> !Switches(more[k], c))
        ensures auto == more[i].change.EnableAutorotation?
      {
        assert events[i] == more[i];
        assert forall k :: i < k < |events| ==> events[k] == more[k];
      }
      assert forall k :: 0 <= k < |events| ==> events[k] == more[k];
    } else {
      assert Switches(more[|events|], c);
    }
  }

  ghost predicate LastWord(events: seq<Event>, c: Id, initial: bool, r: Routing) {
    RouteIsLastSet(events, c, r.route) && AutoIsLastSwitch(events, c, initial, r.auto)
  }

  lemma NoWordYet(c: Id, initial: bool)
    ensures LastWord([], c, initial, Routing(None, initial))
  {
  }

  lemma OneMoreWord(events: seq<Event>, e: Event, c: Id, initial: bool, before: Routing)
    requires LastWord(events, c, initial, before)
    ensures LastWord(events + [e], c, initial, if e.company == c then Applied(e.change, before) else before)
  {
    RouteOfOneMore(events, e, c, before.route);
    AutoOfOneMore(events, e, c, initial, before.auto);
  }

  lemma {:induction false} ReplayIsLastWord(events: seq<Event>, c: Id, initial: bool)
    ensures LastWord(events, c, initial, Replay(events, c, Routing(None, initial)))
  {
    if events == [] {
      NoWordYet(c, initial);
    } else {
      var n := |events| - 1;
      ReplayIsLastWord(events[..n], c, initial);
      OneMoreWord(events[..n], events[n], c, initial, Replay(events[..n], c, Routing(None, initial)));
      assert events[..n] + [events[n]] == events;
    }
  }

  /** At the end of every event-driven run a campaign's route in force is the one its last
      route event set, autorotation is as its last switch left it, and the mode is the one
      that goes with them; deactivated events count like any other. */
  lemma RoutingIsLastWord(calls: seq<Call>, c: Id)
    requires AllEventDriven(calls) && c < |Run(EMPTY, calls).companies|
    ensures var t := Run(EMPTY, calls);
            && RouteIsLastSet(t.events, c, Current(t.settings, c).route)
            && AutoIsLastSwitch(t.events, c, t.companies[c].initialAuto, Current(t.settings, c).auto)
            && ModeFits(Current(t.settings, c), CurrentMode(t.settings, c))
  {
    var t := Run(EMPTY, calls);
    SettingsReplayTheLog(calls);
    assert Cached(t, c);
    ReplayIsLastWord(t.events, c, t.companies[c].initialAuto);
  }

  // ----- Direct edits ----------------------------------------------------------------------------------

  /** When a version may be written by hand. */
  predicate MayWrite(t: Tables, company: Id, s: Scheme) {
    && company < |t.companies| && s.server == t.companies[company].server && s.server in t.servers
    && (s.country.Some? ==> s.country.value in t.countries)
    && (t.companies[company].country.Some? ==> s.country == t.companies[company].country)
    && (s.routing.route.Some? ==>
          && t.companies[company].country.Some? && s.routing.route.value in t.routes
          && t.routes[s.routing.route.value].country == t.companies[company].country.value)
    && (s.mode == CampaignRouteMode ==> s.routing.route.Some?)
    && (s.mode == AutorotationMode ==> s.routing.auto)
  }

  lemma SchemeAllowedIff(t: Tables, company: Id, s: Scheme)
    ensures SchemeAllowed(t, company, s) <==> MayWrite(t, company, s)
  {
  }

  /** The initial version of a new campaign passes all checks that its campaign has passed. */
  lemma CompanyAcceptedIff(t: Tables, c: Company, now: int)
    ensures Accepted(t, CreateCompany(c, now)) <==>
            && c.name != "" && c.externalId != "" && c.server in t.servers
            && (c.country.Some? ==> c.country.value in t.countries)
            && forall i :: 0 <= i < |t.companies| ==> t.companies[i].externalId != c.externalId
  {
    SchemeAllowedIff(t.(companies := t.companies + [c]), |t.companies|, InitialScheme(c));
  }

  /** A version edit writes a new comment in place; for any other change it closes the row
      and opens its successor at the same instant. */
  predicate VersionRewritten(before: seq<Setting>, after: seq<Setting>, i: nat, s: Scheme, at: int)
    requires i < |before|
  {
    var was := before[i];
    if was.scheme.country == s.country && was.scheme.server == s.server
       && was.scheme.routing == s.routing && was.scheme.mode == s.mode
    then after == before[i := Setting(was.company, s, was.active, was.from, was.to)]
    else after == before[i := Setting(was.company, was.scheme, false, was.from, Some(at))]
                  + [Setting(was.company, s, true, at, None)]
  }

  /** Whether the comment of event `i` is also that of version `k`: the campaign's last open
      version, with the routing and mode the event led to, and no later active event. */
  ghost predicate Describes(t: Tables, i: nat, k: nat)
    requires i < |t.events|
  {
    var e := t.events[i];
    && LastOpen(t.settings, e.company, k)
    && t.settings[k].scheme.routing == e.after && t.settings[k].scheme.mode == e.afterMode
    && forall j :: 0 <= j < |t.events| && t.events[j].active && t.events[j].company == e.company ==>
         t.events[j].at < e.at || (t.events[j].at == e.at && j <= i)
  }

  /** A new comment goes into the event and into the version it describes. */
  ghost predicate CommentWritten(before: Tables, after: Tables, i: nat, comment: string)
    requires i < |before.events|
  {
    && after.events == before.events[i := before.events[i].(comment := comment)]
    && |after.settings| == |before.settings|
    && forall k :: 0 <= k < |before.settings| ==>
         var was := before.settings[k];
         after.settings[k] == if Describes(before, i, k) then was.(scheme := was.scheme.(comment := comment)) else was
  }

  lemma ReachesIff(t: Tables, i: nat)
    requires i < |t.events|
    ensures Reaches(t, i) <==> exists k: nat :: Describes(t, i, k)
    ensures forall k: nat :: Describes(t, i, k) ==> ActiveSetting(t.settings, t.events[i].company) == Some(k)
  {
    InForceIsLastOpen(t.settings, t.events[i].company);
    if Reaches(t, i) {
      assert Describes(t, i, ActiveSetting(t.settings, t.events[i].company).value);
    }
  }

  lemma EditWritesComment(t: Tables, i: nat, comment: string)
    requires i < |t.events| && comment != t.events[i].comment && comment != ""
    ensures CommentWritten(t, Effect(t, EditEventComment(i, comment)), i, comment)
  {
    ReachesIff(t, i);
    if Reaches(t, i) {
      assert Describes(t, i, ActiveSetting(t.settings, t.events[i].company).value);
    }
  }
}
