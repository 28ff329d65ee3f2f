/** Campaign routing: the versioned settings table and the event log that drives it.

    The settings table holds one row per version of a campaign's routing scheme,
    the event table one row per campaign event.  A row's id is its position.
    `Step` gives the effect of one committed repository call on the tables; a
    refused call leaves them as they were.  The results are about `Run`, that is,
    about every sequence of calls. */
module CampaignRouting {
  import opened Common

  type Id = nat

  datatype Mode = ServerPriorityMode | CampaignRouteMode | AutorotationMode | MixedMode

  /** The part of a routing scheme that campaign events change. */
  datatype Routing = Routing(route: Option<Id>, auto: bool)

  const NO_ROUTING := Routing(None, false)

  datatype Change =
    | EnableAutorotation
    | DisableAutorotation
    | SetCampaignRoute(route: Option<Id>)
    | RemoveCampaignRoute
    | UnknownChange

  datatype Company = Company(name: string, externalId: string, country: Option<Id>, server: Id, active: bool,
                             initialAuto: bool)

  datatype Route = Route(country: Id, provider: Id, actual: bool)

  /** What an administrator or an event writes into a version. */
  datatype Scheme = Scheme(country: Option<Id>, server: Id, routing: Routing, mode: Mode, comment: string)

  datatype Setting = Setting(company: Id, scheme: Scheme, active: bool, from: int, to: Option<int>)

  datatype Event = Event(at: int, company: Id, change: Change, country: Option<Id>,
                         before: Routing, beforeMode: Mode, after: Routing, afterMode: Mode, comment: string,
                         active: bool)

  /** The tables that campaign routing reads or writes. */
  datatype Tables = Tables(companies: seq<Company>, routes: map<Id, Route>, countries: set<Id>, servers: set<Id>,
                           reasons: set<string>, settings: seq<Setting>, events: seq<Event>)

  // ----- Reading the tables ------------------------------------------------------

  predicate Open(s: Setting, company: Id) {
    s.company == company && s.active && s.to.None?
  }

  /** The open active version with the largest id. */
  function ActiveSetting(settings: seq<Setting>, company: Id): (r: Option<nat>)
    ensures r.Some? ==> r.value < |settings| && Open(settings[r.value], company)
    ensures r.Some? ==> forall j :: r.value < j < |settings| ==> !Open(settings[j], company)
    ensures r.None? ==> forall j :: 0 <= j < |settings| ==> !Open(settings[j], company)
  {
    if settings == [] then None
    else
      var last := |settings| - 1;
      if Open(settings[last], company) then Some(last) else ActiveSetting(settings[..last], company)
  }

  /** The routing in force: that of the active version, or none. */
  function Current(settings: seq<Setting>, company: Id): Routing {
    match ActiveSetting(settings, company)
    case Some(i) => settings[i].scheme.routing
    case None => NO_ROUTING
  }

  function CurrentMode(settings: seq<Setting>, company: Id): Mode {
    match ActiveSetting(settings, company)
    case Some(i) => settings[i].scheme.mode
    case None => ServerPriorityMode
  }

  function ModeFor(r: Routing): Mode {
    if r.route.Some? && r.auto then MixedMode
    else if r.route.Some? then CampaignRouteMode
    else if r.auto then AutorotationMode
    else ServerPriorityMode
  }

  predicate NeedsVersion(r: Routing) {
    r.route.Some? || r.auto
  }

  /** The checks made before any version is written. */
  predicate SchemeAllowed(t: Tables, company: Id, s: Scheme) {
    && (s.mode == CampaignRouteMode ==> s.routing.route.Some?)
    && (s.mode == AutorotationMode ==> s.routing.auto)
    && company < |t.companies|
    && (t.companies[company].country.None? ==> s.routing.route.None?)
    && (t.companies[company].country.Some? ==> t.companies[company].country == s.country)
    && t.companies[company].server == s.server
    && (s.country.Some? ==> s.country.value in t.countries)
    && s.server in t.servers
    && (s.routing.route.Some? ==>
          && s.routing.route.value in t.routes
          && (s.country.Some? ==> t.routes[s.routing.route.value].country == s.country.value))
  }

  // ----- What one call writes ----------------------------------------------------

  function Opened(settings: seq<Setting>, company: Id, s: Scheme, at: int): seq<Setting> {
    settings + [Setting(company, s, true, at, None)]
  }

  function Closed(settings: seq<Setting>, i: nat, at: int): seq<Setting>
    requires i < |settings|
  {
    settings[i := settings[i].(active := false, to := Some(at))]
  }

  function Commented(settings: seq<Setting>, i: nat, comment: string): seq<Setting>
    requires i < |settings|
  {
    settings[i := settings[i].(scheme := settings[i].scheme.(comment := comment))]
  }

  /** Two schemes that differ at most in their comment. */
  predicate SameRouting(a: Scheme, b: Scheme) {
    a == b.(comment := a.comment)
  }

  /** Rewriting the open version `i`: a new comment stays in place, any other
      change closes the version and opens its successor at the same instant. */
  function Replaced(settings: seq<Setting>, i: nat, s: Scheme, at: int): seq<Setting>
    requires i < |settings|
  {
    if SameRouting(settings[i].scheme, s) then Commented(settings, i, s.comment)
    else Opened(Closed(settings, i, at), settings[i].company, s, at)
  }

  datatype EventInput = EventInput(at: int, company: Id, change: Change, reason: string, comment: string)

  const OTHER_REASON := "Другое"

  function Applied(change: Change, before: Routing): Routing {
    match change
    case EnableAutorotation => before.(auto := true)
    case DisableAutorotation => before.(auto := false)
    case SetCampaignRoute(r) => before.(route := r)
    case RemoveCampaignRoute => before.(route := None)
    case UnknownChange => before
  }

  /** The mode that goes with a route and autorotation. */
  predicate ModeFits(r: Routing, m: Mode) {
    && (m == MixedMode <==> r.route.Some? && r.auto)
    && (m == CampaignRouteMode <==> r.route.Some? && !r.auto)
    && (m == AutorotationMode <==> r.route.None? && r.auto)
    && (m == ServerPriorityMode <==> r.route.None? && !r.auto)
  }

  /** A switch changes autorotation and keeps the route; a route change sets or removes the
      route and keeps autorotation.  What it asks for must not be the case yet. */
  predicate Follows(change: Change, before: Routing, after: Routing) {
    match change
    case EnableAutorotation => !before.auto && after.auto && after.route == before.route
    case DisableAutorotation => before.auto && !after.auto && after.route == before.route
    case SetCampaignRoute(r) => r.Some? && before.route != r && after.route == r && after.auto == before.auto
    case RemoveCampaignRoute => before.route.Some? && after.route.None? && after.auto == before.auto
    case UnknownChange => false
  }

  /** The GEO recorded by an event: the route's for a route change, otherwise the
      company's, and for a company with several GEOs that of its routed version. */
  function EventCountry(t: Tables, e: EventInput): Option<Id>
    requires e.company < |t.companies|
  {
    var active := ActiveSetting(t.settings, e.company);
    var before := Current(t.settings, e.company);
    match e.change
    case SetCampaignRoute(Some(r)) => if r in t.routes then Some(t.routes[r].country) else None
    case RemoveCampaignRoute =>
      if before.route.Some? && before.route.value in t.routes then Some(t.routes[before.route.value].country) else None
    case _ =>
      if t.companies[e.company].country.None? && before.route.Some? then t.settings[active.value].scheme.country
      else t.companies[e.company].country
  }

  function EventScheme(t: Tables, e: EventInput): Scheme
    requires e.company < |t.companies|
  {
    var after := Applied(e.change, Current(t.settings, e.company));
    Scheme(EventCountry(t, e), t.companies[e.company].server, after, ModeFor(after), e.comment)
  }

  /** What each kind of change asks of the routes table. */
  predicate ChangeAllowed(t: Tables, e: EventInput)
    requires e.company < |t.companies|
  {
    var before := Current(t.settings, e.company);
    match e.change
    case SetCampaignRoute(r) =>
      && r.Some? && r.value in t.routes && t.routes[r.value].actual
      && (t.companies[e.company].country.Some? ==>
            t.companies[e.company].country.value == t.routes[r.value].country)
    case RemoveCampaignRoute => before.route.Some? && before.route.value in t.routes
    case _ => true
  }

  /** An event is accepted when it is well formed, would change the routing in
      force, and the version it needs (if any) is allowed. */
  predicate EventAccepted(t: Tables, e: EventInput) {
    && e.reason in t.reasons
    && (e.reason == OTHER_REASON ==> e.comment != "")
    && e.company < |t.companies| && t.companies[e.company].active
    && var before := Current(t.settings, e.company);
    && Applied(e.change, before) != before
    && ChangeAllowed(t, e)
    && (NeedsVersion(Applied(e.change, before)) ==> SchemeAllowed(t, e.company, EventScheme(t, e)))
  }

  function EventRow(t: Tables, e: EventInput): Event
    requires e.company < |t.companies|
  {
    var before := Current(t.settings, e.company);
    var after := Applied(e.change, before);
    Event(e.at, e.company, e.change, EventCountry(t, e),
          before, CurrentMode(t.settings, e.company), after, ModeFor(after), e.comment, true)
  }

  function SettingsAfterEvent(t: Tables, e: EventInput): seq<Setting>
    requires e.company < |t.companies|
  {
    var s := EventScheme(t, e);
    match ActiveSetting(t.settings, e.company)
    case None => if NeedsVersion(s.routing) then Opened(t.settings, e.company, s, e.at) else t.settings
    case Some(i) => if NeedsVersion(s.routing) then Replaced(t.settings, i, s, e.at) else Closed(t.settings, i, e.at)
  }

  /** Another active event of the campaign comes after event `i` in time. */
  predicate HasLaterActive(events: seq<Event>, i: nat)
    requires i < |events|
  {
    exists j :: 0 <= j < |events| && events[j].active && events[j].company == events[i].company
                && (events[j].at > events[i].at || (events[j].at == events[i].at && j > i))
  }

  /** A comment edit reaches the settings table when no later active event exists
      and the active version is the one this event describes. */
  predicate Reaches(t: Tables, i: nat)
    requires i < |t.events|
  {
    var active := ActiveSetting(t.settings, t.events[i].company);
    && active.Some?
    && !HasLaterActive(t.events, i)
    && t.settings[active.value].scheme.mode == t.events[i].afterMode
    && t.settings[active.value].scheme.routing == t.events[i].after
  }

  function SettingsAfterEdit(t: Tables, i: nat, comment: string): seq<Setting>
    requires i < |t.events|
  {
    if Reaches(t, i)
    then Commented(t.settings, ActiveSetting(t.settings, t.events[i].company).value, comment)
    else t.settings
  }

  // ----- Calls and runs ----------------------------------------------------------

  datatype Call =
    | CreateCompany(company: Company, now: int)
    | CampaignEvent(input: EventInput)
    | EditEventComment(event: nat, comment: string)
    | DeactivateEvent(event: nat, reason: string)
    | CreateSetting(owner: Id, scheme: Scheme, at: int)
    | UpdateSetting(setting: nat, scheme: Scheme, at: int)
    | EditSettingComment(setting: nat, comment: string)
    | DeactivateSetting(setting: nat, at: int)
    | EditCompany(id: Id, country: Option<Id>, server: Id, active: bool)
    | EditReferences(routes: map<Id, Route>, countries: set<Id>, servers: set<Id>, reasons: set<string>)

  const INITIAL_COMMENT := "Начальная авторотация при создании кампании"

  function InitialScheme(c: Company): Scheme {
    Scheme(c.country, c.server, Routing(None, true), AutorotationMode, INITIAL_COMMENT)
  }

  predicate Editable(settings: seq<Setting>, i: nat) {
    i < |settings| && settings[i].active && settings[i].to.None?
  }

  predicate Accepted(t: Tables, call: Call) {
    match call
    case CreateCompany(c, _) =>
      && c.name != "" && c.externalId != ""
      && (forall i :: 0 <= i < |t.companies| ==> t.companies[i].externalId != c.externalId)
      && c.server in t.servers && (c.country.Some? ==> c.country.value in t.countries)
      && (c.initialAuto ==>
            SchemeAllowed(t.(companies := t.companies + [c]), |t.companies|, InitialScheme(c)))
    case CampaignEvent(e) => EventAccepted(t, e)
    case EditEventComment(i, comment) => i < |t.events| && comment != ""
    case DeactivateEvent(i, reason) => i < |t.events| && t.events[i].active && reason != ""
    case CreateSetting(c, s, _) => SchemeAllowed(t, c, s) && ActiveSetting(t.settings, c).None?
    case UpdateSetting(i, s, _) => Editable(t.settings, i) && SchemeAllowed(t, t.settings[i].company, s)
    case EditSettingComment(i, _) => Editable(t.settings, i)
    case DeactivateSetting(i, _) => Editable(t.settings, i)
    case EditCompany(c, country, server, _) =>
      c < |t.companies| && server in t.servers && (country.Some? ==> country.value in t.countries)
    case EditReferences(_, _, _, _) => true
  }

  function Effect(t: Tables, call: Call): Tables
    requires Accepted(t, call)
  {
    match call
    case CreateCompany(c, now) =>
      t.(companies := t.companies + [c],
         settings := if c.initialAuto then Opened(t.settings, |t.companies|, InitialScheme(c), now) else t.settings)
    case CampaignEvent(e) => t.(events := t.events + [EventRow(t, e)], settings := SettingsAfterEvent(t, e))
    case EditEventComment(i, comment) =>
      if comment == t.events[i].comment then t
      else t.(events := t.events[i := t.events[i].(comment := comment)], settings := SettingsAfterEdit(t, i, comment))
    case DeactivateEvent(i, _) => t.(events := t.events[i := t.events[i].(active := false)])
    case CreateSetting(c, s, at) => t.(settings := Opened(t.settings, c, s, at))
    case UpdateSetting(i, s, at) => t.(settings := Replaced(t.settings, i, s, at))
    case EditSettingComment(i, comment) => t.(settings := Commented(t.settings, i, comment))
    case DeactivateSetting(i, at) => t.(settings := Closed(t.settings, i, at))
    case EditCompany(c, country, server, active) =>
      t.(companies := t.companies[c := t.companies[c].(country := country, server := server, active := active)])
    case EditReferences(routes, countries, servers, reasons) =>
      t.(routes := routes, countries := countries, servers := servers, reasons := reasons)
  }

  function Step(t: Tables, call: Call): Tables {
    if Accepted(t, call) then Effect(t, call) else t
  }

  function Run(t: Tables, calls: seq<Call>): Tables {
    if calls == [] then t else Step(Run(t, calls[..|calls| - 1]), calls[|calls| - 1])
  }

  const EMPTY := Tables([], map[], {}, {}, {}, [], [])

  lemma RunOfOneMore(t: Tables, calls: seq<Call>, call: Call)
    ensures Run(t, calls + [call]) == Step(Run(t, calls), call)
  {
    assert (calls + [call])[..|calls|] == calls;
  }

  /** A new campaign of several GEOs that starts with autorotation. */
  predicate Rotating(c: Company) {
    c.name != "" && c.externalId != "" && c.country.None? && c.active && c.initialAuto
  }

  /** Its server and one reason are entered, and it is created at instant 10. */
  function Opening(c: Company): seq<Call> {
    [EditReferences(map[], {}, {c.server}, {"r"}), CreateCompany(c, 10)]
  }

  lemma FirstCompany(t: Tables, c: Company, at: int)
    requires t.companies == [] && t.settings == [] && Rotating(c) && c.server in t.servers
    ensures Step(t, CreateCompany(c, at)) ==
            t.(companies := [c], settings := [Setting(0, InitialScheme(c), true, at, None)])
  {
    var u := t.(companies := t.companies + [c]);
    assert u.companies == [c];
    assert SchemeAllowed(u, 0, InitialScheme(c));
  }

  lemma OpeningState(c: Company)
    requires Rotating(c)
    ensures Run(EMPTY, Opening(c)) ==
            Tables([c], map[], {}, {c.server}, {"r"}, [Setting(0, InitialScheme(c), true, 10, None)], [])
  {
    var first, second := Opening(c)[0], Opening(c)[1];
    assert Opening(c) == [] + [first] + [second];
    RunOfOneMore(EMPTY, [], first);
    RunOfOneMore(EMPTY, [] + [first], second);
    FirstCompany(Step(EMPTY, first), c, 10);
  }
}
