/** Server priorities: which route each server uses for a country.

    A server-priority event sets one route and overflow for several servers at once;
    servers that already have them are skipped.  Provider changes and direct edits
    write the same table. */
module ServerPriority {
  import opened Common

  type Id = nat

  /** A priority row is identified by its country and server. */
  type Key = (Id, Id)

  datatype Route = Route(country: Id, provider: Id, actual: bool)

  datatype Priority = Priority(current: Id, previous: Option<Id>, hasOverflow: bool, overflow: Option<Id>)

  /** What an event records for one server. */
  datatype EventServer = EventServer(event: nat, server: Id, before: Option<Id>, after: Id, applied: bool)

  datatype Tables = Tables(routes: map<Id, Route>, servers: map<Id, bool>, reasons: set<string>,
                           priorities: map<Key, Priority>, events: nat, eventServers: seq<EventServer>)

  /** Blank server ids have been dropped; repeated ones are still there. */
  datatype EventInput = EventInput(country: Option<Id>, servers: seq<Id>, route: Option<Id>, provider: Option<Id>,
                                   hasOverflow: bool, overflow: Option<Id>, overflowProvider: Option<Id>,
                                   reason: string, comment: string)

  datatype ChangeInput = ChangeInput(country: Id, providerBefore: Id, providerAfter: Id, routeBefore: Option<Id>,
                                     routeAfter: Option<Id>, servers: seq<Id>, reason: string)

  const OTHER_REASON := "Другое"

  // ----- Server-priority events --------------------------------------------------------------

  /** The overflow an event asks for: none unless it is switched on. */
  function Overflow(e: EventInput): Option<Id> {
    if e.hasOverflow then e.overflow else None
  }

  predicate UpToDate(t: Tables, key: Key, e: EventInput) {
    && key in t.priorities && e.route == Some(t.priorities[key].current)
    && t.priorities[key].hasOverflow == e.hasOverflow && t.priorities[key].overflow == Overflow(e)
  }

  predicate RouteChosen(t: Tables, e: EventInput) {
    && e.country.Some? && e.route.Some? && e.route.value in t.routes
    && t.routes[e.route.value].country == e.country.value
    && (e.provider.Some? ==> t.routes[e.route.value].provider == e.provider.value)
  }

  predicate OverflowChosen(t: Tables, e: EventInput) {
    e.hasOverflow ==>
      && e.country.Some? && e.overflow.Some? && e.overflowProvider.Some? && e.overflow.value in t.routes
      && var r := t.routes[e.overflow.value];
      && r.actual && r.country == e.country.value && r.provider == e.overflowProvider.value
  }

  predicate ServersChosen(t: Tables, e: EventInput) {
    e.servers != [] && forall s :: s in e.servers ==> s in t.servers && t.servers[s]
  }

  predicate EventAccepted(t: Tables, e: EventInput) {
    && e.reason in t.reasons && (e.reason == OTHER_REASON ==> e.comment != "")
    && RouteChosen(t, e) && OverflowChosen(t, e) && ServersChosen(t, e)
    && exists s :: s in e.servers && !UpToDate(t, (e.country.value, s), e)
  }

  /** The row an event leaves where it applies. */
  function Switched(t: Tables, key: Key, e: EventInput): Priority
    requires e.route.Some?
  {
    Priority(e.route.value, if key in t.priorities then Some(t.priorities[key].current) else None,
             e.hasOverflow, Overflow(e))
  }

  function KeysOf(country: Id, servers: seq<Id>): (r: set<Key>)
    ensures forall k :: k in r <==> k.0 == country && k.1 in servers
  {
    set s | s in servers :: (country, s)
  }

  /** The servers of the event that are not up to date yet, all switched at once. */
  function SwitchedAll(t: Tables, servers: seq<Id>, e: EventInput): map<Key, Priority>
    requires e.country.Some? && e.route.Some?
  {
    var selected := KeysOf(e.country.value, servers);
    map k | k in t.priorities.Keys + selected ::
      if k in selected && !UpToDate(t, k, e) then Switched(t, k, e) else t.priorities[k]
  }

  function RecordFor(t: Tables, s: Id, e: EventInput): EventServer
    requires e.country.Some? && e.route.Some?
  {
    var key := (e.country.value, s);
    EventServer(t.events, s, if key in t.priorities then Some(t.priorities[key].current) else None, e.route.value,
                !UpToDate(t, key, e))
  }

  function Records(t: Tables, servers: seq<Id>, e: EventInput): (r: seq<EventServer>)
    requires e.country.Some? && e.route.Some?
    ensures |r| == |servers|
  {
    seq(|servers|, i requires 0 <= i < |servers| => RecordFor(t, servers[i], e))
  }

  function AfterEvent(t: Tables, e: EventInput): Tables
    requires e.country.Some? && e.route.Some?
  {
    t.(priorities := SwitchedAll(t, e.servers, e), events := t.events + 1,
       eventServers := t.eventServers + Records(t, Distinct(e.servers), e))
  }

  // ----- Provider changes and direct edits -----------------------------------------------------------

  predicate RouteOfProvider(t: Tables, route: Option<Id>, provider: Id) {
    route.Some? ==> route.value in t.routes && t.routes[route.value].provider == provider
  }

  predicate ChangeAccepted(t: Tables, c: ChangeInput) {
    && c.reason != "" && (c.providerBefore != c.providerAfter ==> c.servers != [])
    && RouteOfProvider(t, c.routeBefore, c.providerBefore) && RouteOfProvider(t, c.routeAfter, c.providerAfter)
    && NoRepeats(c.servers) && forall s :: s in c.servers ==> s in t.servers
  }

  /** A provider change moves the servers only when it names a new provider and route. */
  predicate Moves(c: ChangeInput) {
    c.providerBefore != c.providerAfter && c.routeAfter.Some?
  }

  function MovedRow(t: Tables, key: Key, route: Id): Priority {
    Priority(route, if key in t.priorities then Some(t.priorities[key].current) else None, false, None)
  }

  function MovedAll(t: Tables, country: Id, servers: seq<Id>, route: Id): map<Key, Priority> {
    var moved := KeysOf(country, servers);
    map k | k in t.priorities.Keys + moved :: if k in moved then MovedRow(t, k, route) else t.priorities[k]
  }

  function AfterChange(t: Tables, c: ChangeInput): map<Key, Priority> {
    if Moves(c) then MovedAll(t, c.country, c.servers, c.routeAfter.value) else t.priorities
  }

  // ----- Calls and runs -------------------------------------------------------------------------------

  datatype Call =
    | PriorityEvent(event: EventInput)
    | ProviderChange(change: ChangeInput)
    | EditPriority(key: Key, route: Id)
    | EditRoutes(routes: map<Id, Route>)
    | EditServers(servers: map<Id, bool>, reasons: set<string>)

  /** Routes never change country, and a referenced route cannot be deleted. */
  predicate RoutesKept(t: Tables, routes: map<Id, Route>) {
    && (forall r :: r in t.routes && r in routes ==> routes[r].country == t.routes[r].country)
    && (forall k :: k in t.priorities && t.priorities[k].overflow.Some? && t.priorities[k].overflow.value in t.routes
          ==> t.priorities[k].overflow.value in routes)
  }

  predicate Accepted(t: Tables, call: Call) {
    match call
    case PriorityEvent(e) => EventAccepted(t, e)
    case ProviderChange(c) => ChangeAccepted(t, c)
    case EditPriority(key, route) => key in t.priorities && route in t.routes && t.routes[route].country == key.0
    case EditRoutes(routes) => RoutesKept(t, routes)
    case EditServers(_, _) => true
  }

  function Effect(t: Tables, call: Call): Tables
    requires Accepted(t, call)
  {
    match call
    case PriorityEvent(e) => AfterEvent(t, e)
    case ProviderChange(c) => t.(priorities := AfterChange(t, c))
    case EditPriority(key, route) =>
      var p := t.priorities[key];
      if p.current == route then t
      else t.(priorities := t.priorities[key := p.(previous := Some(p.current), current := route)])
    case EditRoutes(routes) => t.(routes := routes)
    case EditServers(servers, reasons) => t.(servers := servers, reasons := reasons)
  }

  function Step(t: Tables, call: Call): Tables {
    if Accepted(t, call) then Effect(t, call) else t
  }

  function Run(t: Tables, calls: seq<Call>): Tables {
    if calls == [] then t else Step(Run(t, calls[..|calls| - 1]), calls[|calls| - 1])
  }

  const EMPTY := Tables(map[], map[], {}, map[], 0, [])

  // ----- What an accepted event leaves ------------------------------------------------------------------

  predicate Selected(e: EventInput, key: Key) {
    e.country == Some(key.0) && key.1 in e.servers
  }

  /** The row has, field by field, what the event asks for: its route, its overflow flag,
      and the overflow route if the flag is set. */
  predicate HasAsked(priorities: map<Key, Priority>, key: Key, e: EventInput) {
    && key in priorities && e.route.Some? && priorities[key].current == e.route.value
    && (e.hasOverflow ==> priorities[key].hasOverflow && priorities[key].overflow == e.overflow)
    && (!e.hasOverflow ==> !priorities[key].hasOverflow && priorities[key].overflow.None?)
  }

  function FormerRoute(priorities: map<Key, Priority>, key: Key): (r: Option<Id>)
    ensures key in priorities ==> r == Some(priorities[key].current)
    ensures key !in priorities ==> r.None?
  {
    if key in priorities then Some(priorities[key].current) else None
  }

  lemma UpToDateIff(t: Tables, key: Key, e: EventInput)
    ensures UpToDate(t, key, e) <==> HasAsked(t.priorities, key, e)
  {
  }

  /** When an event is accepted, check by check. */
  ghost predicate MayHappen(t: Tables, e: EventInput) {
    && e.reason in t.reasons && (e.reason == "Другое" ==> e.comment != "")
    && e.country.Some? && e.route.Some? && e.servers != []
    && e.route.value in t.routes && t.routes[e.route.value].country == e.country.value
    && (e.provider.Some? ==> t.routes[e.route.value].provider == e.provider.value)
    && (e.hasOverflow ==>
          && e.overflow.Some? && e.overflowProvider.Some? && e.overflow.value in t.routes
          && t.routes[e.overflow.value] == Route(e.country.value, e.overflowProvider.value, true))
    && (forall s :: s in e.servers ==> s in t.servers && t.servers[s])
    && exists s :: s in e.servers && !HasAsked(t.priorities, (e.country.value, s), e)
  }

  lemma EventAcceptedIff(t: Tables, e: EventInput)
    ensures EventAccepted(t, e) <==> MayHappen(t, e)
  {
    if e.country.Some? {
      forall s ensures UpToDate(t, (e.country.value, s), e) <==> HasAsked(t.priorities, (e.country.value, s), e) {
        UpToDateIff(t, (e.country.value, s), e);
      }
    }
  }

  /** The event took place on every selected server: all have what it asks for, and one
      that did not remembers its former route. */
  lemma EventSwitchesServer(t: Tables, e: EventInput, key: Key)
    requires EventAccepted(t, e) && Selected(e, key)
    ensures HasAsked(AfterEvent(t, e).priorities, key, e)
    ensures !HasAsked(t.priorities, key, e) ==>
              AfterEvent(t, e).priorities[key].previous == FormerRoute(t.priorities, key)
    ensures HasAsked(t.priorities, key, e) ==> AfterEvent(t, e).priorities[key] == t.priorities[key]
  {
    var s := key.1;
    assert key == (e.country.value, s);
  }

  /** Unselected rows are neither changed, created nor removed. */
  lemma EventSparesOthers(t: Tables, e: EventInput, key: Key)
    requires EventAccepted(t, e) && !Selected(e, key)
    ensures key in AfterEvent(t, e).priorities <==> key in t.priorities
    ensures key in t.priorities ==> AfterEvent(t, e).priorities[key] == t.priorities[key]
  {
  }

  /** What the record of a server says: the event, the server's former and new route, and
      whether the server did not have yet what the event asks for. */
  ghost predicate Recorded(t: Tables, e: EventInput, s: Id, r: EventServer) {
    && e.country.Some? && e.route.Some?
    && r.event == t.events && r.server == s && r.after == e.route.value
    && r.before == FormerRoute(t.priorities, (e.country.value, s))
    && (r.applied <==> !HasAsked(t.priorities, (e.country.value, s), e))
  }

  /** The event's records: one for each selected server and none for any other. */
  lemma EventRecordsServers(t: Tables, e: EventInput)
    requires EventAccepted(t, e)
    ensures var after := AfterEvent(t, e).eventServers; var n := |t.eventServers|;
            && t.eventServers <= after && AfterEvent(t, e).events == t.events + 1
            && (forall i :: n <= i < |after| ==>
                  after[i].server in e.servers && Recorded(t, e, after[i].server, after[i]))
            && (forall i, j :: n <= i < j < |after| ==> after[i].server != after[j].server)
  {
    var servers := Distinct(e.servers);
    forall i | 0 <= i < |servers| ensures servers[i] in e.servers {
      assert servers[i] in servers;
    }
  }

  lemma RecordForSays(t: Tables, e: EventInput, s: Id)
    requires e.country.Some? && e.route.Some?
    ensures Recorded(t, e, s, RecordFor(t, s, e))
  {
    UpToDateIff(t, (e.country.value, s), e);
  }

  lemma RecordsAt(t: Tables, servers: seq<Id>, e: EventInput, k: nat)
    requires e.country.Some? && e.route.Some? && k < |servers|
    ensures Records(t, servers, e)[k] == RecordFor(t, servers[k], e)
  {
  }

  lemma EventRecordsEach(t: Tables, e: EventInput, s: Id) returns (i: nat)
    requires EventAccepted(t, e) && s in e.servers
    ensures |t.eventServers| <= i < |AfterEvent(t, e).eventServers|
    ensures Recorded(t, e, s, AfterEvent(t, e).eventServers[i])
  {
    assert s in Distinct(e.servers);
    var k :| 0 <= k < |Distinct(e.servers)| && Distinct(e.servers)[k] == s;
    RecordsAt(t, Distinct(e.servers), e, k);
    RecordForSays(t, e, s);
    i := |t.eventServers| + k;
  }

  /** What an event is for, said of the tables before and after it. */
  ghost predicate TookPlace(before: Tables, after: Tables, e: EventInput) {
    && (forall key :: Selected(e, key) ==> ServerSwitched(before, after, e, key))
    && (forall key :: !Selected(e, key) ==> SameRow(before.priorities, after.priorities, key))
  }

  /** The server now has the route and overflow asked for; if it did not before, it
      remembers its former route. */
  ghost predicate ServerSwitched(before: Tables, after: Tables, e: EventInput, key: Key) {
    && HasAsked(after.priorities, key, e)
    && (if HasAsked(before.priorities, key, e) then SameRow(before.priorities, after.priorities, key)
        else after.priorities[key].previous == FormerRoute(before.priorities, key))
  }

  ghost predicate SameRow(a: map<Key, Priority>, b: map<Key, Priority>, key: Key) {
    (key in a <==> key in b) && (key in a ==> a[key] == b[key])
  }

  /** The records added: one for each selected server, none for any other, and at least
      one of them is marked applied. */
  ghost predicate RecordsAdded(before: Tables, after: Tables, e: EventInput) {
    var n := |before.eventServers|;
    && before.eventServers <= after.eventServers && after.events == before.events + 1
    && (forall i :: n <= i < |after.eventServers| ==>
          && after.eventServers[i].server in e.servers
          && Recorded(before, e, after.eventServers[i].server, after.eventServers[i]))
    && (forall i, j :: n <= i < j < |after.eventServers| ==>
          after.eventServers[i].server != after.eventServers[j].server)
    && (forall s :: s in e.servers ==> exists i :: n <= i < |after.eventServers| && after.eventServers[i].server == s)
    && exists i :: n <= i < |after.eventServers| && after.eventServers[i].applied
  }

  lemma EventTookPlace(t: Tables, e: EventInput)
    requires EventAccepted(t, e)
    ensures TookPlace(t, AfterEvent(t, e), e)
  {
    var after := AfterEvent(t, e);
    forall key | Selected(e, key) ensures ServerSwitched(t, after, e, key) {
      EventSwitchesServer(t, e, key);
    }
    forall key | !Selected(e, key) ensures SameRow(t.priorities, after.priorities, key) {
      EventSparesOthers(t, e, key);
    }
  }

  lemma EventIsRecorded(t: Tables, e: EventInput)
    requires EventAccepted(t, e)
    ensures RecordsAdded(t, AfterEvent(t, e), e)
  {
    var after := AfterEvent(t, e).eventServers;
    EventRecordsServers(t, e);
    forall s | s in e.servers ensures exists i :: |t.eventServers| <= i < |after| && after[i].server == s {
      var i := EventRecordsEach(t, e, s);
    }
    EventAcceptedIff(t, e);
    var s :| s in e.servers && !HasAsked(t.priorities, (e.country.value, s), e);
    var i := EventRecordsEach(t, e, s);
    assert after[i].applied;
  }

  /** Submitting the same event again at once is refused, and changes nothing. */
  lemma RepeatedEventIsRefused(t: Tables, e: EventInput)
    requires EventAccepted(t, e)
    ensures !EventAccepted(AfterEvent(t, e), e)
    ensures Step(Step(t, PriorityEvent(e)), PriorityEvent(e)) == Step(t, PriorityEvent(e))
  {
    var after := AfterEvent(t, e);
    forall s | s in e.servers ensures HasAsked(after.priorities, (e.country.value, s), e) {
      EventSwitchesServer(t, e, (e.country.value, s));
    }
    EventAcceptedIff(after, e);
  }

  // ----- What every run keeps ---------------------------------------------------------------------------

  /** The overflow flag is set exactly with an overflow route, of the row's country. */
  ghost predicate OverflowOk(t: Tables) {
    forall k :: k in t.priorities ==> RowOverflowOk(t.routes, k, t.priorities[k])
  }

  predicate RowOverflowOk(routes: map<Id, Route>, key: Key, p: Priority) {
    && (p.hasOverflow <==> p.overflow.Some?)
    && (p.overflow.Some? ==> p.overflow.value in routes && routes[p.overflow.value].country == key.0)
  }

  lemma StepKeepsOverflow(t: Tables, call: Call)
    requires OverflowOk(t)
    ensures OverflowOk(Step(t, call))
  {
  }

  /** In every reachable row, under any mix of events, provider changes and edits. */
  lemma {:induction false} OverflowFlagMatchesRoute(calls: seq<Call>)
    ensures OverflowOk(Run(EMPTY, calls))
  {
    if calls != [] {
      OverflowFlagMatchesRoute(calls[..|calls| - 1]);
      StepKeepsOverflow(Run(EMPTY, calls[..|calls| - 1]), calls[|calls| - 1]);
    }
  }

  // ----- The country of the current route ------------------------------------------------------------------

  ghost predicate CurrentInCountry(t: Tables) {
    forall k :: k in t.priorities ==>
      t.priorities[k].current in t.routes && t.routes[t.priorities[k].current].country == k.0
  }

  lemma EventKeepsCountry(t: Tables, e: EventInput)
    requires CurrentInCountry(t) && EventAccepted(t, e)
    ensures CurrentInCountry(AfterEvent(t, e))
  {
  }

  /** When a provider change is accepted, check by check. */
  predicate MayChange(t: Tables, c: ChangeInput) {
    && c.reason != "" && (c.providerBefore != c.providerAfter ==> |c.servers| > 0)
    && (c.routeBefore.Some? ==>
          c.routeBefore.value in t.routes && t.routes[c.routeBefore.value].provider == c.providerBefore)
    && (c.routeAfter.Some? ==>
          c.routeAfter.value in t.routes && t.routes[c.routeAfter.value].provider == c.providerAfter)
    && (forall i, j :: 0 <= i < j < |c.servers| ==> c.servers[i] != c.servers[j])
    && (forall s :: s in c.servers ==> s in t.servers)
  }

  lemma ChangeAcceptedIff(t: Tables, c: ChangeInput)
    ensures ChangeAccepted(t, c) <==> MayChange(t, c)
  {
  }

  /** A provider change to another provider and a route of its own puts that route, without
      overflow, on the named servers; every other row stays, as do all of them otherwise. */
  ghost predicate ServersMoved(before: map<Key, Priority>, after: map<Key, Priority>, c: ChangeInput) {
    forall key: Key ::
      if c.providerBefore != c.providerAfter && c.routeAfter.Some? && key.0 == c.country && key.1 in c.servers
      then key in after && after[key] == Priority(c.routeAfter.value, FormerRoute(before, key), false, None)
      else SameRow(before, after, key)
  }

  lemma ChangeMovesServers(t: Tables, c: ChangeInput)
    ensures ServersMoved(t.priorities, AfterChange(t, c), c)
  {
  }

  /** A provider change checks only the provider of the new route: the rows keep routes
      of their own country exactly when it moves no server or its route is of the
      country named. */
  lemma ProviderChangeKeepsCountryIff(t: Tables, c: ChangeInput)
    requires CurrentInCountry(t) && ChangeAccepted(t, c)
    ensures CurrentInCountry(Effect(t, ProviderChange(c))) <==>
            (Moves(c) ==> t.routes[c.routeAfter.value].country == c.country)
  {
    var after := Effect(t, ProviderChange(c));
    if Moves(c) {
      var k := (c.country, c.servers[0]);
      assert k in after.priorities && after.priorities[k].current == c.routeAfter.value;
    }
  }

  lemma RunOfOneMore(t: Tables, calls: seq<Call>, call: Call)
    ensures Run(t, calls + [call]) == Step(Run(t, calls), call)
  {
    assert (calls + [call])[..|calls|] == calls;
  }

  /** Route 7 belongs to country 2; a provider change for country 1 moves server 3 to it. */
  const TWO_COUNTRIES: seq<Call> := [EditRoutes(map[7 := Route(2, 5, true)]), EditServers(map[3 := true], {"r"})]
  const ABROAD := ChangeInput(1, 4, 5, None, Some(7), [3], "r")

  lemma ProviderChangeLosesCountry()
    ensures var t := Run(EMPTY, TWO_COUNTRIES);
            && CurrentInCountry(t) && ChangeAccepted(t, ABROAD)
            && !CurrentInCountry(Run(EMPTY, TWO_COUNTRIES + [ProviderChange(ABROAD)]))
  {
    var first, second := TWO_COUNTRIES[0], TWO_COUNTRIES[1];
    assert TWO_COUNTRIES == [] + [first] + [second];
    RunOfOneMore(EMPTY, [], first);
    RunOfOneMore(EMPTY, [] + [first], second);
    RunOfOneMore(EMPTY, TWO_COUNTRIES, ProviderChange(ABROAD));
    ProviderChangeKeepsCountryIff(Run(EMPTY, TWO_COUNTRIES), ABROAD);
  }
}
