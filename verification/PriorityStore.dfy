/** The repository methods that write server priorities, loops included, against
    the all-at-once specification. */
module PriorityStore {
  import opened Common
  import opened ServerPriority

  /** What the first pass finds out about one selected server. */
  datatype Affected = Affected(server: Id, before: Option<Id>, applied: bool)

  ghost predicate Examined(t: Tables, e: EventInput, s: Id, a: Affected)
    requires e.country.Some?
  {
    var key := (e.country.value, s);
    && a.server == s && (a.applied <==> !UpToDate(t, key, e))
    && a.before == if key in t.priorities then Some(t.priorities[key].current) else None
  }

  /** The row a switch leaves, in terms of the table as it stands. */
  function SwitchedRow(priorities: map<Key, Priority>, key: Key, e: EventInput): Priority
    requires e.route.Some?
  {
    Priority(e.route.value, if key in priorities then Some(priorities[key].current) else None,
             e.hasOverflow, if e.hasOverflow then e.overflow else None)
  }

  /** One more server switched: its row is still as it was before the event. */
  lemma SwitchNext(t: Tables, servers: seq<Id>, k: nat, e: EventInput)
    requires e.country.Some? && e.route.Some? && k < |servers| && servers[k] !in servers[..k]
    ensures var key := (e.country.value, servers[k]);
            var before := SwitchedAll(t, servers[..k], e);
            SwitchedAll(t, servers[..k + 1], e) ==
            if UpToDate(t, key, e) then before else before[key := SwitchedRow(before, key, e)]
  {
  }

  lemma SameServersSameSwitch(t: Tables, a: seq<Id>, b: seq<Id>, e: EventInput)
    requires e.country.Some? && e.route.Some? && forall s :: s in a <==> s in b
    ensures SwitchedAll(t, a, e) == SwitchedAll(t, b, e)
  {
  }

  /** One more server moved. */
  lemma MoveNext(t: Tables, country: Id, servers: seq<Id>, k: nat, route: Id)
    requires k < |servers| && servers[k] !in servers[..k]
    ensures var key := (country, servers[k]);
            var before := MovedAll(t, country, servers[..k], route);
            MovedAll(t, country, servers[..k + 1], route) ==
            before[key := Priority(route, if key in before then Some(before[key].current) else None, false, None)]
  {
  }

  lemma AllHaveAsked(before: Tables, after: Tables, e: EventInput)
    requires e.country.Some? && TookPlace(before, after, e)
    ensures forall s :: s in e.servers ==> HasAsked(after.priorities, (e.country.value, s), e)
  {
    forall s | s in e.servers ensures HasAsked(after.priorities, (e.country.value, s), e) {
      assert Selected(e, (e.country.value, s));
    }
  }

  predicate AllKnown(servers: map<Id, bool>, ids: seq<Id>) {
    forall s :: s in ids ==> s in servers
  }

  lemma OneMoreServer(servers: map<Id, bool>, ids: seq<Id>, i: nat)
    requires i < |ids| && NoRepeats(ids[..i]) && AllKnown(servers, ids[..i])
    ensures ids[i] in servers && ids[i] !in ids[..i] ==>
              NoRepeats(ids[..i + 1]) && AllKnown(servers, ids[..i + 1])
    ensures ids[i] !in servers || ids[i] in ids[..i] ==> !NoRepeats(ids) || !AllKnown(servers, ids)
  {
  }

  class Store {
    var routes: map<Id, Route>
    var servers: map<Id, bool>
    var reasons: set<string>
    var priorities: map<Key, Priority>
    var events: nat
    var eventServers: seq<EventServer>

    ghost function Data(): Tables
      reads this
    {
      Tables(routes, servers, reasons, priorities, events, eventServers)
    }

    constructor ()
      ensures Data() == EMPTY
    {
      routes, servers, reasons, priorities, events, eventServers := map[], map[], {}, map[], 0, [];
    }

    method NormalizeServers(raw: seq<Id>) returns (r: seq<Id>)
      ensures r == Distinct(raw)
    {
      r := [];
      var i := 0;
      while i < |raw|
        invariant 0 <= i <= |raw| && r == Distinct(raw[..i])
      {
        assert raw[..i + 1][..i] == raw[..i];
        if raw[i] !in r {
          r := r + [raw[i]];
        }
        i := i + 1;
      }
      assert raw[..i] == raw;
    }

    /** The checks on the routes of the event, in the order they are made. */
    method RoutesAreChosen(e: EventInput) returns (ok: bool)
      ensures ok <==> RouteChosen(Data(), e) && OverflowChosen(Data(), e) && e.servers != []
    {
      if e.country.None? || e.route.None? { return false; }
      if e.servers == [] { return false; }
      if e.route.value !in routes { return false; }
      if routes[e.route.value].country != e.country.value { return false; }
      if e.provider.Some? && routes[e.route.value].provider != e.provider.value { return false; }
      if e.hasOverflow {
        if e.overflow.None? { return false; }
        if e.overflowProvider.None? { return false; }
        if e.overflow.value !in routes { return false; }
        var overflow := routes[e.overflow.value];
        if !overflow.actual || overflow.country != e.country.value { return false; }
        if overflow.provider != e.overflowProvider.value { return false; }
      }
      return true;
    }

    /** The first pass: every selected server is examined; the event is refused if one
        is missing or inactive, or if none would change. */
    method ExamineServers(e: EventInput, selected: seq<Id>) returns (r: Result<seq<Affected>>)
      requires e.country.Some? && e.route.Some? && selected != []
      ensures r.Ok? <==> (forall s :: s in selected ==> s in servers && servers[s])
                         && exists s :: s in selected && !UpToDate(Data(), (e.country.value, s), e)
      ensures r.Ok? ==> |r.value| == |selected|
                        && forall i :: 0 <= i < |selected| ==> Examined(Data(), e, selected[i], r.value[i])
    {
      var affected: seq<Affected> := [];
      var anyApplied := false;
      var i := 0;
      while i < |selected|
        invariant 0 <= i <= |selected| == i + (|selected| - i) && |affected| == i
        invariant forall j :: 0 <= j < i ==> selected[j] in servers && servers[selected[j]]
        invariant forall j :: 0 <= j < i ==> Examined(Data(), e, selected[j], affected[j])
        invariant anyApplied <==> exists j :: 0 <= j < i && affected[j].applied
      {
        var s := selected[i];
        if s !in servers || !servers[s] {
          assert s in selected;
          return Refused;
        }
        var key := (e.country.value, s);
        var isNoop := key in priorities && priorities[key].current == e.route.value
                      && priorities[key].hasOverflow == e.hasOverflow && priorities[key].overflow == Overflow(e);
        var former := if key in priorities then Some(priorities[key].current) else None;
        affected := affected + [Affected(s, former, !isNoop)];
        anyApplied := anyApplied || !isNoop;
        i := i + 1;
      }
      if !anyApplied {
        assert forall j :: 0 <= j < |selected| ==>
            Examined(Data(), e, selected[j], affected[j]) && !affected[j].applied;
        return Refused;
      }
      var j :| 0 <= j < |affected| && affected[j].applied;
      assert Examined(Data(), e, selected[j], affected[j]);
      assert selected[j] in selected;
      return Ok(affected);
    }

    method CreatePriorityEvent(e: EventInput) returns (r: Result<nat>)
      modifies this`priorities, this`events, this`eventServers
      ensures r.Ok? <==> Accepted(old(Data()), PriorityEvent(e))
      ensures Data() == Step(old(Data()), PriorityEvent(e))
      ensures r.Ok? <==> MayHappen(old(Data()), e)
      ensures r.Ok? ==> TookPlace(old(Data()), Data(), e) && RecordsAdded(old(Data()), Data(), e)
      ensures r.Ok? ==> forall s :: s in e.servers ==>
                var key := (e.country.value, s);
                && key in priorities && priorities[key].current == e.route.value
                && priorities[key].hasOverflow == e.hasOverflow
                && priorities[key].overflow == if e.hasOverflow then e.overflow else None
    {
      ghost var before := Data();
      EventAcceptedIff(before, e);
      r := FileEvent(e);
      if r.Ok? {
        EventTookPlace(before, e);
        EventIsRecorded(before, e);
        AllHaveAsked(before, Data(), e);
      }
    }

    method FileEvent(e: EventInput) returns (r: Result<nat>)
      modifies this`priorities, this`events, this`eventServers
      ensures r.Ok? <==> Accepted(old(Data()), PriorityEvent(e))
      ensures Data() == Step(old(Data()), PriorityEvent(e))
    {
      if e.reason !in reasons { return Refused; }
      if e.reason == OTHER_REASON && e.comment == "" { return Refused; }
      var ok := RoutesAreChosen(e);
      if !ok { return Refused; }
      var selected := NormalizeServers(e.servers);
      assert e.servers[0] in selected;
      var examined := ExamineServers(e, selected);
      if examined.Refused? { return Refused; }
      ghost var before := Data();
      ApplyPriority(e, selected, examined.value);
      SameServersSameSwitch(before, selected, e.servers, e);
      events := events + 1;
      return Ok(events - 1);
    }

    /** The second pass: applied servers are switched, and every server is recorded. */
    method ApplyPriority(e: EventInput, selected: seq<Id>, affected: seq<Affected>)
      requires e.country.Some? && e.route.Some? && |affected| == |selected| && NoRepeats(selected)
      requires forall i :: 0 <= i < |selected| ==> Examined(Data(), e, selected[i], affected[i])
      modifies this`priorities, this`eventServers
      ensures priorities == SwitchedAll(old(Data()), selected, e)
      ensures eventServers == old(eventServers) + Records(old(Data()), selected, e)
    {
      ghost var t := Data();
      var i := 0;
      while i < |selected|
        invariant 0 <= i <= |selected|
        invariant priorities == SwitchedAll(t, selected[..i], e)
        invariant eventServers == t.eventServers + Records(t, selected, e)[..i]
      {
        assert Examined(t, e, selected[i], affected[i]);
        ApplyToServer(t, e, selected, i, affected[i]);
        i := i + 1;
      }
      assert selected[..i] == selected;
    }

    method ApplyToServer(ghost t: Tables, e: EventInput, ghost selected: seq<Id>, ghost i: nat, a: Affected)
      requires e.country.Some? && e.route.Some? && i < |selected| && NoRepeats(selected)
      requires Examined(t, e, selected[i], a) && events == t.events
      requires priorities == SwitchedAll(t, selected[..i], e)
      requires eventServers == t.eventServers + Records(t, selected, e)[..i]
      modifies this`priorities, this`eventServers
      ensures priorities == SwitchedAll(t, selected[..i + 1], e)
      ensures eventServers == t.eventServers + Records(t, selected, e)[..i + 1]
    {
      SwitchNext(t, selected, i, e);
      if a.applied {
        var key := (e.country.value, a.server);
        priorities := priorities[key := SwitchedRow(priorities, key, e)];
      }
      eventServers := eventServers + [EventServer(events, a.server, a.before, e.route.value, a.applied)];
      assert Records(t, selected, e)[i] == RecordFor(t, selected[i], e);
    }

    method CreateProviderChange(c: ChangeInput) returns (r: Result<()>)
      modifies this`priorities
      ensures r.Ok? <==> Accepted(old(Data()), ProviderChange(c))
      ensures Data() == Step(old(Data()), ProviderChange(c))
      ensures r.Ok? <==> MayChange(old(Data()), c)
      ensures r.Ok? ==> ServersMoved(old(priorities), priorities, c)
    {
      ChangeAcceptedIff(Data(), c);
      ChangeMovesServers(Data(), c);
      var providerChanged := c.providerBefore != c.providerAfter;
      if c.reason == "" { return Refused; }
      if providerChanged && c.servers == [] { return Refused; }
      if c.routeBefore.Some?
         && (c.routeBefore.value !in routes || routes[c.routeBefore.value].provider != c.providerBefore)
      {
        return Refused;
      }
      if c.routeAfter.Some?
         && (c.routeAfter.value !in routes || routes[c.routeAfter.value].provider != c.providerAfter)
      {
        return Refused;
      }
      var saved := priorities;
      var ok := MoveServers(c, providerChanged && c.routeAfter.Some?);
      if !ok {
        priorities := saved;
        return Refused;
      }
      return Ok(());
    }

    /** The loop over the servers.  The link table's keys stop it at an unknown or
        repeated server. */
    method MoveServers(c: ChangeInput, moves: bool) returns (ok: bool)
      requires moves ==> c.routeAfter.Some?
      modifies this`priorities
      ensures ok <==> NoRepeats(c.servers) && AllKnown(servers, c.servers)
      ensures ok ==> priorities == if moves then MovedAll(old(Data()), c.country, c.servers, c.routeAfter.value)
                                   else old(priorities)
    {
      ghost var t := Data();
      var i := 0;
      while i < |c.servers|
        invariant 0 <= i <= |c.servers|
        invariant NoRepeats(c.servers[..i]) && AllKnown(servers, c.servers[..i])
        invariant priorities == if moves then MovedAll(t, c.country, c.servers[..i], c.routeAfter.value)
                                else t.priorities
      {
        var s := c.servers[i];
        OneMoreServer(servers, c.servers, i);
        if s !in servers || s in c.servers[..i] {
          return false;
        }
        if moves {
          MoveNext(t, c.country, c.servers, i, c.routeAfter.value);
          MoveServer((c.country, s), c.routeAfter.value);
        }
        i := i + 1;
      }
      assert c.servers[..i] == c.servers;
      return true;
    }

    method MoveServer(key: Key, route: Id)
      modifies this`priorities
      ensures priorities == old(priorities)[key :=
        Priority(route, if key in old(priorities) then Some(old(priorities)[key].current) else None, false, None)]
    {
      if key in priorities {
        priorities := priorities[key := Priority(route, Some(priorities[key].current), false, None)];
      } else {
        priorities := priorities[key := Priority(route, None, false, None)];
      }
    }

    method UpdatePriority(key: Key, route: Id) returns (r: Result<()>)
      modifies this`priorities
      ensures r.Ok? <==> Accepted(old(Data()), EditPriority(key, route))
      ensures Data() == Step(old(Data()), EditPriority(key, route))
      ensures r.Ok? <==> key in old(priorities) && route in routes && routes[route].country == key.0
      ensures r.Ok? ==>
                var was := old(priorities)[key];
                priorities == old(priorities)[key :=
                  if was.current == route then was else was.(previous := Some(was.current), current := route)]
    {
      if key !in priorities { return Refused; }
      if route !in routes { return Refused; }
      if routes[route].country != key.0 { return Refused; }
      var existing := priorities[key];
      if existing.current != route {
        priorities := priorities[key := existing.(previous := Some(existing.current), current := route)];
      }
      return Ok(());
    }
  }
}
