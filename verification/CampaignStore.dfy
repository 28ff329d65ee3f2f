/** The repository methods that write campaign routing, statement by statement.

    Each method is proved against `Step`: a call is refused exactly when it is not
    `Accepted`, a refused call leaves every table as it was (the transaction is
    rolled back), and an accepted call has exactly the stated effect. */
module CampaignStore {
  import opened Common
  import opened CampaignMeaning
  import opened CampaignRouting
  import opened CampaignVersions

  /** Whether an edit reaches the settings table can be read before or after it. */
  lemma ReachesIgnoresComments(t: Tables, i: nat, comment: string)
    requires i < |t.events|
    ensures Reaches(t.(events := t.events[i := t.events[i].(comment := comment)]), i) <==> Reaches(t, i)
  {
    var edited := t.events[i := t.events[i].(comment := comment)];
    if HasLaterActive(t.events, i) {
      var j :| 0 <= j < |t.events| && t.events[j].active && t.events[j].company == t.events[i].company
               && (t.events[j].at > t.events[i].at || (t.events[j].at == t.events[i].at && j > i));
      assert edited[j].active && edited[j].company == edited[i].company;
    }
  }

  class Store {
    var companies: seq<Company>
    var routes: map<Id, Route>
    var countries: set<Id>
    var servers: set<Id>
    var reasons: set<string>
    var settings: seq<Setting>
    var events: seq<Event>

    ghost function Data(): Tables
      reads this
    {
      Tables(companies, routes, countries, servers, reasons, settings, events)
    }

    constructor ()
      ensures Data() == EMPTY
    {
      companies, routes, countries, servers, reasons := [], map[], {}, {}, {};
      settings, events := [], [];
    }

    /** The checks shared by every version write, in the order they are made. */
    method ValidateScheme(company: Id, s: Scheme) returns (ok: bool)
      ensures ok <==> SchemeAllowed(Data(), company, s)
    {
      if s.mode == CampaignRouteMode && s.routing.route.None? { return false; }
      if s.mode == AutorotationMode && !s.routing.auto { return false; }
      if company >= |companies| { return false; }
      var owner := companies[company];
      if owner.country.None? && s.routing.route.Some? { return false; }
      if owner.country.Some? && owner.country != s.country { return false; }
      if owner.server != s.server { return false; }
      if s.country.Some? && s.country.value !in countries { return false; }
      if s.server !in servers { return false; }
      if s.routing.route.Some? {
        var id := s.routing.route.value;
        if id !in routes { return false; }
        if s.country.Some? && routes[id].country != s.country.value { return false; }
      }
      return true;
    }

    method CreateSetting(owner: Id, s: Scheme, at: int) returns (r: Result<nat>)
      modifies this`settings
      ensures r.Ok? <==> Accepted(old(Data()), Call.CreateSetting(owner, s, at))
      ensures Data() == Step(old(Data()), Call.CreateSetting(owner, s, at))
      ensures r.Ok? ==> r.value == old(|settings|)
      ensures r.Ok? <==>
              && MayWrite(old(Data()), owner, s)
              && forall v :: v in old(settings) ==> !(v.company == owner && v.active && v.to.None?)
      ensures r.Ok? ==> settings == old(settings) + [Setting(owner, s, true, at, None)]
    {
      SchemeAllowedIff(Data(), owner, s);
      var valid := ValidateScheme(owner, s);
      if !valid { return Refused; }
      if ActiveSetting(settings, owner).Some? { return Refused; }
      settings := settings + [Setting(owner, s, true, at, None)];
      return Ok(|settings| - 1);
    }

    method UpdateSetting(i: nat, s: Scheme, at: int) returns (r: Result<nat>)
      modifies this`settings
      ensures r.Ok? <==> Accepted(old(Data()), Call.UpdateSetting(i, s, at))
      ensures Data() == Step(old(Data()), Call.UpdateSetting(i, s, at))
      ensures r.Ok? ==> r.value < |settings| && settings[r.value].scheme == s
      ensures r.Ok? <==> && i < old(|settings|) && old(settings)[i].active && old(settings)[i].to.None?
                         && MayWrite(old(Data()), old(settings)[i].company, s)
      ensures r.Ok? ==> VersionRewritten(old(settings), settings, i, s, at)
    {
      if i < |settings| { SchemeAllowedIff(Data(), settings[i].company, s); }
      if i >= |settings| { return Refused; }
      var existing := settings[i];
      if !existing.active || existing.to.Some? { return Refused; }
      var valid := ValidateScheme(existing.company, s);
      if !valid { return Refused; }
      var changed := existing.scheme.country != s.country || existing.scheme.server != s.server
                     || existing.scheme.routing != s.routing || existing.scheme.mode != s.mode;
      if !changed {
        settings := settings[i := existing.(scheme := existing.scheme.(comment := s.comment))];
        return Ok(i);
      }
      settings := settings[i := existing.(to := Some(at), active := false)];
      settings := settings + [Setting(existing.company, s, true, at, None)];
      return Ok(|settings| - 1);
    }

    method EditSettingComment(i: nat, comment: string) returns (r: Result<nat>)
      modifies this`settings
      ensures r.Ok? <==> Accepted(old(Data()), Call.EditSettingComment(i, comment))
      ensures Data() == Step(old(Data()), Call.EditSettingComment(i, comment))
      ensures r.Ok? <==> i < old(|settings|) && old(settings)[i].active && old(settings)[i].to.None?
      ensures r.Ok? ==> settings == old(settings)[i :=
                                      old(settings)[i].(scheme := old(settings)[i].scheme.(comment := comment))]
    {
      if i >= |settings| { return Refused; }
      var existing := settings[i];
      if !existing.active || existing.to.Some? { return Refused; }
      settings := settings[i := existing.(scheme := existing.scheme.(comment := comment))];
      return Ok(i);
    }

    method DeactivateSetting(i: nat, at: int) returns (r: Result<nat>)
      modifies this`settings
      ensures r.Ok? <==> Accepted(old(Data()), Call.DeactivateSetting(i, at))
      ensures Data() == Step(old(Data()), Call.DeactivateSetting(i, at))
      ensures r.Ok? <==> i < old(|settings|) && old(settings)[i].active && old(settings)[i].to.None?
      ensures r.Ok? ==> settings == old(settings)[i := old(settings)[i].(active := false, to := Some(at))]
    {
      if i >= |settings| { return Refused; }
      var existing := settings[i];
      if !existing.active || existing.to.Some? { return Refused; }
      settings := settings[i := existing.(to := Some(at), active := false)];
      return Ok(i);
    }

    method CreateCompany(company: Company, now: int) returns (r: Result<Id>)
      modifies this`companies, this`settings
      ensures r.Ok? <==> Accepted(old(Data()), Call.CreateCompany(company, now))
      ensures Data() == Step(old(Data()), Call.CreateCompany(company, now))
      ensures r.Ok? ==> r.value == old(|companies|)
      ensures r.Ok? <==>
              && company.name != "" && company.externalId != "" && company.server in servers
              && (company.country.Some? ==> company.country.value in countries)
              && forall i :: 0 <= i < old(|companies|) ==> old(companies)[i].externalId != company.externalId
      ensures r.Ok? ==> companies == old(companies) + [company]
      ensures r.Ok? && !company.initialAuto ==> settings == old(settings)
      ensures r.Ok? && company.initialAuto ==>
                && |settings| == old(|settings|) + 1 && old(settings) <= settings
                && var first := settings[old(|settings|)];
                && first.company == r.value && first.active && first.from == now && first.to == None
                && first.scheme.country == company.country && first.scheme.server == company.server
                && first.scheme.routing == Routing(None, true) && first.scheme.mode == AutorotationMode
    {
      CompanyAcceptedIff(Data(), company, now);
      r := InsertCompany(company, now);
    }

    /** The statements of the call; the initial version is checked like any other. */
    method InsertCompany(company: Company, now: int) returns (r: Result<Id>)
      modifies this`companies, this`settings
      ensures r.Ok? <==> Accepted(old(Data()), Call.CreateCompany(company, now))
      ensures Data() == Step(old(Data()), Call.CreateCompany(company, now))
      ensures r.Ok? ==> r.value == old(|companies|)
    {
      if company.name == "" || company.externalId == "" { return Refused; }
      if exists i :: 0 <= i < |companies| && companies[i].externalId == company.externalId { return Refused; }
      if company.server !in servers { return Refused; }
      if company.country.Some? && company.country.value !in countries { return Refused; }
      var savedCompanies := companies;
      var id := |companies|;
      companies := companies + [company];
      if company.initialAuto {
        var valid := ValidateScheme(id, InitialScheme(company));
        if !valid {
          companies := savedCompanies;
          return Refused;
        }
        settings := settings + [Setting(id, InitialScheme(company), true, now, None)];
      }
      return Ok(id);
    }

    /** The state that applying the event would leave, or a refusal; with the GEO
        that goes into the event row. */
    method NextRouting(e: EventInput) returns (ok: bool, after: Routing, country: Option<Id>)
      requires e.company < |companies|
      ensures ok <==>
              && Applied(e.change, Current(settings, e.company)) != Current(settings, e.company)
              && ChangeAllowed(Data(), e)
      ensures ok ==> after == Applied(e.change, Current(settings, e.company))
      ensures ok ==> country == EventCountry(Data(), e)
    {
      var company := companies[e.company];
      var active := ActiveSetting(settings, e.company);
      var before := if active.Some? then settings[active.value].scheme.routing else NO_ROUTING;
      ok, after, country := false, before, company.country;
      if company.country.None? && before.route.Some? {
        country := settings[active.value].scheme.country;
      }
      match e.change {
        case EnableAutorotation =>
          if before.auto { return; }
          after := Routing(before.route, true);
        case DisableAutorotation =>
          if !before.auto { return; }
          after := Routing(before.route, false);
        case SetCampaignRoute(r) =>
          if r.None? { return; }
          if r.value !in routes || !routes[r.value].actual { return; }
          if company.country.Some? && routes[r.value].country != company.country.value { return; }
          if before.route == r { return; }
          country := Some(routes[r.value].country);
          after := Routing(r, before.auto);
        case RemoveCampaignRoute =>
          if before.route.None? { return; }
          if before.route.value !in routes { return; }
          country := Some(routes[before.route.value].country);
          after := Routing(None, before.auto);
        case UnknownChange => return;
      }
      ok := true;
    }

    /** `create_routing_event` for the campaign scope: record the event, then bring
        the settings table in line with it. */
    method CreateCampaignEvent(e: EventInput) returns (r: Result<nat>)
      modifies this`events, this`settings
      ensures r.Ok? <==> Accepted(old(Data()), CampaignEvent(e))
      ensures Data() == Step(old(Data()), CampaignEvent(e))
      ensures r.Ok? <==> MayHappen(old(Data()), e)
      ensures r.Ok? ==> EventFiled(old(Data()), Data(), e) && VersionsFollow(old(Data()), Data(), e)
      ensures r.Ok? && old(VersionsOk(settings)) ==>
                && Follows(e.change, old(Current(settings, e.company)), Current(settings, e.company))
                && ModeFits(Current(settings, e.company), CurrentMode(settings, e.company))
    {
      EventAcceptedIff(Data(), e);
      ghost var before := Data();
      r := FileEvent(e);
      if r.Ok? {
        EventIsFiled(before, e);
        EventMovesVersions(before, e);
        if VersionsOk(before.settings) {
          EventIsInForce(before, e);
        }
      }
    }

    /** The statements of the call: the checks, the event row, then the version. */
    method FileEvent(e: EventInput) returns (r: Result<nat>)
      modifies this`events, this`settings
      ensures r.Ok? <==> Accepted(old(Data()), CampaignEvent(e))
      ensures Data() == Step(old(Data()), CampaignEvent(e))
    {
      if e.reason !in reasons { return Refused; }
      if e.reason == OTHER_REASON && e.comment == "" { return Refused; }
      if e.company >= |companies| || !companies[e.company].active { return Refused; }
      var ok, after, country := NextRouting(e);
      if !ok { return Refused; }
      var savedEvents := events;
      var before := Current(settings, e.company);
      events := events + [Event(e.at, e.company, e.change, country, before, CurrentMode(settings, e.company),
                                after, ModeFor(after), e.comment, true)];
      var scheme := Scheme(country, companies[e.company].server, after, ModeFor(after), e.comment);
      var applied := ApplyCampaignSetting(e, scheme);
      if !applied {
        events := savedEvents;
        return Refused;
      }
      return Ok(|events| - 1);
    }

    /** Deactivate, create or update the version, depending on the state announced. */
    method ApplyCampaignSetting(e: EventInput, s: Scheme) returns (ok: bool)
      requires e.company < |companies|
      requires s == EventScheme(Data(), e)
      modifies this`settings
      ensures ok <==> (NeedsVersion(s.routing) ==> SchemeAllowed(old(Data()), e.company, s))
      ensures settings == if ok then old(SettingsAfterEvent(Data(), e)) else old(settings)
    {
      var active := ActiveSetting(settings, e.company);
      var r: Result<nat> := Ok(0);
      if NeedsVersion(s.routing) {
        if active.None? {
          r := CreateSetting(e.company, s, e.at);
        } else {
          r := UpdateSetting(active.value, s, e.at);
        }
      } else if active.Some? {
        r := DeactivateSetting(active.value, e.at);
      }
      return r.Ok?;
    }

    method EditEventComment(i: nat, comment: string) returns (r: Result<nat>)
      modifies this`events, this`settings
      ensures r.Ok? <==> Accepted(old(Data()), Call.EditEventComment(i, comment))
      ensures Data() == Step(old(Data()), Call.EditEventComment(i, comment))
      ensures r.Ok? <==> i < old(|events|) && comment != ""
      ensures r.Ok? && comment != old(events)[i].comment ==> CommentWritten(old(Data()), Data(), i, comment)
      ensures r.Ok? && comment == old(events)[i].comment ==> Data() == old(Data())
    {
      if i < |events| && comment != "" && comment != events[i].comment {
        EditWritesComment(Data(), i, comment);
      }
      if i >= |events| { return Refused; }
      var existing := events[i];
      if comment == "" { return Refused; }
      if comment == existing.comment { return Ok(i); }
      ReachesIgnoresComments(Data(), i, comment);
      events := events[i := existing.(comment := comment)];
      SyncComment(existing, i, comment);
      return Ok(i);
    }

    /** The comment synchronisation that follows an edit: `existing` is the row as it
        was read before the edit. */
    method SyncComment(existing: Event, i: nat, comment: string)
      requires i < |events| && events[i] == existing.(comment := comment)
      modifies this`settings
      ensures settings == SettingsAfterEdit(old(Data()), i, comment)
    {
      var active := ActiveSetting(settings, existing.company);
      if active.None? { return; }
      var later := exists j :: 0 <= j < |events| && events[j].active && events[j].company == existing.company
                               && (events[j].at > existing.at || (events[j].at == existing.at && j > i));
      if later { return; }
      var version := settings[active.value];
      if version.scheme.mode != existing.afterMode
         || version.scheme.routing.route != existing.after.route
         || version.scheme.routing.auto != existing.after.auto {
        return;
      }
      settings := settings[active.value := version.(scheme := version.scheme.(comment := comment))];
    }

    method DeactivateEvent(i: nat, reason: string) returns (r: Result<nat>)
      modifies this`events
      ensures r.Ok? <==> Accepted(old(Data()), Call.DeactivateEvent(i, reason))
      ensures Data() == Step(old(Data()), Call.DeactivateEvent(i, reason))
      ensures r.Ok? <==> i < old(|events|) && old(events)[i].active && reason != ""
      ensures r.Ok? ==> events == old(events)[i := old(events)[i].(active := false)]
    {
      if i >= |events| || !events[i].active { return Refused; }
      if reason == "" { return Refused; }
      events := events[i := events[i].(active := false)];
      return Ok(i);
    }
  }
}
