/** The list pages of campaign settings and of routing events, which take the conditions
    apart again and put others before and after them. */
module RoutingLists {
  import opened Common
  import opened QueryBuilder
  import opened QueryMeaning
  import opened QueryText

  const SELECT_SETTINGS: Sql := [Operand(Plain(SettingCampaign))]
  const SELECT_EVENTS: Sql := [Operand(Plain(EventCampaign)), Mark, Mark, Mark, Mark]

  /** A list of clause texts and its parameters stand for these conditions. */
  ghost predicate Stand(clauses: seq<Sql>, params: seq<Value>, bs: seq<Conjunction>) {
    clauses == Texts(bs) && params == Args(bs)
  }

  lemma StandMore(clauses: seq<Sql>, params: seq<Value>, bs: seq<Conjunction>, b: Conjunction)
    requires Stand(clauses, params, bs)
    ensures Stand(clauses + [ConjunctionText(b)], params + ConjunctionArgs(b), bs + [b])
  {
  }

  lemma StandBoth(c: seq<Sql>, p: seq<Value>, a: seq<Conjunction>, d: seq<Sql>, q: seq<Value>, b: seq<Conjunction>)
    requires Stand(c, p, a) && Stand(d, q, b)
    ensures Stand(c + d, p + q, a + b)
  {
    TextsOfBoth(a, b);
    ArgsOfBoth(a, b);
  }

  /** The WHERE clause of `query_filters`, cut into its conditions again. */
  method SplitFilters(filters: Filters, mapping: seq<Mapped>) returns (clauses: seq<Sql>, params: seq<Value>)
    ensures Stand(clauses, params, FilterConditions(filters, mapping))
  {
    var where;
    where, params := QueryFilters(filters, mapping);
    clauses := [];
    FilterTextSplits(filters, mapping);
    if where != [] {
      clauses := SplitAnd(where[1..]);
    }
  }

  // ----- list_company_routing_settings -----------------------------------------------------------------

  const SETTING_MAPPING :=
    [Mapped(Exact(CountryId), SettingCountry), Mapped(Exact(ServerId), SettingServer),
     Mapped(Exact(RoutingMode), SettingMode), Mapped(Exact(CallingCompanyId), SettingCampaign),
     Mapped(Like(CompanyIdExternal), CampaignExternalId)]

  /** The campaign's external id is searched for, whichever way it is given. */
  function SettingFilters(filters: Filters): Filters {
    var v := Get(filters, Exact(CompanyIdExternal));
    if Neutral(v) then filters else filters[Like(CompanyIdExternal) := v]
  }

  predicate HistoryWanted(filters: Filters) {
    AsBool(Get(filters, Exact(IncludeHistory))) == Some(true) || AsBool(Get(filters, Exact(ShowHistory))) == Some(true)
  }

  /** An unsupported `is_active` matters only when the history is shown. */
  predicate SettingFlagsSupported(filters: Filters) {
    && Supported(Get(filters, Exact(IncludeHistory))) && Supported(Get(filters, Exact(ShowHistory)))
    && Supported(Get(filters, Exact(CompanyActive)))
    && (HistoryWanted(filters) ==> Supported(Get(filters, Exact(IsActive))))
  }

  function OpenConditions(): seq<Conjunction>
  {
    [EqualTo(SettingActive, TRUE), Absent(SettingValidTo)]
  }

  function SettingConditions(filters: Filters): Option<seq<Conjunction>>
  {
    if !SettingFlagsSupported(filters) then None
    else
      var bs := FilterConditions(SettingFilters(filters), SETTING_MAPPING)
                + BoolConditions(Get(filters, Exact(CompanyActive)), CampaignActive);
      Some(if HistoryWanted(filters) then bs + BoolConditions(Get(filters, Exact(IsActive)), SettingActive)
           else OpenConditions() + bs)
  }

  method AddBool(clauses: seq<Sql>, params: seq<Value>, v: Value, f: Field, ghost bs: seq<Conjunction>)
    returns (c: seq<Sql>, p: seq<Value>)
    requires Stand(clauses, params, bs)
    ensures Stand(c, p, bs + BoolConditions(v, f))
  {
    c, p := clauses, params;
    if Normal(v) != Null {
      c := c + [EqualsText(f)];
      p := p + [Normal(v)];
      StandMore(clauses, params, bs, EqualTo(f, Normal(v)));
    } else {
      assert bs + [] == bs;
    }
  }

  method SettingClauses(filters: Filters) returns (clauses: seq<Sql>, params: seq<Value>)
    requires SettingFlagsSupported(filters)
    ensures Stand(clauses, params, SettingConditions(filters).value)
  {
    var includeHistory := HistoryWanted(filters);
    var routingFilters := SettingFilters(filters);
    var companyActive := Get(filters, Exact(CompanyActive));
    ghost var bs := FilterConditions(routingFilters, SETTING_MAPPING);
    clauses, params := SplitFilters(routingFilters, SETTING_MAPPING);
    clauses, params := AddBool(clauses, params, companyActive, CampaignActive, bs);
    bs := bs + BoolConditions(companyActive, CampaignActive);
    clauses, params := AddHistory(clauses, params, includeHistory, Get(filters, Exact(IsActive)), bs);
  }

  method ListCompanyRoutingSettings(filters: Filters) returns (q: Query)
    ensures q == QueryFor(SELECT_SETTINGS, [], SettingConditions(filters))
    ensures forall row :: Answers(q, row) <==> SettingAskedFor(filters, row)
  {
    forall row
      ensures Answers(QueryFor(SELECT_SETTINGS, [], SettingConditions(filters)), row)
              <==> SettingAskedFor(filters, row)
    {
      SettingListMeaning(filters, row);
    }
    if !SettingFlagsSupported(filters) {
      return NoRows;
    }
    var clauses, params := SettingClauses(filters);
    return Query(SELECT_SETTINGS + WhereAll(clauses), [] + params);
  }

  /** The version filter goes to the end; the condition for open versions to the front. */
  method AddHistory(clauses: seq<Sql>, params: seq<Value>, includeHistory: bool, isActive: Value,
                    ghost bs: seq<Conjunction>)
    returns (c: seq<Sql>, p: seq<Value>)
    requires Stand(clauses, params, bs)
    ensures Stand(c, p, if includeHistory then bs + BoolConditions(isActive, SettingActive) else OpenConditions() + bs)
  {
    if includeHistory {
      c, p := AddBool(clauses, params, isActive, SettingActive, bs);
    } else {
      c, p := InsertOpen(clauses, params, bs);
    }
  }

  /** Two conditions at the front, with the one parameter they take. */
  method InsertOpen(clauses: seq<Sql>, params: seq<Value>, ghost bs: seq<Conjunction>)
    returns (c: seq<Sql>, p: seq<Value>)
    requires Stand(clauses, params, bs)
    ensures Stand(c, p, OpenConditions() + bs)
  {
    c := [EqualsText(SettingActive)] + clauses;
    c := c[..1] + [AbsentText(SettingValidTo)] + c[1..];
    p := [TRUE] + params;
    OpenStands();
    StandBoth([EqualsText(SettingActive), AbsentText(SettingValidTo)], [TRUE], OpenConditions(), clauses, params, bs);
    assert c == [EqualsText(SettingActive), AbsentText(SettingValidTo)] + clauses;
  }

  lemma OpenStands()
    ensures Stand([EqualsText(SettingActive), AbsentText(SettingValidTo)], [TRUE], OpenConditions())
  {
  }

  lemma SettingQueryIsAligned(filters: Filters)
    ensures var q := QueryFor(SELECT_SETTINGS, [], SettingConditions(filters)); q.Query? ==> Marks(q.sql) == |q.params|
  {
    CountedIff(SELECT_SETTINGS, Mark);
    if SettingConditions(filters).Some? {
      AsManyParametersAsMarks(SELECT_SETTINGS, [], SettingConditions(filters).value);
    }
  }

  /** The history is asked for under either name. */
  ghost predicate HistoryAsked(filters: Filters) {
    MeansTrue(Get(filters, Exact(IncludeHistory))) || MeansTrue(Get(filters, Exact(ShowHistory)))
  }

  function SearchedExternalId(filters: Filters): Value {
    var external := Get(filters, Exact(CompanyIdExternal));
    if NotGiven(external) then Get(filters, Like(CompanyIdExternal)) else external
  }

  ghost predicate SettingFlagsUnderstood(filters: Filters) {
    && Understood(Get(filters, Exact(IncludeHistory))) && Understood(Get(filters, Exact(ShowHistory)))
    && Understood(Get(filters, Exact(CompanyActive)))
    && (HistoryAsked(filters) ==> Understood(Get(filters, Exact(IsActive))))
  }

  lemma SettingFlagsIff(filters: Filters)
    ensures HistoryWanted(filters) <==> HistoryAsked(filters)
    ensures SettingFlagsSupported(filters) <==> SettingFlagsUnderstood(filters)
  {
    BoolIff(Get(filters, Exact(IncludeHistory)));
    BoolIff(Get(filters, Exact(ShowHistory)));
    BoolIff(Get(filters, Exact(CompanyActive)));
    BoolIff(Get(filters, Exact(IsActive)));
  }

  ghost predicate SettingAskedFor(filters: Filters, row: Row) {
    && SettingFlagsUnderstood(filters)
    && Met(filters, Exact(CountryId), Cell(row, SettingCountry))
    && Met(filters, Exact(ServerId), Cell(row, SettingServer))
    && Met(filters, Exact(RoutingMode), Cell(row, SettingMode))
    && Met(filters, Exact(CallingCompanyId), Cell(row, SettingCampaign))
    && SearchMet(SearchedExternalId(filters), Cell(row, CampaignExternalId))
    && Agrees(Get(filters, Exact(CompanyActive)), Cell(row, CampaignActive))
    && (if HistoryAsked(filters) then Agrees(Get(filters, Exact(IsActive)), Cell(row, SettingActive))
        else Cell(row, SettingActive) == Flag(true) && Cell(row, SettingValidTo) == Null)
  }

  lemma OpenMeaning(row: Row)
    ensures All(OpenConditions(), row) <==> Cell(row, SettingActive) == TRUE && Cell(row, SettingValidTo) == Null
  {
    assert OpenConditions()[0] == EqualTo(SettingActive, TRUE);
    assert OpenConditions()[1] == Absent(SettingValidTo);
  }

  lemma SettingFiltersMeaning(filters: Filters, row: Row)
    ensures All(FilterConditions(SettingFilters(filters), SETTING_MAPPING), row) <==>
            && Met(filters, Exact(CountryId), Cell(row, SettingCountry))
            && Met(filters, Exact(ServerId), Cell(row, SettingServer))
            && Met(filters, Exact(RoutingMode), Cell(row, SettingMode))
            && Met(filters, Exact(CallingCompanyId), Cell(row, SettingCampaign))
            && SearchMet(SearchedExternalId(filters), Cell(row, CampaignExternalId))
  {
    var m := SETTING_MAPPING;
    FiltersMeaning(SettingFilters(filters), m, row);
    assert m[0] in m && m[1] in m && m[2] in m && m[3] in m && m[4] in m;
  }

  /** The statement of the settings list selects exactly the versions asked for; without
      the history, the open ones. */
  lemma SettingListMeaning(filters: Filters, row: Row)
    ensures Answers(QueryFor(SELECT_SETTINGS, [], SettingConditions(filters)), row) <==> SettingAskedFor(filters, row)
  {
    CountedIff(SELECT_SETTINGS, Mark);
    SettingFlagsIff(filters);
    if SettingConditions(filters).Some? {
      QuerySelects(SELECT_SETTINGS, [], SettingConditions(filters).value, row);
      SettingConditionsMeaning(filters, row);
    }
  }

  lemma SettingConditionsMeaning(filters: Filters, row: Row)
    requires SettingConditions(filters).Some?
    ensures All(SettingConditions(filters).value, row) <==> SettingAskedFor(filters, row)
  {
    var a := FilterConditions(SettingFilters(filters), SETTING_MAPPING);
    var b := BoolConditions(Get(filters, Exact(CompanyActive)), CampaignActive);
    SettingFlagsIff(filters);
    AllOfBoth(a, b, row);
    SettingFiltersMeaning(filters, row);
    BoolMeaning(Get(filters, Exact(CompanyActive)), CampaignActive, row);
    if HistoryWanted(filters) {
      AllOfBoth(a + b, BoolConditions(Get(filters, Exact(IsActive)), SettingActive), row);
      BoolMeaning(Get(filters, Exact(IsActive)), SettingActive, row);
    } else {
      AllOfBoth(OpenConditions(), a + b, row);
      OpenMeaning(row);
    }
  }

  // ----- list_routing_events ---------------------------------------------------------------------------

  const EVENT_MAPPING :=
    [Mapped(Exact(CountryId), EventCountry), Mapped(Exact(ApplyScope), EventScope),
     Mapped(Exact(CallingCompanyId), EventCampaign), Mapped(Exact(ProviderId), EventProvider)]

  const CAMPAIGN_MAPPING := [Mapped(Like(CampaignId), CampaignExternalId)]

  predicate Truthy(v: Value) {
    v != Null && v != Text("") && v != Number(0) && v != Flag(false)
  }

  function If(wanted: bool, c: Conjunction): seq<Conjunction> {
    if wanted then [c] else []
  }

  /** The conditions before the equality filters. */
  function EventHead(filters: Filters): seq<Conjunction>
  {
    If(AsBool(Get(filters, Exact(IncludeInactive))) != Some(true), EqualTo(EventActive, TRUE))
    + If(Truthy(Get(filters, Exact(DateFrom))), AtLeast(EventAt, Get(filters, Exact(DateFrom))))
    + If(Truthy(Get(filters, Exact(DateTo))), AtMost(EventAt, Get(filters, Exact(DateTo))))
  }

  /** A priority event names the server itself or among its servers; a campaign's event
      concerns the campaign's own server. */
  function ServerText(): Sql {
    [Open, Open] + PriorityText() + [Close, Or, Open] + CampaignText() + [Close, Close]
  }

  function ScopeText(scope: string): Sql {
    [Operand(Plain(EventScope)), Comparison(Eq), Quoted(scope)]
  }

  function HasScope(scope: string): Fact {
    Single(CompareText(Plain(EventScope), Eq, scope))
  }

  function AmongServers(v: Value): Conjunction {
    AndThen(Single(SameParent), EqualTo(ServerOfEvent, v))
  }

  function NamesServer(v: Value): Fact {
    Group(OrElse(EqualTo(EventServer, v), Last(One(Sub(SomeServer, Last(AmongServers(v)))))))
  }

  function OnPriorityServer(v: Value): Conjunction {
    AndThen(HasScope("server_priority"), One(NamesServer(v)))
  }

  function OnCampaignServer(v: Value): Conjunction {
    AndThen(HasScope("campaign_setting"), EqualTo(CampaignServer, v))
  }

  function OnServer(v: Value): Conjunction {
    EitherGroup(OnPriorityServer(v), OnCampaignServer(v))
  }

  lemma AmongServersReads(v: Value)
    ensures ConjunctionText(AmongServers(v)) == [Correlated, And] + EqualsText(ServerOfEvent)
    ensures ConjunctionArgs(AmongServers(v)) == [v]
  {
  }

  lemma NamesServerReads(v: Value, row: Row)
    ensures FactText(NamesServer(v)) == [Open] + EqualsText(EventServer) + [Or, From(SomeServer), Correlated, And]
                                        + EqualsText(ServerOfEvent) + [Close, Close]
    ensures FactArgs(NamesServer(v)) == [v, v]
  {
    var sub := Sub(SomeServer, Last(AmongServers(v)));
    AmongServersReads(v);
    SubReads(SomeServer, AmongServers(v));
    OneReads(sub, row);
    EitherReads(EqualTo(EventServer, v), One(sub), row);
    assert ConjunctionText(One(sub)) == [From(SomeServer), Correlated, And] + EqualsText(ServerOfEvent) + [Close];
  }

  lemma ServerPartsRead(v: Value, row: Row)
    ensures ConjunctionText(OnPriorityServer(v)) == ScopeText("server_priority") + [And] + FactText(NamesServer(v))
    ensures ConjunctionArgs(OnPriorityServer(v)) == FactArgs(NamesServer(v))
    ensures ConjunctionText(OnCampaignServer(v)) == ScopeText("campaign_setting") + [And] + EqualsText(CampaignServer)
    ensures ConjunctionArgs(OnCampaignServer(v)) == [v]
  {
    OneReads(NamesServer(v), row);
    assert ConjunctionArgs(EqualTo(CampaignServer, v)) == [v];
  }

  function PriorityText(): Sql {
    ScopeText("server_priority") + [And, Open] + EqualsText(EventServer) + [Or, From(SomeServer), Correlated, And]
    + EqualsText(ServerOfEvent) + [Close, Close]
  }

  function CampaignText(): Sql {
    ScopeText("campaign_setting") + [And] + EqualsText(CampaignServer)
  }

  lemma PriorityReads(v: Value, row: Row)
    ensures ConjunctionText(OnPriorityServer(v)) == PriorityText() && ConjunctionArgs(OnPriorityServer(v)) == [v, v]
  {
    NamesServerReads(v, row);
    ServerPartsRead(v, row);
  }

  lemma ServerReads(v: Value, row: Row)
    ensures ConjunctionText(OnServer(v)) == ServerText() && ConjunctionArgs(OnServer(v)) == [v, v, v]
  {
    PriorityReads(v, row);
    ServerPartsRead(v, row);
    EitherGroupReads(OnPriorityServer(v), OnCampaignServer(v), row);
    assert [v, v] + [v] == [v, v, v];
  }

  function EitherGroup(p: Conjunction, c: Conjunction): Conjunction {
    One(Group(OrElse(One(Group(Last(p))), Last(One(Group(Last(c)))))))
  }

  lemma EitherGroupReads(p: Conjunction, c: Conjunction, row: Row)
    ensures ConjunctionText(EitherGroup(p, c)) ==
            [Open, Open] + ConjunctionText(p) + [Close, Or, Open] + ConjunctionText(c) + [Close, Close]
    ensures ConjunctionArgs(EitherGroup(p, c)) == ConjunctionArgs(p) + ConjunctionArgs(c)
    ensures AllHold(EitherGroup(p, c), row) <==> AllHold(p, row) || AllHold(c, row)
  {
    var f, g := Group(Last(p)), Group(Last(c));
    GroupReads(p, row);
    GroupReads(c, row);
    OneReads(f, row);
    OneReads(g, row);
    EitherReads(One(f), One(g), row);
    OneReads(Group(OrElse(One(f), Last(One(g)))), row);
  }

  function CampaignFilters(filters: Filters): Filters {
    map[Like(CampaignId) := Get(filters, Exact(CampaignId))]
  }

  function EventConditions(filters: Filters): Option<seq<Conjunction>>
  {
    var server := Get(filters, Exact(ServerId));
    if !Supported(Get(filters, Exact(IncludeInactive))) then None
    else Some(EventHead(filters) + FilterConditions(filters, EVENT_MAPPING) + If(!Neutral(server), OnServer(server))
              + FilterConditions(CampaignFilters(filters), CAMPAIGN_MAPPING))
  }

  method AddIf(clauses: seq<Sql>, params: seq<Value>, wanted: bool, text: Sql, args: seq<Value>,
               ghost bs: seq<Conjunction>, ghost b: Conjunction)
    returns (c: seq<Sql>, p: seq<Value>)
    requires Stand(clauses, params, bs) && text == ConjunctionText(b) && args == ConjunctionArgs(b)
    ensures Stand(c, p, bs + If(wanted, b))
  {
    c, p := clauses, params;
    if wanted {
      c := c + [text];
      p := p + args;
      StandMore(clauses, params, bs, b);
    } else {
      assert bs + [] == bs;
    }
  }

  method EventHeadClauses(filters: Filters) returns (clauses: seq<Sql>, params: seq<Value>)
    ensures Stand(clauses, params, EventHead(filters))
  {
    var from, to := Get(filters, Exact(DateFrom)), Get(filters, Exact(DateTo));
    var onlyActive := Normal(Get(filters, Exact(IncludeInactive))) != TRUE;
    ghost var a := If(onlyActive, EqualTo(EventActive, TRUE));
    ghost var b := If(Truthy(from), AtLeast(EventAt, from));
    clauses, params := AddIf([], [], onlyActive, EqualsText(EventActive), [TRUE], [], EqualTo(EventActive, TRUE));
    assert [] + a == a;
    clauses, params := AddIf(clauses, params, Truthy(from), AtLeastText(EventAt), [from], a, AtLeast(EventAt, from));
    clauses, params := AddIf(clauses, params, Truthy(to), AtMostText(EventAt), [to], a + b, AtMost(EventAt, to));
  }

  method ListRoutingEvents(filters: Filters) returns (q: Query)
    ensures q == QueryFor(SELECT_EVENTS, [TRUE, TRUE, TRUE, TRUE], EventConditions(filters))
    ensures q.Query? ==> [Flag(true), Flag(true), Flag(true), Flag(true)] <= q.params
    ensures forall row :: Answers(q, row) <==> EventAskedFor(filters, row)
  {
    q := EventQuery(filters);
    forall row ensures Answers(q, row) <==> EventAskedFor(filters, row) {
      EventListMeaning(filters, row);
    }
  }

  method EventQuery(filters: Filters) returns (q: Query)
    ensures q == QueryFor(SELECT_EVENTS, [TRUE, TRUE, TRUE, TRUE], EventConditions(filters))
  {
    if !Supported(Get(filters, Exact(IncludeInactive))) {
      return NoRows;
    }
    var clauses, params := EventHeadClauses(filters);
    var equality, equalityParams := SplitFilters(filters, EVENT_MAPPING);
    ghost var head, eq := EventHead(filters), FilterConditions(filters, EVENT_MAPPING);
    StandBoth(clauses, params, head, equality, equalityParams, eq);
    var server := Get(filters, Exact(ServerId));
    ServerReads(server, Row(map[], [], []));
    clauses, params := AddIf(clauses + equality, params + equalityParams, !Neutral(server), ServerText(),
                             [server, server, server], head + eq, OnServer(server));
    var campaign, campaignParams := CampaignClause(filters);
    StandBoth(clauses, params, head + eq + If(!Neutral(server), OnServer(server)), campaign, campaignParams,
              FilterConditions(CampaignFilters(filters), CAMPAIGN_MAPPING));
    return Query(SELECT_EVENTS + WhereAll(clauses + campaign), [TRUE, TRUE, TRUE, TRUE] + (params + campaignParams));
  }

  /** The search for a campaign is at most one condition, taken without splitting. */
  method CampaignClause(filters: Filters) returns (clauses: seq<Sql>, params: seq<Value>)
    ensures Stand(clauses, params, FilterConditions(CampaignFilters(filters), CAMPAIGN_MAPPING))
  {
    var where;
    where, params := QueryFilters(CampaignFilters(filters), CAMPAIGN_MAPPING);
    OneFilter(CampaignFilters(filters), CAMPAIGN_MAPPING[0]);
    clauses := if where == [] then [] else [where[1..]];
  }

  lemma OneFilter(filters: Filters, m: Mapped)
    ensures var bs := FilterConditions(filters, [m]); var w := WhereAll(Texts(bs));
            Texts(bs) == if w == [] then [] else [w[1..]]
  {
  }

  lemma EventSelectMarks()
    ensures Marks(SELECT_EVENTS) == 4 && Where !in SELECT_EVENTS
  {
    var s: Sql := [Operand(Plain(EventCampaign))];
    CountedIff(s, Mark);
    CountInBoth(s, [Mark], Mark);
    CountInBoth(s + [Mark], [Mark], Mark);
    CountInBoth(s + [Mark] + [Mark], [Mark], Mark);
    CountInBoth(s + [Mark] + [Mark] + [Mark], [Mark], Mark);
    assert SELECT_EVENTS == s + [Mark] + [Mark] + [Mark] + [Mark];
  }

  lemma EventQueryIsAligned(filters: Filters)
    ensures var q := QueryFor(SELECT_EVENTS, [TRUE, TRUE, TRUE, TRUE], EventConditions(filters));
            q.Query? ==> Marks(q.sql) == |q.params|
  {
    EventSelectMarks();
    if EventConditions(filters).Some? {
      AsManyParametersAsMarks(SELECT_EVENTS, [TRUE, TRUE, TRUE, TRUE], EventConditions(filters).value);
    }
  }

  ghost predicate EventAskedFor(filters: Filters, row: Row) {
    var from, to := Get(filters, Exact(DateFrom)), Get(filters, Exact(DateTo));
    var server := Get(filters, Exact(ServerId));
    && Understood(Get(filters, Exact(IncludeInactive)))
    && (!MeansTrue(Get(filters, Exact(IncludeInactive))) ==> Cell(row, EventActive) == Flag(true))
    && (from !in {Null, Text(""), Number(0), Flag(false)} ==> NotBefore(Cell(row, EventAt), from))
    && (to !in {Null, Text(""), Number(0), Flag(false)} ==> NotAfter(Cell(row, EventAt), to))
    && Met(filters, Exact(CountryId), Cell(row, EventCountry))
    && Met(filters, Exact(ApplyScope), Cell(row, EventScope))
    && Met(filters, Exact(CallingCompanyId), Cell(row, EventCampaign))
    && Met(filters, Exact(ProviderId), Cell(row, EventProvider))
    && (NotGiven(server) || ConcernsServer(row, server))
    && SearchMet(Get(filters, Exact(CampaignId)), Cell(row, CampaignExternalId))
  }

  /** A priority event names the server itself or among its servers; a campaign's event
      concerns the campaign's own server. */
  ghost predicate ConcernsServer(row: Row, server: Value) {
    || (Cell(row, EventScope) == Text("server_priority")
        && (Cell(row, EventServer) == server || ServerListed(row, server)))
    || (Cell(row, EventScope) == Text("campaign_setting") && Cell(row, CampaignServer) == server)
  }

  ghost predicate ServerListed(row: Row, server: Value) {
    exists i :: 0 <= i < |row.servers| && Cell(Within(row, row.servers[i]), ServerOfEvent) == server
  }

  lemma IfMeaning(wanted: bool, c: Conjunction, row: Row)
    ensures All(If(wanted, c), row) <==> (wanted ==> AllHold(c, row))
  {
    if wanted {
      assert If(wanted, c)[0] == c;
    }
  }

  lemma ServerMeaning(v: Value, row: Row)
    ensures All(If(!Neutral(v), OnServer(v)), row) <==> (!Neutral(v) ==> ConcernsServer(row, v))
  {
    IfMeaning(!Neutral(v), OnServer(v), row);
    if !Neutral(v) {
      ServerHolds(v, row);
    }
  }

  lemma AmongServersHolds(v: Value, row: Row)
    requires v != Null
    ensures AllHold(AmongServers(v), row) <==> Cell(row, ServerOfEvent) == v
  {
  }

  lemma NamesServerHolds(v: Value, row: Row)
    requires v != Null
    ensures FactHolds(NamesServer(v), row) <==> Cell(row, EventServer) == v || ServerListed(row, v)
  {
    var sub := Sub(SomeServer, Last(AmongServers(v)));
    forall i | 0 <= i < |row.servers|
      ensures Holds(Last(AmongServers(v)), Within(row, row.servers[i])) <==>
              Cell(Within(row, row.servers[i]), ServerOfEvent) == v {
      AmongServersHolds(v, Within(row, row.servers[i]));
    }
    assert FactHolds(sub, row) <==> ServerListed(row, v);
    OneReads(sub, row);
    EitherReads(EqualTo(EventServer, v), One(sub), row);
  }

  lemma ServerHolds(v: Value, row: Row)
    requires v != Null
    ensures AllHold(OnServer(v), row) <==> ConcernsServer(row, v)
  {
    NamesServerHolds(v, row);
    EitherGroupReads(OnPriorityServer(v), OnCampaignServer(v), row);
    OneReads(NamesServer(v), row);
    assert AllHold(OnPriorityServer(v), row) <==>
           Cell(row, EventScope) == Text("server_priority") && FactHolds(NamesServer(v), row);
    assert AllHold(OnCampaignServer(v), row) <==>
           Cell(row, EventScope) == Text("campaign_setting") && Cell(row, CampaignServer) == v;
  }

  lemma HeadMeaning(filters: Filters, row: Row)
    ensures var from, to := Get(filters, Exact(DateFrom)), Get(filters, Exact(DateTo));
            All(EventHead(filters), row) <==>
            && (AsBool(Get(filters, Exact(IncludeInactive))) != Some(true) ==> Cell(row, EventActive) == TRUE)
            && (Truthy(from) ==> NotBefore(Cell(row, EventAt), from))
            && (Truthy(to) ==> NotAfter(Cell(row, EventAt), to))
  {
    var from, to := Get(filters, Exact(DateFrom)), Get(filters, Exact(DateTo));
    var onlyActive := AsBool(Get(filters, Exact(IncludeInactive))) != Some(true);
    var a := EqualTo(EventActive, TRUE);
    var b, c := AtLeast(EventAt, from), AtMost(EventAt, to);
    IfMeaning(onlyActive, a, row);
    IfMeaning(Truthy(from), b, row);
    IfMeaning(Truthy(to), c, row);
    AllOfBoth(If(onlyActive, a), If(Truthy(from), b), row);
    AllOfBoth(If(onlyActive, a) + If(Truthy(from), b), If(Truthy(to), c), row);
  }

  lemma EventFiltersMeaning(filters: Filters, row: Row)
    ensures All(FilterConditions(filters, EVENT_MAPPING), row) <==>
            && Met(filters, Exact(CountryId), Cell(row, EventCountry))
            && Met(filters, Exact(ApplyScope), Cell(row, EventScope))
            && Met(filters, Exact(CallingCompanyId), Cell(row, EventCampaign))
            && Met(filters, Exact(ProviderId), Cell(row, EventProvider))
  {
    var m := EVENT_MAPPING;
    FiltersMeaning(filters, m, row);
    assert m[0] in m && m[1] in m && m[2] in m && m[3] in m;
  }

  lemma CampaignMeaning(filters: Filters, row: Row)
    ensures All(FilterConditions(CampaignFilters(filters), CAMPAIGN_MAPPING), row) <==>
            SearchMet(Get(filters, Exact(CampaignId)), Cell(row, CampaignExternalId))
  {
    FiltersMeaning(CampaignFilters(filters), CAMPAIGN_MAPPING, row);
    assert CAMPAIGN_MAPPING[0] in CAMPAIGN_MAPPING;
  }

  /** The statement of the event list selects exactly the events asked for. */
  lemma EventListMeaning(filters: Filters, row: Row)
    ensures Answers(QueryFor(SELECT_EVENTS, [TRUE, TRUE, TRUE, TRUE], EventConditions(filters)), row) <==>
            EventAskedFor(filters, row)
  {
    EventSelectMarks();
    if EventConditions(filters).Some? {
      QuerySelects(SELECT_EVENTS, [TRUE, TRUE, TRUE, TRUE], EventConditions(filters).value, row);
      EventConditionsMeaning(filters, row);
    }
  }

  lemma EventConditionsMeaning(filters: Filters, row: Row)
    requires EventConditions(filters).Some?
    ensures All(EventConditions(filters).value, row) <==> EventAskedFor(filters, row)
  {
    var server := Get(filters, Exact(ServerId));
    var a, b := EventHead(filters), FilterConditions(filters, EVENT_MAPPING);
    var c := If(!Neutral(server), OnServer(server));
    var d := FilterConditions(CampaignFilters(filters), CAMPAIGN_MAPPING);
    AllOfBoth(a, b, row);
    AllOfBoth(a + b, c, row);
    AllOfBoth(a + b + c, d, row);
    HeadMeaning(filters, row);
    EventFiltersMeaning(filters, row);
    ServerMeaning(server, row);
    CampaignMeaning(filters, row);
  }
}
