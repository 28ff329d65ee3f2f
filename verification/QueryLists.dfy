/** The list pages of routes and phones: each method builds its statement piece by piece,
    and the statement selects exactly the rows that the filters ask for. */
module QueryLists {
  import opened Common
  import opened QueryBuilder
  import opened QueryMeaning
  import opened QueryText

  /** The statements up to their WHERE clause, as far as their marks go: both count active
      links in a sub-select. */
  const SELECT_LINKS: Sql := [Open, Correlated, And, Operand(Plain(LinkActive)), Comparison(Eq), Mark, Close]

  lemma SelectMarks()
    ensures Marks(SELECT_LINKS) == 1 && Where !in SELECT_LINKS
  {
    var head, tail := SELECT_LINKS[..5], SELECT_LINKS[6..];
    assert SELECT_LINKS == head + [Mark] + tail;
    CountInBoth(head + [Mark], tail, Mark);
    CountInBoth(head, [Mark], Mark);
    CountedIff(head, Mark);
    CountedIff(tail, Mark);
  }

  lemma RouteAndPhoneQueriesAreAligned(filters: Filters)
    ensures var q := QueryFor(SELECT_LINKS, [TRUE], RouteConditions(filters)); q.Query? ==> Marks(q.sql) == |q.params|
    ensures var q := QueryFor(SELECT_LINKS, [TRUE], PhoneConditions(filters)); q.Query? ==> Marks(q.sql) == |q.params|
  {
    SelectMarks();
    if RouteConditions(filters).Some? {
      AsManyParametersAsMarks(SELECT_LINKS, [TRUE], RouteConditions(filters).value);
    }
    if PhoneConditions(filters).Some? {
      AsManyParametersAsMarks(SELECT_LINKS, [TRUE], PhoneConditions(filters).value);
    }
  }

  // ----- list_routes -------------------------------------------------------------------------------

  const ROUTE_MAPPING :=
    [Mapped(Exact(CountryId), RouteCountry), Mapped(Exact(ProviderId), RouteProvider),
     Mapped(Exact(IsActual), RouteActual), Mapped(Like(Search), RouteName)]

  const MISSING_ARGS := [TRUE, Text(POOL + ":%"), TRUE, TRUE]

  const POOL := "Пул купленных номеров"

  function PoolText(): Sql {
    [Open, Operand(TrimOf(RoutePool)), Comparison(Eq), Quoted(POOL), Or, Operand(TrimOf(RoutePool)), Comparison(LikeOp),
     Mark, Close]
  }

  function LinksText(): Sql {
    [From(NoWorkingLinks), Correlated, And] + EqualsText(LinkActive) + [And] + EqualsText(LinkedPhoneActive)
    + [And, Operand(Plain(LinkedPhoneStatus)), Comparison(Eq), Quoted("used"), Close]
  }

  /** An actual route of the pool, named so or with a name of that prefix, none of whose
      active links leads to an active phone in use. */
  function MissingText(): Sql {
    EqualsText(RouteActual) + [And, Operand(Plain(RouteSource)), Comparison(Eq), Quoted("pool")] + [And] + PoolText()
    + [And] + LinksText()
  }

  function PoolIs(name: string): Conjunction {
    One(Single(CompareText(TrimOf(RoutePool), Eq, name)))
  }

  function PoolLike(pattern: string): Conjunction {
    One(Single(Compare(TrimOf(RoutePool), LikeOp, Text(pattern))))
  }

  function PoolNamed(): Fact {
    Group(OrElse(PoolIs(POOL), Last(PoolLike(POOL + ":%"))))
  }

  function WorkingLink(): Conjunction {
    AndThen(Single(SameParent),
      AndThen(Single(Compare(Plain(LinkActive), Eq, TRUE)),
        AndThen(Single(Compare(Plain(LinkedPhoneActive), Eq, TRUE)),
          One(Single(CompareText(Plain(LinkedPhoneStatus), Eq, "used"))))))
  }

  function Missing(): Conjunction {
    AndThen(Single(Compare(Plain(RouteActual), Eq, TRUE)),
      AndThen(Single(CompareText(Plain(RouteSource), Eq, "pool")),
        AndThen(PoolNamed(), One(Sub(NoWorkingLinks, Last(WorkingLink()))))))
  }

  lemma PoolReads()
    ensures FactText(PoolNamed()) == PoolText() && FactArgs(PoolNamed()) == MISSING_ARGS[1..2]
  {
  }

  lemma WorkingLinkReads()
    ensures ConjunctionText(WorkingLink()) ==
            [Correlated, And] + EqualsText(LinkActive) + [And] + EqualsText(LinkedPhoneActive)
            + [And, Operand(Plain(LinkedPhoneStatus)), Comparison(Eq), Quoted("used")]
    ensures ConjunctionArgs(WorkingLink()) == [TRUE, TRUE]
  {
    var used := One(Single(CompareText(Plain(LinkedPhoneStatus), Eq, "used")));
    var phone := AndThen(Single(Compare(Plain(LinkedPhoneActive), Eq, TRUE)), used);
    assert ConjunctionText(used) == [Operand(Plain(LinkedPhoneStatus)), Comparison(Eq), Quoted("used")];
    assert ConjunctionText(phone) == EqualsText(LinkedPhoneActive) + [And] + ConjunctionText(used);
    assert ConjunctionArgs(used) == [] && ConjunctionArgs(phone) == [TRUE];
  }

  lemma LinksReads()
    ensures FactText(Sub(NoWorkingLinks, Last(WorkingLink()))) == LinksText()
    ensures FactArgs(Sub(NoWorkingLinks, Last(WorkingLink()))) == [TRUE, TRUE]
  {
    WorkingLinkReads();
    SubReads(NoWorkingLinks, WorkingLink());
  }

  lemma MissingReads()
    ensures ConjunctionText(Missing()) == MissingText() && ConjunctionArgs(Missing()) == MISSING_ARGS
  {
    PoolReads();
    LinksReads();
  }

  function RouteFilters(filters: Filters): Filters {
    var v := Get(filters, Exact(IsActual));
    if AsBool(v).Some? then filters[Exact(IsActual) := Normal(v)] else filters
  }

  function PrefixConditions(v: Value): seq<Conjunction> {
    if v == Text("__none__") then [Absent(RoutePrefix)]
    else if !Neutral(v) then [EqualTo(RoutePrefix, v)]
    else []
  }

  function MissingConditions(v: Value): seq<Conjunction> {
    if AsBool(v) == Some(true) then [Missing()] else []
  }

  function RouteConditions(filters: Filters): Option<seq<Conjunction>> {
    if !Supported(Get(filters, Exact(MissingWorkingNumbers))) then None
    else Some(FilterConditions(RouteFilters(filters), ROUTE_MAPPING) + PrefixConditions(Get(filters, Exact(PrefixId)))
              + MissingConditions(Get(filters, Exact(MissingWorkingNumbers))))
  }

  method ListRoutes(filters: Filters) returns (q: Query)
    ensures q == QueryFor(SELECT_LINKS, [TRUE], RouteConditions(filters))
    ensures q.Query? ==> q.params != [] && q.params[0] == Flag(true)
    ensures forall row :: Answers(q, row) <==> RouteAskedFor(filters, row)
  {
    q := RouteQuery(filters);
    forall row ensures Answers(q, row) <==> RouteAskedFor(filters, row) {
      RouteListMeaning(filters, row);
    }
  }

  method RouteQuery(filters: Filters) returns (q: Query)
    ensures q == QueryFor(SELECT_LINKS, [TRUE], RouteConditions(filters))
  {
    var routeFilters := filters;
    var isActual := Get(filters, Exact(IsActual));
    if AsBool(isActual).Some? {
      routeFilters := routeFilters[Exact(IsActual) := Normal(isActual)];
    }
    var where, params := QueryFilters(routeFilters, ROUTE_MAPPING);
    ghost var cs := FilterConditions(routeFilters, ROUTE_MAPPING);
    var prefix := Get(filters, Exact(PrefixId));
    where, params := AppendPrefix(where, params, prefix, cs);
    cs := cs + PrefixConditions(prefix);
    var missing := Get(filters, Exact(MissingWorkingNumbers));
    if !Supported(missing) {
      return NoRows;
    }
    if Normal(missing) == TRUE {
      MissingReads();
      where, params := Append(where, params, MissingText(), MISSING_ARGS, cs, Missing());
    }
    assert cs + [] == cs;
    return Query(SELECT_LINKS + where, [TRUE] + params);
  }

  method AppendPrefix(where: Sql, params: seq<Value>, prefix: Value, ghost cs: seq<Conjunction>)
    returns (w: Sql, ps: seq<Value>)
    requires Stands(where, params, cs)
    ensures Stands(w, ps, cs + PrefixConditions(prefix))
  {
    w, ps := where, params;
    if prefix == Text("__none__") {
      w, ps := Append(where, params, AbsentText(RoutePrefix), [], cs, Absent(RoutePrefix));
    } else if !Neutral(prefix) {
      w, ps := Append(where, params, EqualsText(RoutePrefix), [prefix], cs, EqualTo(RoutePrefix, prefix));
    } else {
      assert cs + [] == cs;
    }
  }

  /** The rows a route list is asked for. */
  ghost predicate RouteAskedFor(filters: Filters, row: Row) {
    var prefix := Get(filters, Exact(PrefixId));
    var missing := Get(filters, Exact(MissingWorkingNumbers));
    && Met(filters, Exact(CountryId), Cell(row, RouteCountry))
    && Met(filters, Exact(ProviderId), Cell(row, RouteProvider))
    && ActualAgrees(Get(filters, Exact(IsActual)), Cell(row, RouteActual))
    && Met(filters, Like(Search), Cell(row, RouteName))
    && (if prefix == Text("__none__") then Cell(row, RoutePrefix) == Null
        else NotGiven(prefix) || Equal(Cell(row, RoutePrefix), prefix))
    && Understood(missing)
    && (MeansTrue(missing) ==> LacksNumbers(row))
  }

  /** An unsupported value is compared as it is. */
  predicate ActualAgrees(v: Value, cell: Value) {
    if MeansTrue(v) || MeansFalse(v) then Agrees(v, cell) else NotGiven(v) || Equal(cell, v)
  }

  /** An actual route from the pool of bought numbers without a phone in use. */
  ghost predicate LacksNumbers(row: Row) {
    var pool := Trimmed(Str(Cell(row, RoutePool)), {' '});
    && Cell(row, RouteActual) == Flag(true) && Cell(row, RouteSource) == Text("pool")
    && (pool == "Пул купленных номеров" || "Пул купленных номеров:" <= pool)
    && !exists i :: 0 <= i < |row.links| && InUse(Within(row, row.links[i]))
  }

  predicate InUse(link: Row) {
    && Cell(link, LinkActive) == Flag(true) && Cell(link, LinkedPhoneActive) == Flag(true)
    && Cell(link, LinkedPhoneStatus) == Text("used")
  }

  predicate Literal(s: string) {
    '%' !in s && '_' !in s
  }

  /** A pattern that ends in `%` asks for a prefix. */
  lemma {:induction false} LikeIsPrefix(s: string, p: string)
    requires Literal(p)
    ensures LikeText(s, p + "%") <==> p <= s
  {
    if p == "" {
      assert p + "%" == "%";
      LikeAnything(s);
    } else {
      assert (p + "%")[0] == p[0] && (p + "%")[1..] == p[1..] + "%";
      if s != "" {
        LikeIsPrefix(s[1..], p[1..]);
        assert p <= s <==> p[0] == s[0] && p[1..] <= s[1..];
      }
    }
  }

  lemma {:induction false} LikeAnything(s: string)
    ensures LikeText(s, "%")
  {
    if s == "" {
      assert "%"[1..] == "";
      assert LikeText(s, "%"[1..]);
    } else {
      LikeAnything(s[1..]);
    }
  }

  lemma PoolIsHolds(name: string, row: Row)
    ensures AllHold(PoolIs(name), row) <==> Trimmed(Str(Cell(row, RoutePool)), {' '}) == name
  {
  }

  lemma PoolLikeHolds(prefix: string, pattern: string, row: Row)
    requires Literal(prefix) && pattern == prefix + "%"
    ensures AllHold(PoolLike(pattern), row) <==> prefix <= Trimmed(Str(Cell(row, RoutePool)), {' '})
  {
    LikeIsPrefix(Trimmed(Str(Cell(row, RoutePool)), {' '}), prefix);
  }

  lemma PoolIsLiteral()
    ensures Literal(POOL + ":") && POOL + ":%" == POOL + ":" + "%"
    ensures POOL + ":" == "Пул купленных номеров:"
  {
  }

  lemma PoolNamedHolds(row: Row)
    ensures FactHolds(PoolNamed(), row) <==>
            var pool := Trimmed(Str(Cell(row, RoutePool)), {' '}); pool == POOL || POOL + ":" <= pool
  {
    PoolIsLiteral();
    PoolIsHolds(POOL, row);
    PoolLikeHolds(POOL + ":", POOL + ":%", row);
    EitherReads(PoolIs(POOL), PoolLike(POOL + ":%"), row);
  }

  lemma WorkingLinkHolds(row: Row)
    ensures AllHold(WorkingLink(), row) <==> InUse(row)
  {
  }

  lemma MissingHolds(row: Row)
    ensures AllHold(Missing(), row) <==> LacksNumbers(row)
  {
    PoolIsLiteral();
    PoolNamedHolds(row);
    forall i | 0 <= i < |row.links|
      ensures Holds(Last(WorkingLink()), Within(row, row.links[i])) <==> InUse(Within(row, row.links[i])) {
      WorkingLinkHolds(Within(row, row.links[i]));
    }
  }

  lemma MissingMeaning(v: Value, row: Row)
    ensures All(MissingConditions(v), row) <==> (AsBool(v) == Some(true) ==> LacksNumbers(row))
  {
    MissingHolds(row);
    if AsBool(v) == Some(true) {
      assert MissingConditions(v)[0] == Missing();
    }
  }

  lemma PrefixMeaning(v: Value, row: Row)
    ensures All(PrefixConditions(v), row) <==>
            if v == Text("__none__") then Cell(row, RoutePrefix) == Null
            else Neutral(v) || Equal(Cell(row, RoutePrefix), v)
  {
    if v == Text("__none__") {
      assert PrefixConditions(v)[0] == Absent(RoutePrefix);
    } else if !Neutral(v) {
      assert PrefixConditions(v)[0] == EqualTo(RoutePrefix, v);
    }
  }

  /** The statement of the route list selects exactly the routes asked for. */
  lemma RouteListMeaning(filters: Filters, row: Row)
    ensures Answers(QueryFor(SELECT_LINKS, [TRUE], RouteConditions(filters)), row) <==> RouteAskedFor(filters, row)
  {
    SelectMarks();
    if RouteConditions(filters).Some? {
      QuerySelects(SELECT_LINKS, [TRUE], RouteConditions(filters).value, row);
      RouteConditionsMeaning(filters, row);
    }
  }

  lemma RouteConditionsMeaning(filters: Filters, row: Row)
    requires RouteConditions(filters).Some?
    ensures All(RouteConditions(filters).value, row) <==> RouteAskedFor(filters, row)
  {
    var f := RouteFilters(filters);
    var a, b := FilterConditions(f, ROUTE_MAPPING), PrefixConditions(Get(filters, Exact(PrefixId)));
    var c := MissingConditions(Get(filters, Exact(MissingWorkingNumbers)));
    AllOfBoth(a, b, row);
    AllOfBoth(a + b, c, row);
    PrefixMeaning(Get(filters, Exact(PrefixId)), row);
    MissingMeaning(Get(filters, Exact(MissingWorkingNumbers)), row);
    RouteFiltersMeaning(filters, row);
  }

  lemma RouteFiltersMeaning(filters: Filters, row: Row)
    ensures All(FilterConditions(RouteFilters(filters), ROUTE_MAPPING), row) <==>
            && Met(filters, Exact(CountryId), Cell(row, RouteCountry))
            && Met(filters, Exact(ProviderId), Cell(row, RouteProvider))
            && ActualAgrees(Get(filters, Exact(IsActual)), Cell(row, RouteActual))
            && Met(filters, Like(Search), Cell(row, RouteName))
  {
    var f := RouteFilters(filters);
    var m := ROUTE_MAPPING;
    FiltersMeaning(f, m, row);
    assert m[0] in m && m[1] in m && m[2] in m && m[3] in m;
    assert Met(f, Exact(IsActual), Cell(row, RouteActual)) <==>
           ActualAgrees(Get(filters, Exact(IsActual)), Cell(row, RouteActual));
  }

  // ----- list_phone_numbers --------------------------------------------------------------------------

  const PHONE_MAPPING :=
    [Mapped(Exact(CountryId), PhoneCountry), Mapped(Exact(ProviderId), PhoneProvider),
     Mapped(Exact(Project), PhoneProject), Mapped(Like(Project), PhoneProject),
     Mapped(Exact(AssignmentType), PhoneAssignment), Mapped(Exact(Status), PhoneStatus),
     Mapped(Exact(PhoneKind), PhoneType), Mapped(Exact(IsActive), PhoneActive), Mapped(Like(PhoneNo), PhoneNumber),
     Mapped(Exact(ReviewRequired), PhoneReview), Mapped(Exact(IsProblematic), PhoneProblematic)]

  function Normalized(filters: Filters, name: Name): Filters {
    filters[Exact(name) := Normal(Get(filters, Exact(name)))]
  }

  function PhoneFilters(filters: Filters): Filters {
    Normalized(Normalized(Normalized(filters, IsActive), ReviewRequired), IsProblematic)
  }

  predicate PhoneFlagsSupported(filters: Filters) {
    && Supported(Get(filters, Exact(IsActive))) && Supported(Get(filters, Exact(ReviewRequired)))
    && Supported(Get(filters, Exact(IsProblematic))) && Supported(Get(filters, Exact(Attention)))
  }

  function AttentionText(): Sql {
    EqualsText(PhoneActive) + [And, Open] + EqualsText(PhoneReview) + [Or] + EqualsText(PhoneProblematic) + [Close]
  }

  function NeedsAttention(): Conjunction {
    AndThen(Single(Compare(Plain(PhoneActive), Eq, TRUE)),
      One(Group(OrElse(EqualTo(PhoneReview, TRUE), Last(EqualTo(PhoneProblematic, TRUE))))))
  }

  lemma AttentionReads()
    ensures ConjunctionText(NeedsAttention()) == AttentionText()
    ensures ConjunctionArgs(NeedsAttention()) == [TRUE, TRUE, TRUE]
  {
  }

  function AttentionConditions(v: Value): seq<Conjunction> {
    if AsBool(v) == Some(true) then [NeedsAttention()] else []
  }

  function PhoneConditions(filters: Filters): Option<seq<Conjunction>> {
    if !PhoneFlagsSupported(filters) then None
    else Some(FilterConditions(PhoneFilters(filters), PHONE_MAPPING)
              + AttentionConditions(Get(filters, Exact(Attention))))
  }

  method ListPhoneNumbers(filters: Filters) returns (q: Query)
    ensures q == QueryFor(SELECT_LINKS, [TRUE], PhoneConditions(filters))
    ensures q.Query? ==> q.params != [] && q.params[0] == Flag(true)
    ensures forall row :: Answers(q, row) <==> PhoneAskedFor(filters, row)
  {
    q := PhoneQuery(filters);
    forall row ensures Answers(q, row) <==> PhoneAskedFor(filters, row) {
      PhoneListMeaning(filters, row);
    }
  }

  method PhoneQuery(filters: Filters) returns (q: Query)
    ensures q == QueryFor(SELECT_LINKS, [TRUE], PhoneConditions(filters))
  {
    var attention := Get(filters, Exact(Attention));
    if !PhoneFlagsSupported(filters) {
      return NoRows;
    }
    var phoneFilters := PhoneFilters(filters);
    var where, params := QueryFilters(phoneFilters, PHONE_MAPPING);
    ghost var cs := FilterConditions(phoneFilters, PHONE_MAPPING);
    if Normal(attention) == TRUE {
      AttentionReads();
      where, params := Append(where, params, AttentionText(), [TRUE, TRUE, TRUE], cs, NeedsAttention());
    } else {
      assert cs + [] == cs;
    }
    return Query(SELECT_LINKS + where, [TRUE] + params);
  }

  ghost predicate PhoneColumnsMet(filters: Filters, row: Row) {
    && Met(filters, Exact(CountryId), Cell(row, PhoneCountry))
    && Met(filters, Exact(ProviderId), Cell(row, PhoneProvider))
    && Met(filters, Exact(Project), Cell(row, PhoneProject))
    && Met(filters, Like(Project), Cell(row, PhoneProject))
    && Met(filters, Exact(AssignmentType), Cell(row, PhoneAssignment))
    && Met(filters, Exact(Status), Cell(row, PhoneStatus))
    && Met(filters, Exact(PhoneKind), Cell(row, PhoneType))
    && Met(filters, Like(PhoneNo), Cell(row, PhoneNumber))
    && Agrees(Get(filters, Exact(IsActive)), Cell(row, PhoneActive))
    && Agrees(Get(filters, Exact(ReviewRequired)), Cell(row, PhoneReview))
    && Agrees(Get(filters, Exact(IsProblematic)), Cell(row, PhoneProblematic))
  }

  ghost predicate PhoneFlagsUnderstood(filters: Filters) {
    && Understood(Get(filters, Exact(IsActive))) && Understood(Get(filters, Exact(ReviewRequired)))
    && Understood(Get(filters, Exact(IsProblematic))) && Understood(Get(filters, Exact(Attention)))
  }

  lemma PhoneFlagsIff(filters: Filters)
    ensures PhoneFlagsSupported(filters) <==> PhoneFlagsUnderstood(filters)
  {
    BoolIff(Get(filters, Exact(IsActive)));
    BoolIff(Get(filters, Exact(ReviewRequired)));
    BoolIff(Get(filters, Exact(IsProblematic)));
    BoolIff(Get(filters, Exact(Attention)));
  }

  ghost predicate PhoneAskedFor(filters: Filters, row: Row) {
    && PhoneFlagsUnderstood(filters)
    && PhoneColumnsMet(filters, row)
    && (MeansTrue(Get(filters, Exact(Attention))) ==> WantsAttention(row))
  }

  /** An active phone under review or with a problem. */
  predicate WantsAttention(row: Row) {
    && Cell(row, PhoneActive) == Flag(true)
    && (Cell(row, PhoneReview) == Flag(true) || Cell(row, PhoneProblematic) == Flag(true))
  }

  /** The statement of the phone list selects exactly the phones asked for. */
  lemma PhoneListMeaning(filters: Filters, row: Row)
    ensures Answers(QueryFor(SELECT_LINKS, [TRUE], PhoneConditions(filters)), row) <==> PhoneAskedFor(filters, row)
  {
    SelectMarks();
    PhoneFlagsIff(filters);
    if PhoneFlagsSupported(filters) {
      QuerySelects(SELECT_LINKS, [TRUE], PhoneConditions(filters).value, row);
      PhoneConditionsMeaning(filters, row);
    }
  }

  lemma PhoneConditionsMeaning(filters: Filters, row: Row)
    requires PhoneFlagsSupported(filters)
    ensures All(PhoneConditions(filters).value, row) <==>
            PhoneColumnsMet(filters, row) && (MeansTrue(Get(filters, Exact(Attention))) ==> WantsAttention(row))
  {
    var attention := Get(filters, Exact(Attention));
    AllOfBoth(FilterConditions(PhoneFilters(filters), PHONE_MAPPING), AttentionConditions(attention), row);
    AttentionMeaning(attention, row);
    PhoneFiltersMeaning(filters, row);
  }

  lemma AttentionMeaning(v: Value, row: Row)
    ensures All(AttentionConditions(v), row) <==> (MeansTrue(v) ==> WantsAttention(row))
  {
    if AsBool(v) == Some(true) {
      assert AttentionConditions(v)[0] == NeedsAttention();
    }
  }

  predicate IsPhoneFlag(k: Key) {
    k == Exact(IsActive) || k == Exact(ReviewRequired) || k == Exact(IsProblematic)
  }

  lemma PhoneFilterMet(filters: Filters, k: Key, cell: Value)
    ensures Met(PhoneFilters(filters), k, cell) <==>
            if IsPhoneFlag(k) then Agrees(Get(filters, k), cell) else Met(filters, k, cell)
  {
  }

  ghost predicate PhoneMet(filters: Filters, m: Mapped, row: Row) {
    if IsPhoneFlag(m.key) then Agrees(Get(filters, m.key), Cell(row, m.column))
    else Met(filters, m.key, Cell(row, m.column))
  }

  lemma Eleven(m: seq<Mapped>, p: Mapped -> bool)
    requires |m| == 11
    ensures (forall x :: x in m ==> p(x)) <==>
            p(m[0]) && p(m[1]) && p(m[2]) && p(m[3]) && p(m[4]) && p(m[5]) && p(m[6]) && p(m[7]) && p(m[8]) && p(m[9])
            && p(m[10])
  {
  }

  lemma PhoneFiltersMeaning(filters: Filters, row: Row)
    ensures All(FilterConditions(PhoneFilters(filters), PHONE_MAPPING), row) <==> PhoneColumnsMet(filters, row)
  {
    FiltersMeaning(PhoneFilters(filters), PHONE_MAPPING, row);
    forall m: Mapped ensures Met(PhoneFilters(filters), m.key, Cell(row, m.column)) <==> PhoneMet(filters, m, row) {
      PhoneFilterMet(filters, m.key, Cell(row, m.column));
    }
    AllPhonesMet(filters, row);
  }

  lemma AllPhonesMet(filters: Filters, row: Row)
    ensures (forall m :: m in PHONE_MAPPING ==> PhoneMet(filters, m, row)) <==> PhoneColumnsMet(filters, row)
  {
    Eleven(PHONE_MAPPING, m => PhoneMet(filters, m, row));
  }
}
