/** The filters of the list pages: which conditions they become, what statement with
    positional parameters is built of them, and which rows it selects. */
module QueryBuilder {
  import opened Common
  import opened QueryMeaning
  import opened QueryText

  datatype Name =
    | CountryId | ProviderId | IsActual | Search | PrefixId | MissingWorkingNumbers
    | Project | AssignmentType | Status | PhoneKind | IsActive | PhoneNo | ReviewRequired | IsProblematic | Attention
    | ServerId | RoutingMode | CallingCompanyId | CompanyIdExternal | CompanyActive | IncludeHistory | ShowHistory
    | IncludeInactive | DateFrom | DateTo | ApplyScope | CampaignId

  /** The key of a search filter ends in `_like`. */
  datatype Key = Exact(name: Name) | Like(name: Name)

  type Filters = map<Key, Value>

  function Get(filters: Filters, k: Key): (v: Value)
    ensures k in filters ==> v == filters[k]
    ensures k !in filters ==> v == Null
  {
    if k in filters then filters[k] else Null
  }

  predicate Neutral(v: Value) {
    v == Null || v == Text("") || v == Text("all")
  }

  /** No filter is given: nothing, the empty text, or the choice of all. */
  predicate NotGiven(v: Value) {
    v in {Null, Text(""), Text("all")}
  }

  predicate MeansTrue(v: Value) {
    v in {Flag(true), Number(1), Text("1")}
  }

  predicate MeansFalse(v: Value) {
    v in {Flag(false), Number(0), Text("0")}
  }

  /** An optional boolean that is understood. */
  predicate Understood(v: Value) {
    NotGiven(v) || MeansTrue(v) || MeansFalse(v)
  }

  const BLANKS := {' ', '\t', '\n', '\r'}

  // ----- The conditions' texts, as the methods write them -------------------------------------------

  function EqualsText(f: Field): Sql {
    [Operand(Plain(f)), Comparison(Eq), Mark]
  }

  function ContainsText(f: Field): Sql {
    [ContainsHead, Mark, ContainsMiddle, Operand(Plain(f)), ContainsTail]
  }

  function AtLeastText(f: Field): Sql {
    [Operand(Plain(f)), Comparison(Ge), Mark]
  }

  function AtMostText(f: Field): Sql {
    [Operand(Plain(f)), Comparison(Le), Mark]
  }

  function AbsentText(f: Field): Sql {
    [Operand(Plain(f)), IsNull]
  }

  // ----- And what they say ----------------------------------------------------------------------------

  function EqualTo(f: Field, v: Value): (c: Conjunction)
    ensures ConjunctionText(c) == EqualsText(f) && ConjunctionArgs(c) == [v]
    ensures forall row :: AllHold(c, row) <==> Equal(Cell(row, f), v)
  {
    One(Single(Compare(Plain(f), Eq, v)))
  }

  function Containing(f: Field, v: Value): (c: Conjunction)
    ensures ConjunctionText(c) == ContainsText(f) && ConjunctionArgs(c) == [v]
    ensures forall row :: AllHold(c, row) <==> Found(v, Cell(row, f))
  {
    One(Single(Contains(Plain(f), v)))
  }

  function AtLeast(f: Field, v: Value): (c: Conjunction)
    ensures ConjunctionText(c) == AtLeastText(f) && ConjunctionArgs(c) == [v]
    ensures forall row :: AllHold(c, row) <==> NotBefore(Cell(row, f), v)
  {
    One(Single(Compare(Plain(f), Ge, v)))
  }

  function AtMost(f: Field, v: Value): (c: Conjunction)
    ensures ConjunctionText(c) == AtMostText(f) && ConjunctionArgs(c) == [v]
    ensures forall row :: AllHold(c, row) <==> NotAfter(Cell(row, f), v)
  {
    One(Single(Compare(Plain(f), Le, v)))
  }

  function Absent(f: Field): (c: Conjunction)
    ensures ConjunctionText(c) == AbsentText(f) && ConjunctionArgs(c) == []
    ensures forall row :: AllHold(c, row) <==> Cell(row, f) == Null
  {
    One(Single(NullTest(Plain(f))))
  }

  // ----- query_filters -------------------------------------------------------------------------------

  datatype Mapped = Mapped(key: Key, column: Field)

  function FilterCondition(v: Value, m: Mapped): Option<Conjunction> {
    if Neutral(v) then None
    else if m.key.Exact? then Some(EqualTo(m.column, v))
    else
      var search := Trimmed(Str(v), BLANKS);
      if search == "" then None else Some(Containing(m.column, Text(search)))
  }

  function FilterConditions(filters: Filters, mapping: seq<Mapped>): (r: seq<Conjunction>)
    ensures forall i :: 0 <= i < |r| ==> And !in ConjunctionText(r[i])
  {
    if mapping == [] then []
    else
      var n := |mapping| - 1;
      var b := FilterCondition(Get(filters, mapping[n].key), mapping[n]);
      FilterConditions(filters, mapping[..n]) + (if b.Some? then [b.value] else [])
  }

  /** What a search asks of a cell: to contain the text, blanks around it aside. */
  predicate SearchMet(v: Value, cell: Value) {
    var search := Trimmed(Str(v), {' ', '\t', '\n', '\r'});
    NotGiven(v) || search == "" || Found(Text(search), cell)
  }

  /** What one filter asks of a row. */
  predicate Met(filters: Filters, k: Key, cell: Value) {
    var v := if k in filters then filters[k] else Null;
    if k.Exact? then NotGiven(v) || Equal(cell, v) else SearchMet(v, cell)
  }

  /** The conditions mean the conjunction of the filters, neutral values aside. */
  lemma {:induction false} FiltersMeaning(filters: Filters, mapping: seq<Mapped>, row: Row)
    ensures All(FilterConditions(filters, mapping), row) <==>
            forall m :: m in mapping ==> Met(filters, m.key, Cell(row, m.column))
  {
    if mapping != [] {
      var n := |mapping| - 1;
      var m := mapping[n];
      var b := FilterCondition(Get(filters, m.key), m);
      FiltersMeaning(filters, mapping[..n], row);
      assert mapping == mapping[..n] + [m];
      if b.Some? {
        AllOfMore(FilterConditions(filters, mapping[..n]), b.value, row);
      } else {
        assert FilterConditions(filters, mapping) == FilterConditions(filters, mapping[..n]);
      }
      assert Met(filters, m.key, Cell(row, m.column)) <==> b.None? || AllHold(b.value, row);
    }
  }

  /** So does the statement: it selects the rows that all supplied filters accept. */
  lemma FilterStatementSelects(select: Sql, lead: seq<Value>, filters: Filters, mapping: seq<Mapped>, row: Row)
    requires Where !in select && Marks(select) == |lead|
    ensures var cs := FilterConditions(filters, mapping);
            Selects(select + WhereAll(Texts(cs)), lead + Args(cs), row) <==>
            forall m :: m in mapping ==> Met(filters, m.key, Cell(row, m.column))
  {
    QuerySelects(select, lead, FilterConditions(filters, mapping), row);
    FiltersMeaning(filters, mapping, row);
  }

  method QueryFilters(filters: Filters, mapping: seq<Mapped>) returns (where: Sql, params: seq<Value>)
    ensures where == WhereAll(Texts(FilterConditions(filters, mapping)))
    ensures params == Args(FilterConditions(filters, mapping))
  {
    var clauses: seq<Sql> := [];
    params := [];
    var i := 0;
    while i < |mapping|
      invariant 0 <= i <= |mapping|
      invariant clauses == Texts(FilterConditions(filters, mapping[..i]))
      invariant params == Args(FilterConditions(filters, mapping[..i]))
    {
      var m := mapping[i];
      var v := Get(filters, m.key);
      NextFilter(filters, mapping, i);
      if !Neutral(v) {
        if m.key.Like? {
          var search := Trimmed(Str(v), BLANKS);
          if search != "" {
            clauses := clauses + [ContainsText(m.column)];
            params := params + [Text(search)];
          }
        } else {
          clauses := clauses + [EqualsText(m.column)];
          params := params + [v];
        }
      }
      i := i + 1;
    }
    assert mapping[..i] == mapping;
    where := WhereAll(clauses);
  }

  lemma NextFilter(filters: Filters, mapping: seq<Mapped>, i: nat)
    requires i < |mapping|
    ensures var bs := FilterConditions(filters, mapping[..i]); var next := FilterConditions(filters, mapping[..i + 1]);
            var b := FilterCondition(Get(filters, mapping[i].key), mapping[i]);
            && Texts(next) == Texts(bs) + (if b.Some? then [ConjunctionText(b.value)] else [])
            && Args(next) == Args(bs) + (if b.Some? then ConjunctionArgs(b.value) else [])
  {
    assert mapping[..i + 1][..i] == mapping[..i];
    var bs := FilterConditions(filters, mapping[..i]);
    var b := FilterCondition(Get(filters, mapping[i].key), mapping[i]);
    if b.Some? {
      TextsOfMore(bs, b.value);
    } else {
      assert bs + [] == bs;
    }
  }

  /** The text of these conditions has no AND of its own, so that it can be split again. */
  lemma FilterTextSplits(filters: Filters, mapping: seq<Mapped>)
    ensures var cs := Texts(FilterConditions(filters, mapping));
            cs != [] ==> SplitAnd(WhereAll(cs)[1..]) == cs
  {
    var cs := Texts(FilterConditions(filters, mapping));
    if cs != [] {
      SplitUndoesJoin(cs);
      assert WhereAll(cs)[1..] == JoinAnd(cs);
    }
  }

  // ----- Optional booleans -----------------------------------------------------------------------------

  function AsBool(v: Value): Option<bool> {
    if v == Flag(true) || v == Number(1) || v == Text("1") then Some(true)
    else if v == Flag(false) || v == Number(0) || v == Text("0") then Some(false)
    else None
  }

  predicate Supported(v: Value) {
    Neutral(v) || AsBool(v).Some?
  }

  /** The normal value, or NULL for no filter. */
  function Normal(v: Value): Value {
    if AsBool(v).Some? then Flag(AsBool(v).value) else Null
  }

  /** What an optional boolean asks of a cell. */
  predicate Agrees(v: Value, cell: Value) {
    (MeansTrue(v) ==> cell == Flag(true)) && (MeansFalse(v) ==> cell == Flag(false))
  }

  /** Which values mean true and false, and which are no value and not understood. */
  lemma BoolIff(v: Value)
    ensures AsBool(v) == Some(true) <==> MeansTrue(v)
    ensures AsBool(v) == Some(false) <==> MeansFalse(v)
    ensures Supported(v) <==> Understood(v)
    ensures Normal(v) == if MeansTrue(v) then Flag(true) else if MeansFalse(v) then Flag(false) else Null
  {
  }

  function BoolConditions(v: Value, f: Field): seq<Conjunction> {
    if AsBool(v).Some? then [EqualTo(f, Flag(AsBool(v).value))] else []
  }

  lemma BoolMeaning(v: Value, f: Field, row: Row)
    ensures All(BoolConditions(v, f), row) <==> Agrees(v, Cell(row, f))
  {
    if AsBool(v).Some? {
      assert BoolConditions(v, f)[0] == EqualTo(f, Flag(AsBool(v).value));
    }
  }

  // ----- Statements ------------------------------------------------------------------------------------

  const TRUE := Flag(true)

  function QueryFor(select: Sql, lead: seq<Value>, cs: Option<seq<Conjunction>>): Query {
    if cs.None? then NoRows else QueryOf(select, lead, cs.value)
  }

  /** A WHERE clause and its parameters stand for these conditions. */
  ghost predicate Stands(where: Sql, params: seq<Value>, cs: seq<Conjunction>) {
    where == WhereAll(Texts(cs)) && params == Args(cs)
  }

  /** Appends a condition to a WHERE clause, or begins one, and adds its parameters. */
  method Append(where: Sql, params: seq<Value>, text: Sql, args: seq<Value>, ghost cs: seq<Conjunction>,
                ghost c: Conjunction)
    returns (w: Sql, ps: seq<Value>)
    requires Stands(where, params, cs) && text == ConjunctionText(c) && args == ConjunctionArgs(c)
    ensures Stands(w, ps, cs + [c])
  {
    w := where + (if where != [] then [And] else [Where]) + text;
    ps := params + args;
    TextsOfMore(cs, c);
    WhereOfMore(Texts(cs), text);
  }
}
