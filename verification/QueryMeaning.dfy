/** What the database makes of a statement: a grammar of conditions, a parser that takes a
    parameter at every placeholder, and the rows of which the parsed condition holds.

    AND binds tighter than OR; parentheses and sub-selects enclose whole conditions. */
module QueryMeaning {
  import opened QueryText

  // ----- Conditions --------------------------------------------------------------------------------

  /** A single condition, with the parameter it has taken. */
  datatype Atom =
    | Compare(left: Expression, operator: Operator, param: Value)
    | CompareText(left: Expression, operator: Operator, text: string)
    | NullTest(left: Expression)
    | Contains(left: Expression, param: Value)
    | SameParent

  datatype Fact = Single(atom: Atom) | Group(inner: Disjunction) | Sub(subSelect: SubSelect, inner: Disjunction)

  datatype Conjunction = One(fact: Fact) | AndThen(fact: Fact, more: Conjunction)

  datatype Disjunction = Last(conjunction: Conjunction) | OrElse(conjunction: Conjunction, others: Disjunction)

  // ----- Their text and parameters -------------------------------------------------------------------

  function AtomText(a: Atom): Sql {
    match a
    case Compare(e, op, _) => [Operand(e), Comparison(op), Mark]
    case CompareText(e, op, text) => [Operand(e), Comparison(op), Quoted(text)]
    case NullTest(e) => [Operand(e), IsNull]
    case Contains(e, _) => [ContainsHead, Mark, ContainsMiddle, Operand(e), ContainsTail]
    case SameParent => [Correlated]
  }

  function AtomArgs(a: Atom): seq<Value> {
    if a.Compare? || a.Contains? then [a.param] else []
  }

  function FactText(f: Fact): Sql {
    match f
    case Single(a) => AtomText(a)
    case Group(d) => [Open] + DisjunctionText(d) + [Close]
    case Sub(q, d) => [From(q)] + DisjunctionText(d) + [Close]
  }

  function ConjunctionText(c: Conjunction): Sql {
    match c
    case One(f) => FactText(f)
    case AndThen(f, more) => FactText(f) + [And] + ConjunctionText(more)
  }

  function DisjunctionText(d: Disjunction): Sql {
    match d
    case Last(c) => ConjunctionText(c)
    case OrElse(c, others) => ConjunctionText(c) + [Or] + DisjunctionText(others)
  }

  function FactArgs(f: Fact): seq<Value> {
    match f
    case Single(a) => AtomArgs(a)
    case Group(d) => DisjunctionArgs(d)
    case Sub(_, d) => DisjunctionArgs(d)
  }

  function ConjunctionArgs(c: Conjunction): seq<Value> {
    match c
    case One(f) => FactArgs(f)
    case AndThen(f, more) => FactArgs(f) + ConjunctionArgs(more)
  }

  function DisjunctionArgs(d: Disjunction): seq<Value> {
    match d
    case Last(c) => ConjunctionArgs(c)
    case OrElse(c, others) => ConjunctionArgs(c) + DisjunctionArgs(others)
  }

  // ----- The parser ----------------------------------------------------------------------------------

  /** A part read from the front of the text, with the text and parameters that are left. */
  datatype Parsed<T> = Fail | Done(value: T, rest: Sql, params: seq<Value>)

  function ParseAtom(s: Sql, ps: seq<Value>): (r: Parsed<Atom>)
    ensures r.Done? ==> |r.rest| < |s|
  {
    if |s| >= 3 && s[0].Operand? && s[1].Comparison? && s[2].Mark? && ps != [] then
      Done(Compare(s[0].expression, s[1].operator, ps[0]), s[3..], ps[1..])
    else if |s| >= 3 && s[0].Operand? && s[1].Comparison? && s[2].Quoted? then
      Done(CompareText(s[0].expression, s[1].operator, s[2].text), s[3..], ps)
    else if |s| >= 2 && s[0].Operand? && s[1].IsNull? then Done(NullTest(s[0].expression), s[2..], ps)
    else if |s| >= 5 && s[0].ContainsHead? && s[1].Mark? && s[2].ContainsMiddle? && s[3].Operand? && s[4].ContainsTail?
            && ps != []
    then Done(Contains(s[3].expression, ps[0]), s[5..], ps[1..])
    else if |s| >= 1 && s[0].Correlated? then Done(SameParent, s[1..], ps)
    else Fail
  }

  function ParseFact(s: Sql, ps: seq<Value>): (r: Parsed<Fact>)
    ensures r.Done? ==> |r.rest| < |s|
    decreases |s|, 0
  {
    if s != [] && (s[0].Open? || s[0].From?) then
      var inner := ParseDisjunction(s[1..], ps);
      if inner.Done? && inner.rest != [] && inner.rest[0].Close?
      then Done(if s[0].Open? then Group(inner.value) else Sub(s[0].subSelect, inner.value),
                inner.rest[1..], inner.params)
      else Fail
    else
      var a := ParseAtom(s, ps);
      if a.Done? then Done(Single(a.value), a.rest, a.params) else Fail
  }

  function ParseConjunction(s: Sql, ps: seq<Value>): (r: Parsed<Conjunction>)
    ensures r.Done? ==> |r.rest| < |s|
    decreases |s|, 1
  {
    var f := ParseFact(s, ps);
    if f.Fail? then Fail
    else if f.rest == [] || !f.rest[0].And? then Done(One(f.value), f.rest, f.params)
    else
      var more := ParseConjunction(f.rest[1..], f.params);
      if more.Done? then Done(AndThen(f.value, more.value), more.rest, more.params) else Fail
  }

  function ParseDisjunction(s: Sql, ps: seq<Value>): (r: Parsed<Disjunction>)
    ensures r.Done? ==> |r.rest| < |s|
    decreases |s|, 2
  {
    var c := ParseConjunction(s, ps);
    if c.Fail? then Fail
    else if c.rest == [] || !c.rest[0].Or? then Done(Last(c.value), c.rest, c.params)
    else
      var others := ParseDisjunction(c.rest[1..], c.params);
      if others.Done? then Done(OrElse(c.value, others.value), others.rest, others.params) else Fail
  }

  // ----- The parser reads back what is written -----------------------------------------------------------

  lemma Behind<T>(front: seq<T>, rest: seq<T>)
    ensures (front + rest)[|front|..] == rest
    ensures forall i :: 0 <= i < |front| ==> (front + rest)[i] == front[i]
  {
  }

  lemma AtomReadBack(a: Atom, rest: Sql, ps: seq<Value>)
    ensures ParseAtom(AtomText(a) + rest, AtomArgs(a) + ps) == Done(a, rest, ps)
  {
    var s := AtomText(a) + rest;
    Behind(AtomText(a), rest);
    Behind(AtomArgs(a), ps);
    match a {
      case Compare(e, op, v) => assert s[0] == Operand(e) && s[1] == Comparison(op) && s[2] == Mark;
      case CompareText(e, op, text) => assert s[0] == Operand(e) && s[1] == Comparison(op) && s[2] == Quoted(text);
      case NullTest(e) => assert s[0] == Operand(e) && s[1] == IsNull;
      case Contains(e, v) =>
        assert s[0] == ContainsHead && s[1] == Mark && s[2] == ContainsMiddle;
        assert s[3] == Operand(e) && s[4] == ContainsTail;
      case SameParent => assert s[0] == Correlated;
    }
    assert AtomArgs(a) == [] ==> [] + ps == ps;
  }

  lemma FactTextSplits(f: Fact, rest: Sql)
    requires !f.Single?
    ensures var s := FactText(f) + rest;
            && s != [] && s[0] == (if f.Group? then Open else From(f.subSelect))
            && s[1..] == DisjunctionText(f.inner) + ([Close] + rest)
    ensures ([Close] + rest)[0] == Close && ([Close] + rest)[1..] == rest
  {
  }

  lemma {:induction false} FactReadBack(f: Fact, rest: Sql, ps: seq<Value>)
    ensures ParseFact(FactText(f) + rest, FactArgs(f) + ps) == Done(f, rest, ps)
    decreases f
  {
    if f.Single? {
      SingleReadBack(f.atom, rest, ps);
    } else {
      FactTextSplits(f, rest);
      DisjunctionReadBack(f.inner, [Close] + rest, ps);
    }
  }

  lemma SingleReadBack(a: Atom, rest: Sql, ps: seq<Value>)
    ensures ParseFact(FactText(Single(a)) + rest, FactArgs(Single(a)) + ps) == Done(Single(a), rest, ps)
  {
    AtomReadBack(a, rest, ps);
    assert (AtomText(a) + rest)[0] == AtomText(a)[0];
  }

  lemma {:induction false} ConjunctionReadBack(c: Conjunction, rest: Sql, ps: seq<Value>)
    requires rest == [] || !rest[0].And?
    ensures ParseConjunction(ConjunctionText(c) + rest, ConjunctionArgs(c) + ps) == Done(c, rest, ps)
    decreases c
  {
    if c.One? {
      FactReadBack(c.fact, rest, ps);
    } else {
      var tail, args := ConjunctionText(c.more) + rest, ConjunctionArgs(c.more) + ps;
      assert ConjunctionText(c) + rest == FactText(c.fact) + ([And] + tail);
      assert ConjunctionArgs(c) + ps == FactArgs(c.fact) + args;
      FactReadBack(c.fact, [And] + tail, args);
      assert ([And] + tail)[1..] == tail;
      ConjunctionReadBack(c.more, rest, ps);
    }
  }

  lemma {:induction false} DisjunctionReadBack(d: Disjunction, rest: Sql, ps: seq<Value>)
    requires rest == [] || (!rest[0].And? && !rest[0].Or?)
    ensures ParseDisjunction(DisjunctionText(d) + rest, DisjunctionArgs(d) + ps) == Done(d, rest, ps)
    decreases d
  {
    if d.Last? {
      ConjunctionReadBack(d.conjunction, rest, ps);
    } else {
      var tail, args := DisjunctionText(d.others) + rest, DisjunctionArgs(d.others) + ps;
      assert DisjunctionText(d) + rest == ConjunctionText(d.conjunction) + ([Or] + tail);
      assert DisjunctionArgs(d) + ps == ConjunctionArgs(d.conjunction) + args;
      ConjunctionReadBack(d.conjunction, [Or] + tail, args);
      assert ([Or] + tail)[1..] == tail;
      DisjunctionReadBack(d.others, rest, ps);
    }
  }

  // ----- Rows and values -----------------------------------------------------------------------------------

  type Cells = map<Field, Value>

  /** A row with its phone links (for a route) or extra servers (for an event), the rows
      that the sub-selects look through. */
  datatype Row = Row(cells: Cells, links: seq<Cells>, servers: seq<Cells>)

  function Cell(row: Row, f: Field): Value {
    if f in row.cells then row.cells[f] else Null
  }

  /** The row a sub-select sees. */
  function Within(row: Row, inner: Cells): Row {
    row.(cells := row.cells + inner)
  }

  function Lower(s: string): string {
    seq(|s|, i requires 0 <= i < |s| => if 'A' <= s[i] <= 'Z' then s[i] - 'A' + 'a' else s[i])
  }

  predicate Inside(part: string, whole: string) {
    exists i :: 0 <= i <= |whole| - |part| && whole[i..][..|part|] == part
  }

  function Decimal(n: int): string
    decreases if n < 0 then 1 - n else n
  {
    if n < 0 then "-" + Decimal(-n)
    else if n < 10 then [(n as char) + '0']
    else Decimal(n / 10) + [((n % 10) as char) + '0']
  }

  function Str(v: Value): string {
    match v
    case Null => ""
    case Text(s) => s
    case Number(n) => Decimal(n)
    case Flag(b) => if b then "True" else "False"
  }

  function Trimmed(s: string, blanks: set<char>): string {
    if s == "" then ""
    else if s[0] in blanks then Trimmed(s[1..], blanks)
    else if s[|s| - 1] in blanks then Trimmed(s[..|s| - 1], blanks)
    else s
  }

  /** What is left has no blank at its ends, and only blanks have been taken off. */
  lemma {:induction false} TrimmedTakesBlanks(s: string, blanks: set<char>) returns (i: nat, j: nat)
    ensures i <= j <= |s| && Trimmed(s, blanks) == s[i..j]
    ensures forall k :: 0 <= k < i || j <= k < |s| ==> s[k] in blanks
    ensures i < j ==> s[i] !in blanks && s[j - 1] !in blanks
  {
    if s == "" {
      i, j := 0, 0;
    } else if s[0] in blanks {
      var a, b := TrimmedTakesBlanks(s[1..], blanks);
      i, j := a + 1, b + 1;
      assert s[1..][a..b] == s[i..j];
      assert forall k :: 1 <= k < |s| ==> s[k] == s[1..][k - 1];
    } else if s[|s| - 1] in blanks {
      i, j := TrimmedTakesBlanks(s[..|s| - 1], blanks);
      assert s[..|s| - 1][i..j] == s[i..j];
      assert forall k :: 0 <= k < |s| - 1 ==> s[k] == s[..|s| - 1][k];
    } else {
      i, j := 0, |s|;
    }
  }

  /** Comparison with NULL is never true. */
  predicate Equal(cell: Value, v: Value) {
    cell != Null && cell == v
  }

  predicate NotBefore(cell: Value, v: Value) {
    cell.Number? && v.Number? && cell.n >= v.n
  }

  predicate NotAfter(cell: Value, v: Value) {
    cell.Number? && v.Number? && cell.n <= v.n
  }

  predicate Found(needle: Value, cell: Value) {
    Inside(Lower(Str(needle)), Lower(Str(cell)))
  }

  /** SQL LIKE: `%` stands for any text, `_` for any character. */
  predicate LikeText(s: string, pattern: string)
    decreases |pattern| + |s|
  {
    if pattern == "" then s == ""
    else if pattern[0] == '%' then LikeText(s, pattern[1..]) || (s != "" && LikeText(s[1..], pattern))
    else s != "" && (pattern[0] == '_' || pattern[0] == s[0]) && LikeText(s[1..], pattern[1..])
  }

  // ----- Evaluation ------------------------------------------------------------------------------------------

  function ValueOf(e: Expression, row: Row): Value {
    match e
    case Plain(f) => Cell(row, f)
    case TrimOf(f) => Text(Trimmed(Str(Cell(row, f)), {' '}))
  }

  predicate Compares(v: Value, op: Operator, w: Value) {
    match op
    case Eq => Equal(v, w)
    case Ge => NotBefore(v, w)
    case Le => NotAfter(v, w)
    case LikeOp => v != Null && w != Null && LikeText(Str(v), Str(w))
  }

  predicate AtomHolds(a: Atom, row: Row) {
    match a
    case Compare(e, op, v) => Compares(ValueOf(e, row), op, v)
    case CompareText(e, op, text) => Compares(ValueOf(e, row), op, Text(text))
    case NullTest(e) => ValueOf(e, row) == Null
    case Contains(e, v) => Found(v, ValueOf(e, row))
    case SameParent => true
  }

  predicate FactHolds(f: Fact, row: Row)
    decreases f
  {
    match f
    case Single(a) => AtomHolds(a, row)
    case Group(d) => Holds(d, row)
    case Sub(NoWorkingLinks, d) => forall i :: 0 <= i < |row.links| ==> !Holds(d, Within(row, row.links[i]))
    case Sub(SomeServer, d) => exists i :: 0 <= i < |row.servers| && Holds(d, Within(row, row.servers[i]))
  }

  predicate AllHold(c: Conjunction, row: Row)
    decreases c
  {
    match c
    case One(f) => FactHolds(f, row)
    case AndThen(f, more) => FactHolds(f, row) && AllHold(more, row)
  }

  predicate Holds(d: Disjunction, row: Row)
    decreases d
  {
    match d
    case Last(c) => AllHold(c, row)
    case OrElse(c, others) => AllHold(c, row) || Holds(others, row)
  }

  // ----- One layer at a time --------------------------------------------------------------------------------

  lemma OneReads(f: Fact, row: Row)
    ensures ConjunctionText(One(f)) == FactText(f) && ConjunctionArgs(One(f)) == FactArgs(f)
    ensures AllHold(One(f), row) <==> FactHolds(f, row)
  {
  }

  lemma GroupReads(c: Conjunction, row: Row)
    ensures FactText(Group(Last(c))) == [Open] + ConjunctionText(c) + [Close]
    ensures FactArgs(Group(Last(c))) == ConjunctionArgs(c)
    ensures FactHolds(Group(Last(c)), row) <==> AllHold(c, row)
  {
  }

  lemma SubReads(q: SubSelect, c: Conjunction)
    ensures FactText(Sub(q, Last(c))) == [From(q)] + ConjunctionText(c) + [Close]
    ensures FactArgs(Sub(q, Last(c))) == ConjunctionArgs(c)
  {
  }

  lemma EitherReads(c: Conjunction, d: Conjunction, row: Row)
    ensures FactText(Group(OrElse(c, Last(d)))) == [Open] + ConjunctionText(c) + [Or] + ConjunctionText(d) + [Close]
    ensures FactArgs(Group(OrElse(c, Last(d)))) == ConjunctionArgs(c) + ConjunctionArgs(d)
    ensures FactHolds(Group(OrElse(c, Last(d))), row) <==> AllHold(c, row) || AllHold(d, row)
  {
    assert DisjunctionText(Last(d)) == ConjunctionText(d) && DisjunctionArgs(Last(d)) == ConjunctionArgs(d);
    assert Holds(Last(d), row) <==> AllHold(d, row);
    assert DisjunctionText(OrElse(c, Last(d))) == ConjunctionText(c) + [Or] + ConjunctionText(d);
    assert DisjunctionArgs(OrElse(c, Last(d))) == ConjunctionArgs(c) + ConjunctionArgs(d);
    assert Holds(OrElse(c, Last(d)), row) <==> AllHold(c, row) || AllHold(d, row);
  }

  // ----- Statements --------------------------------------------------------------------------------------------

  /** The text before the WHERE, which ends the statement when there is none. */
  function Head(sql: Sql): (n: nat)
    ensures n <= |sql|
    ensures forall i :: 0 <= i < n ==> !sql[i].Where?
    ensures n < |sql| ==> sql[n].Where?
  {
    if sql == [] then 0 else if sql[0].Where? then 0 else 1 + Head(sql[1..])
  }

  /** The database's answer: every placeholder takes a parameter, from left to right, none
      is left over, and the condition after the WHERE holds of the row.  A statement that
      cannot be read gives no rows. */
  predicate Selects(sql: Sql, params: seq<Value>, row: Row) {
    var n := Head(sql);
    var m := Marks(sql[..n]);
    if m > |params| then false
    else if n == |sql| then m == |params|
    else
      var d := ParseDisjunction(sql[n + 1..], params[m..]);
      d.Done? && d.rest == [] && d.params == [] && Holds(d.value, row)
  }

  /** What a list method returns. */
  datatype Query = NoRows | Query(sql: Sql, params: seq<Value>)

  predicate Answers(q: Query, row: Row) {
    q.Query? && Selects(q.sql, q.params, row)
  }

  // ----- Lists of conditions -------------------------------------------------------------------------------------

  function Texts(cs: seq<Conjunction>): (r: seq<Sql>)
    ensures |r| == |cs|
  {
    seq(|cs|, i requires 0 <= i < |cs| => ConjunctionText(cs[i]))
  }

  function Args(cs: seq<Conjunction>): seq<Value> {
    if cs == [] then [] else Args(cs[..|cs| - 1]) + ConjunctionArgs(cs[|cs| - 1])
  }

  predicate All(cs: seq<Conjunction>, row: Row) {
    forall i :: 0 <= i < |cs| ==> AllHold(cs[i], row)
  }

  function QueryOf(select: Sql, lead: seq<Value>, cs: seq<Conjunction>): Query {
    Query(select + WhereAll(Texts(cs)), lead + Args(cs))
  }

  lemma TextsOfMore(cs: seq<Conjunction>, c: Conjunction)
    ensures Texts(cs + [c]) == Texts(cs) + [ConjunctionText(c)]
    ensures Args(cs + [c]) == Args(cs) + ConjunctionArgs(c)
  {
    assert (cs + [c])[..|cs|] == cs;
  }

  lemma TextsOfBoth(a: seq<Conjunction>, b: seq<Conjunction>)
    ensures Texts(a + b) == Texts(a) + Texts(b)
  {
  }

  lemma {:induction false} ArgsOfBoth(a: seq<Conjunction>, b: seq<Conjunction>)
    ensures Args(a + b) == Args(a) + Args(b)
  {
    if b == [] {
      assert a + b == a;
    } else {
      var n := |b| - 1;
      assert (a + b)[..|a + b| - 1] == a + b[..n];
      ArgsOfBoth(a, b[..n]);
      assert Args(a) + (Args(b[..n]) + ConjunctionArgs(b[n])) == (Args(a) + Args(b[..n])) + ConjunctionArgs(b[n]);
    }
  }

  lemma AllOfMore(cs: seq<Conjunction>, c: Conjunction, row: Row)
    ensures All(cs + [c], row) <==> All(cs, row) && AllHold(c, row)
  {
    var ds := cs + [c];
    assert ds[|cs|] == c;
    assert forall i :: 0 <= i < |cs| ==> ds[i] == cs[i];
  }

  lemma AllOfBoth(a: seq<Conjunction>, b: seq<Conjunction>, row: Row)
    ensures All(a + b, row) <==> All(a, row) && All(b, row)
  {
    var c := a + b;
    assert forall i :: 0 <= i < |a| ==> c[i] == a[i];
    assert forall i :: 0 <= i < |b| ==> c[|a| + i] == b[i];
  }

  /** Both conditions in one chain of ANDs. */
  function Joined(a: Conjunction, b: Conjunction): Conjunction {
    match a
    case One(f) => AndThen(f, b)
    case AndThen(f, more) => AndThen(f, Joined(more, b))
  }

  lemma {:induction false} JoinedText(a: Conjunction, b: Conjunction)
    ensures ConjunctionText(Joined(a, b)) == ConjunctionText(a) + [And] + ConjunctionText(b)
  {
    if a.AndThen? {
      JoinedText(a.more, b);
      assert FactText(a.fact) + [And] + (ConjunctionText(a.more) + [And] + ConjunctionText(b)) ==
             FactText(a.fact) + [And] + ConjunctionText(a.more) + [And] + ConjunctionText(b);
    }
  }

  lemma {:induction false} JoinedArgs(a: Conjunction, b: Conjunction)
    ensures ConjunctionArgs(Joined(a, b)) == ConjunctionArgs(a) + ConjunctionArgs(b)
  {
    if a.AndThen? {
      JoinedArgs(a.more, b);
      assert FactArgs(a.fact) + (ConjunctionArgs(a.more) + ConjunctionArgs(b)) ==
             FactArgs(a.fact) + ConjunctionArgs(a.more) + ConjunctionArgs(b);
    }
  }

  lemma {:induction false} JoinedHolds(a: Conjunction, b: Conjunction, row: Row)
    ensures AllHold(Joined(a, b), row) <==> AllHold(a, row) && AllHold(b, row)
  {
    if a.AndThen? {
      JoinedHolds(a.more, b, row);
    }
  }

  function Chain(cs: seq<Conjunction>): Conjunction
    requires cs != []
  {
    var n := |cs| - 1;
    if n == 0 then cs[0] else Joined(Chain(cs[..n]), cs[n])
  }

  /** Conditions joined by AND are one chain. */
  lemma {:induction false} ChainOfAll(cs: seq<Conjunction>)
    requires cs != []
    ensures ConjunctionText(Chain(cs)) == JoinAnd(Texts(cs)) && ConjunctionArgs(Chain(cs)) == Args(cs)
  {
    var n := |cs| - 1;
    assert cs == cs[..n] + [cs[n]];
    TextsOfMore(cs[..n], cs[n]);
    if n > 0 {
      ChainOfAll(cs[..n]);
      JoinedText(Chain(cs[..n]), cs[n]);
      JoinedArgs(Chain(cs[..n]), cs[n]);
      assert Texts(cs)[..n] == Texts(cs[..n]);
    }
  }

  lemma {:induction false} ChainHolds(cs: seq<Conjunction>, row: Row)
    requires cs != []
    ensures AllHold(Chain(cs), row) <==> All(cs, row)
  {
    var n := |cs| - 1;
    if n > 0 {
      ChainHolds(cs[..n], row);
      JoinedHolds(Chain(cs[..n]), cs[n], row);
      AllOfMore(cs[..n], cs[n], row);
      assert cs == cs[..n] + [cs[n]];
    }
  }

  /** A statement built of a list of conditions selects the rows of which all hold: each
      placeholder receives its own argument, and no AND or OR of a compound condition
      reaches beyond it. */
  lemma QuerySelects(select: Sql, lead: seq<Value>, cs: seq<Conjunction>, row: Row)
    requires Where !in select && Marks(select) == |lead|
    ensures Answers(QueryOf(select, lead, cs), row) <==> All(cs, row)
  {
    var sql, params := select + WhereAll(Texts(cs)), lead + Args(cs);
    HeadIsSelect(select, WhereAll(Texts(cs)));
    assert sql[..|select|] == select && params[|lead|..] == Args(cs);
    if cs != [] {
      var d := Last(Chain(cs));
      ChainOfAll(cs);
      ChainHolds(cs, row);
      DisjunctionReadBack(d, [], []);
      assert DisjunctionText(d) + [] == JoinAnd(Texts(cs)) && DisjunctionArgs(d) + [] == Args(cs);
      assert sql[|select| + 1..] == JoinAnd(Texts(cs));
    }
  }

  lemma {:induction false} HeadIsSelect(select: Sql, rest: Sql)
    requires Where !in select && (rest == [] || rest[0].Where?)
    ensures Head(select + rest) == |select|
  {
    if select == [] {
      assert select + rest == rest;
    } else {
      assert (select + rest)[1..] == select[1..] + rest;
      HeadIsSelect(select[1..], rest);
    }
  }

  // ----- As many parameters as placeholders --------------------------------------------------------------------------

  lemma {:induction false} MarksOfFact(f: Fact)
    ensures Marks(FactText(f)) == |FactArgs(f)|
    decreases f
  {
    if f.Single? {
      MarksOfAtom(f.atom);
    } else {
      var first := FactText(f)[..1];
      MarksOfDisjunction(f.inner);
      assert FactText(f) == first + DisjunctionText(f.inner) + [Close];
      CountInBoth(first, DisjunctionText(f.inner), Mark);
      CountInBoth(first + DisjunctionText(f.inner), [Close], Mark);
      CountedIff(first, Mark);
      CountedIff([Close], Mark);
    }
  }

  lemma MarksOfAtom(a: Atom)
    ensures Marks(AtomText(a)) == |AtomArgs(a)|
  {
    var s := AtomText(a);
    match a
    case Compare(_, _, _) =>
      CountedIff(s[..2], Mark);
      assert s[..2] + [Mark] == s;
    case Contains(_, _) =>
      assert s == s[..1] + [Mark] + s[2..];
      CountInBoth(s[..1] + [Mark], s[2..], Mark);
      CountInBoth(s[..1], [Mark], Mark);
      CountedIff(s[..1], Mark);
      CountedIff(s[2..], Mark);
    case _ => CountedIff(s, Mark);
  }

  lemma {:induction false} MarksOfConjunction(c: Conjunction)
    ensures Marks(ConjunctionText(c)) == |ConjunctionArgs(c)|
    decreases c
  {
    MarksOfFact(c.fact);
    if c.AndThen? {
      MarksOfConjunction(c.more);
      CountInBoth(FactText(c.fact), [And], Mark);
      CountInBoth(FactText(c.fact) + [And], ConjunctionText(c.more), Mark);
      CountedIff([And], Mark);
    }
  }

  lemma {:induction false} MarksOfDisjunction(d: Disjunction)
    ensures Marks(DisjunctionText(d)) == |DisjunctionArgs(d)|
    decreases d
  {
    MarksOfConjunction(d.conjunction);
    if d.OrElse? {
      MarksOfDisjunction(d.others);
      CountInBoth(ConjunctionText(d.conjunction), [Or], Mark);
      CountInBoth(ConjunctionText(d.conjunction) + [Or], DisjunctionText(d.others), Mark);
      CountedIff([Or], Mark);
    }
  }

  lemma {:induction false} MarksAreCounted(cs: seq<Conjunction>)
    ensures Marks(WhereAll(Texts(cs))) == |Args(cs)|
  {
    if cs != [] {
      var n := |cs| - 1;
      assert cs == cs[..n] + [cs[n]];
      MarksAreCounted(cs[..n]);
      TextsOfMore(cs[..n], cs[n]);
      MarksOfMore(Texts(cs[..n]), ConjunctionText(cs[n]));
      MarksOfConjunction(cs[n]);
    }
  }

  /** As many parameters as placeholders in the whole statement. */
  lemma AsManyParametersAsMarks(select: Sql, lead: seq<Value>, cs: seq<Conjunction>)
    requires Marks(select) == |lead|
    ensures Marks(QueryOf(select, lead, cs).sql) == |QueryOf(select, lead, cs).params|
  {
    MarksAreCounted(cs);
    CountInBoth(select, WhereAll(Texts(cs)), Mark);
  }

  // ----- Which placeholder takes which parameter -----------------------------------------------------

  /** The text up to a condition. */
  function UpTo(select: Sql, cs: seq<Conjunction>, j: nat): Sql
    requires j < |cs|
  {
    select + Before(Texts(cs), j)
  }

  lemma TextsOfFirst(cs: seq<Conjunction>, j: nat)
    requires j <= |cs|
    ensures Texts(cs)[..j] == Texts(cs[..j])
  {
  }

  lemma MarksBefore(cs: seq<Conjunction>, j: nat)
    requires j < |cs|
    ensures Marks(Before(Texts(cs), j)) == |Args(cs[..j])|
  {
    TextsOfFirst(cs, j);
    MarksAreCounted(cs[..j]);
    CountInBoth(WhereAll(Texts(cs[..j])), [And], Mark);
    CountedIff([Where], Mark);
    CountedIff([And], Mark);
  }

  lemma MarksUpTo(select: Sql, cs: seq<Conjunction>, j: nat)
    requires j < |cs|
    ensures Marks(UpTo(select, cs, j)) == Marks(select) + |Args(cs[..j])|
  {
    CountInBoth(select, Before(Texts(cs), j), Mark);
    MarksBefore(cs, j);
  }

  /** The arguments are the parameters from this position on. */
  predicate ArgumentsAt(params: seq<Value>, m: nat, args: seq<Value>) {
    m + |args| <= |params| && params[m..m + |args|] == args
  }

  lemma ArgsInPlace(cs: seq<Conjunction>, j: nat)
    requires j < |cs|
    ensures ArgumentsAt(Args(cs), |Args(cs[..j])|, ConjunctionArgs(cs[j]))
  {
    assert cs == (cs[..j] + [cs[j]]) + cs[j + 1..];
    ArgsOfBoth(cs[..j] + [cs[j]], cs[j + 1..]);
    TextsOfMore(cs[..j], cs[j]);
  }

  lemma ArgumentsShift(lead: seq<Value>, params: seq<Value>, m: nat, args: seq<Value>)
    requires ArgumentsAt(params, m, args)
    ensures ArgumentsAt(lead + params, |lead| + m, args)
  {
    assert (lead + params)[|lead| + m..|lead| + m + |args|] == params[m..m + |args|];
  }

  lemma TextInPlace(select: Sql, cs: seq<Sql>, j: nat)
    requires j < |cs|
    ensures select + Before(cs, j) + cs[j] <= select + WhereAll(cs)
  {
    TextContains(cs, j);
    assert select + Before(cs, j) + cs[j] == select + (Before(cs, j) + cs[j]);
  }

  /** Every condition stands in the text with exactly as many placeholders before it as
      there are parameters before its own arguments, and has one for each of these. */
  lemma EachConditionGetsItsArguments(select: Sql, lead: seq<Value>, cs: seq<Conjunction>, j: nat)
    requires j < |cs| && Marks(select) == |lead|
    ensures UpTo(select, cs, j) + Texts(cs)[j] <= QueryOf(select, lead, cs).sql
    ensures ArgumentsAt(QueryOf(select, lead, cs).params, Marks(UpTo(select, cs, j)), ConjunctionArgs(cs[j]))
    ensures Marks(Texts(cs)[j]) == |ConjunctionArgs(cs[j])|
  {
    TextInPlace(select, Texts(cs), j);
    MarksUpTo(select, cs, j);
    ArgsInPlace(cs, j);
    ArgumentsShift(lead, Args(cs), |Args(cs[..j])|, ConjunctionArgs(cs[j]));
    MarksOfConjunction(cs[j]);
  }
}
