/** SQL conditions as text with positional parameters: what a WHERE clause built by
    joining and splitting on AND says, and which parameter each mark receives. */
module QueryText {

  datatype Value = Null | Text(text: string) | Number(n: int) | Flag(b: bool)

  datatype Operator = Eq | Ge | Le | LikeOp

  /** A column, or a column trimmed of spaces. */
  datatype Expression = Plain(field: Field) | TrimOf(field: Field)

  datatype SubSelect = NoWorkingLinks | SomeServer

  /** The words of a statement.  `Mark` is a parameter placeholder; `ContainsHead`,
      `ContainsMiddle` and `ContainsTail` are the three pieces of a search in a text, and
      a sub-select's token is its text up to its WHERE, `Correlated` being the condition
      that ties its rows to the outer one. */
  datatype Token =
    | Mark
    | And
    | Or
    | Open
    | Close
    | Where
    | Operand(expression: Expression)
    | Comparison(operator: Operator)
    | IsNull
    | Quoted(text: string)
    | ContainsHead
    | ContainsMiddle
    | ContainsTail
    | From(subSelect: SubSelect)
    | Correlated

  /** The columns and column expressions that conditions name. */
  datatype Field =
    | RouteCountry | RouteProvider | RouteActual | RouteName | RoutePrefix | RouteSource | RoutePool
    | PhoneCountry | PhoneProvider | PhoneProject | PhoneAssignment | PhoneStatus | PhoneType | PhoneActive
    | PhoneNumber | PhoneReview | PhoneProblematic | LinkActive | LinkedPhoneActive | LinkedPhoneStatus
    | SettingCountry | SettingServer | SettingMode | SettingCampaign | SettingActive | SettingValidTo
    | CampaignExternalId | CampaignActive | CampaignServer
    | EventActive | EventAt | EventCountry | EventScope | EventCampaign | EventProvider | EventServer | ServerOfEvent

  type Sql = seq<Token>

  function Count(s: Sql, t: Token): nat {
    if s == [] then 0 else Count(s[..|s| - 1], t) + (if s[|s| - 1] == t then 1 else 0)
  }

  function Marks(s: Sql): nat {
    Count(s, Mark)
  }

  lemma {:induction false} CountInBoth(a: Sql, b: Sql, t: Token)
    ensures Count(a + b, t) == Count(a, t) + Count(b, t)
  {
    if b == [] {
      assert a + b == a;
    } else {
      assert (a + b)[..|a + b| - 1] == a + b[..|b| - 1];
      CountInBoth(a, b[..|b| - 1], t);
    }
  }

  lemma {:induction false} CountedIff(s: Sql, t: Token)
    ensures Count(s, t) == 0 <==> t !in s
  {
    if s != [] {
      CountedIff(s[..|s| - 1], t);
      assert s == s[..|s| - 1] + [s[|s| - 1]];
    }
  }

  // ----- Joining and splitting ---------------------------------------------------------------------

  function JoinAnd(cs: seq<Sql>): Sql {
    if cs == [] then []
    else if |cs| == 1 then cs[0]
    else JoinAnd(cs[..|cs| - 1]) + [And] + cs[|cs| - 1]
  }

  function SplitAnd(s: Sql): (r: seq<Sql>)
    ensures |r| > 0
  {
    if s == [] then [[]]
    else
      var r := SplitAnd(s[..|s| - 1]);
      if s[|s| - 1] == And then r + [[]] else Longer(r, [s[|s| - 1]])
  }

  /** The parts with more text at the end of the last one. */
  function Longer(parts: seq<Sql>, c: Sql): (r: seq<Sql>)
    requires parts != []
    ensures |r| == |parts|
  {
    parts[..|parts| - 1] + [parts[|parts| - 1] + c]
  }

  function WhereAll(cs: seq<Sql>): Sql {
    if cs == [] then [] else [Where] + JoinAnd(cs)
  }

  lemma LongerTwice(parts: seq<Sql>, c: Sql, d: Sql)
    requires parts != []
    ensures Longer(Longer(parts, c), d) == Longer(parts, c + d) && Longer(parts, []) == parts
  {
    var last := parts[|parts| - 1];
    assert (last + c) + d == last + (c + d) && last + [] == last;
  }

  lemma SplitOneMore(s: Sql, x: Token)
    ensures SplitAnd(s + [x]) == if x == And then SplitAnd(s) + [[]] else Longer(SplitAnd(s), [x])
  {
    assert (s + [x])[..|s|] == s;
  }

  lemma {:induction false} SplitAfter(s: Sql, c: Sql)
    requires And !in c
    ensures SplitAnd(s + c) == Longer(SplitAnd(s), c)
  {
    if c == [] {
      LongerTwice(SplitAnd(s), [], []);
      assert s + c == s;
    } else {
      var d, x := c[..|c| - 1], c[|c| - 1];
      assert d + [x] == c && s + c == (s + d) + [x];
      SplitAfter(s, d);
      SplitOneMore(s + d, x);
      LongerTwice(SplitAnd(s), d, [x]);
    }
  }

  lemma SplitAtAnd(s: Sql, c: Sql)
    requires And !in c
    ensures SplitAnd(s + [And] + c) == SplitAnd(s) + [c]
  {
    SplitOneMore(s, And);
    SplitAfter(s + [And], c);
    assert [] + c == c;
  }

  /** A split finds one part more than there are ANDs in the text. */
  lemma {:induction false} SplitCounts(s: Sql)
    ensures |SplitAnd(s)| == 1 + Count(s, And)
  {
    if s != [] {
      SplitCounts(s[..|s| - 1]);
    }
  }

  lemma {:induction false} JoinCounts(cs: seq<Sql>, i: nat)
    requires i < |cs|
    ensures Count(JoinAnd(cs), And) >= |cs| - 1 + Count(cs[i], And)
  {
    var n := |cs| - 1;
    if n > 0 {
      JoinCounts(cs[..n], if i < n then i else 0);
      CountInBoth(JoinAnd(cs[..n]), [And], And);
      CountInBoth(JoinAnd(cs[..n]) + [And], cs[n], And);
    }
  }

  lemma JoinOneMore(cs: seq<Sql>, c: Sql)
    requires cs != []
    ensures JoinAnd(cs + [c]) == JoinAnd(cs) + [And] + c
  {
    assert (cs + [c])[..|cs|] == cs;
  }

  lemma {:induction false} SplitUndoesJoin(cs: seq<Sql>)
    requires cs != [] && forall i :: 0 <= i < |cs| ==> And !in cs[i]
    ensures SplitAnd(JoinAnd(cs)) == cs
  {
    var n := |cs| - 1;
    if n == 0 {
      SplitAfter([], cs[0]);
      assert [] + cs[0] == cs[0];
    } else {
      assert cs == cs[..n] + [cs[n]];
      SplitUndoesJoin(cs[..n]);
      JoinOneMore(cs[..n], cs[n]);
      SplitAtAnd(JoinAnd(cs[..n]), cs[n]);
    }
  }

  /** Splitting on AND undoes joining exactly when no part has an AND of its own: the
      compound conditions may only be added after the split. */
  lemma SplitUndoesJoinIff(cs: seq<Sql>)
    requires cs != []
    ensures SplitAnd(JoinAnd(cs)) == cs <==> forall i :: 0 <= i < |cs| ==> And !in cs[i]
  {
    if forall i :: 0 <= i < |cs| ==> And !in cs[i] {
      SplitUndoesJoin(cs);
    } else {
      var i :| 0 <= i < |cs| && And in cs[i];
      SplitCounts(JoinAnd(cs));
      JoinCounts(cs, i);
      CountedIff(cs[i], And);
    }
  }

  // ----- WHERE clauses -------------------------------------------------------------------------------

  /** A WHERE clause with one more part. */
  lemma WhereOfMore(cs: seq<Sql>, c: Sql)
    ensures WhereAll(cs + [c]) == (if cs == [] then [Where] else WhereAll(cs) + [And]) + c
  {
    assert (cs + [c])[..|cs|] == cs;
  }

  /** The text before a part, with its WHERE or AND included. */
  function Before(cs: seq<Sql>, j: nat): Sql
    requires j < |cs|
  {
    if j == 0 then [Where] else WhereAll(cs[..j]) + [And]
  }

  lemma {:induction false} TextContains(cs: seq<Sql>, j: nat)
    requires j < |cs|
    ensures Before(cs, j) + cs[j] <= WhereAll(cs)
  {
    var n := |cs| - 1;
    assert cs == cs[..n] + [cs[n]];
    WhereOfMore(cs[..n], cs[n]);
    if j < n {
      TextContains(cs[..n], j);
      assert cs[..n][..j] == cs[..j];
    }
  }

  lemma MarksOfMore(cs: seq<Sql>, c: Sql)
    ensures Marks(WhereAll(cs + [c])) == Marks(WhereAll(cs)) + Marks(c)
  {
    WhereOfMore(cs, c);
    CountInBoth(WhereAll(cs), [And], Mark);
    CountInBoth(if cs == [] then [Where] else WhereAll(cs) + [And], c, Mark);
    CountedIff([Where], Mark);
    CountedIff([And], Mark);
  }
}
