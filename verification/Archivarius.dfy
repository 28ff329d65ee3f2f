/** The export model: keyset pages over id-ordered tables, and the full snapshot
    assembled from them. */
module Archivarius {
  import opened Common

  const SNAPSHOT_DEFAULT_LIMIT := 500
  const EVENT_DEFAULT_LIMIT := 200
  const MAX_LIMIT := 1000

  /** A query parameter as text: missing, not an integer, or an integer. */
  datatype Param = Absent | NotAnInteger | Integer(value: int)

  function IntegerOr(p: Param, default: int): Option<int> {
    match p
    case Absent => Some(default)
    case NotAnInteger => None
    case Integer(v) => Some(v)
  }

  /** A page request is accepted exactly when both values are integers in range. */
  function ParsePagination(afterId: Param, limit: Param, events: bool): (r: Result<(nat, nat)>)
    ensures r.Ok? <==> !afterId.NotAnInteger? && !limit.NotAnInteger?
                       && (afterId.Integer? ==> afterId.value >= 0)
                       && (limit.Integer? ==> 1 <= limit.value <= 1000)
    ensures r.Ok? ==> r.value.0 == if afterId.Integer? then afterId.value else 0
    ensures r.Ok? ==> r.value.1 == if limit.Integer? then limit.value else if events then 200 else 500
  {
    var default := if events then EVENT_DEFAULT_LIMIT else SNAPSHOT_DEFAULT_LIMIT;
    var a, l := IntegerOr(afterId, 0), IntegerOr(limit, default);
    if a.None? || l.None? then Refused
    else if a.value < 0 then Refused
    else if l.value < 1 || l.value > MAX_LIMIT then Refused
    else Ok((a.value, l.value))
  }

  // ----- Tables and pages -----------------------------------------------------------------

  datatype Item<T> = Item(id: int, payload: T)

  /** A table as an id-ordered scan delivers it. */
  ghost predicate Ordered<T>(table: seq<Item<T>>) {
    forall i, j :: 0 <= i < j < |table| ==> table[i].id < table[j].id
  }

  /** The rows with an id above `after`, in id order. */
  function After<T>(table: seq<Item<T>>, after: int): seq<Item<T>> {
    if table == [] then []
    else if table[0].id > after then [table[0]] + After(table[1..], after)
    else After(table[1..], after)
  }

  function Take<T>(s: seq<T>, n: nat): seq<T> {
    if |s| <= n then s else s[..n]
  }

  datatype Page<T> = Page(items: seq<Item<T>>, nextCursor: int, hasMore: bool)

  function Envelope<T>(items: seq<Item<T>>, after: int, hasMore: bool): Page<T> {
    Page(items, if items == [] then after else items[|items| - 1].id, hasMore)
  }

  /** One more row than the limit is fetched, to know whether more remain. */
  function PageOf<T>(table: seq<Item<T>>, after: int, limit: nat): Page<T> {
    var rows := Take(After(table, after), limit + 1);
    Envelope(Take(rows, limit), after, |rows| > limit)
  }

  lemma {:induction false} AfterIsSuffix<T>(table: seq<Item<T>>, after: int) returns (k: nat)
    requires Ordered(table)
    ensures k <= |table| && After(table, after) == table[k..]
    ensures forall i :: 0 <= i < |table| ==> (table[i].id > after <==> i >= k)
  {
    if table == [] {
      k := 0;
    } else if table[0].id > after {
      k := 0;
      var j := AfterIsSuffix(table[1..], after);
      assert table[1..][j..] == table[1 + j..];
    } else {
      var j := AfterIsSuffix(table[1..], after);
      k := j + 1;
      assert table[1..][j..] == table[k..];
      forall i | 0 <= i < |table| ensures table[i].id > after <==> i >= k {
        if i > 0 {
          assert table[1..][i - 1] == table[i];
        }
      }
    }
  }

  lemma AfterId<T>(table: seq<Item<T>>, i: nat)
    requires Ordered(table) && i < |table|
    ensures After(table, table[i].id) == table[i + 1..]
  {
    var m := AfterIsSuffix(table, table[i].id);
    assert !(table[i].id > table[i].id);
    if i + 1 < |table| {
      assert table[i + 1].id > table[i].id;
    }
  }

  /** A page is the next stretch of the scan, full if there is more. */
  lemma PageIsStretch<T>(table: seq<Item<T>>, after: int, limit: nat) returns (k: nat, n: nat)
    requires Ordered(table) && limit >= 1
    ensures k + n <= |table| && After(table, after) == table[k..]
    ensures forall i :: 0 <= i < |table| ==> (table[i].id > after <==> i >= k)
    ensures PageOf(table, after, limit).items == table[k..k + n]
    ensures n <= limit
    ensures if PageOf(table, after, limit).hasMore then n == limit && k + n < |table| else k + n == |table|
  {
    k := AfterIsSuffix(table, after);
    n := if |table| - k > limit then limit else |table| - k;
  }

  /** The page's cursor asks for what comes after that stretch. */
  lemma CursorAsksForRest<T>(table: seq<Item<T>>, after: int, limit: nat, k: nat, n: nat)
    requires Ordered(table) && k + n <= |table| && After(table, after) == table[k..]
    requires forall i :: 0 <= i < |table| ==> (table[i].id > after <==> i >= k)
    requires PageOf(table, after, limit).items == table[k..k + n]
    ensures var next := PageOf(table, after, limit).nextCursor;
            After(table, next) == table[k + n..] && if n > 0 then next > after else next == after
  {
    if n > 0 {
      assert PageOf(table, after, limit).nextCursor == table[k + n - 1].id;
      AfterId(table, k + n - 1);
    }
  }

  /** What follows a page is what its cursor asks for.  A page with more behind it is
      full, and its cursor moves strictly on; a page without more ends the scan. */
  lemma PageAdvances<T>(table: seq<Item<T>>, after: int, limit: nat)
    requires Ordered(table) && limit >= 1
    ensures var page := PageOf(table, after, limit);
            && page.items + After(table, page.nextCursor) == After(table, after)
            && (page.hasMore ==>
                  |page.items| == limit && page.nextCursor > after && After(table, page.nextCursor) != [])
            && (!page.hasMore ==> After(table, page.nextCursor) == [])
            && after <= page.nextCursor
  {
    var k, n := PageIsStretch(table, after, limit);
    CursorAsksForRest(table, after, limit, k, n);
    assert table[k..k + n] + table[k + n..] == table[k..];
  }

  // ----- The full snapshot ----------------------------------------------------------------

  /** Pages through a table until no more rows are announced.  Whatever the limit, no
      row is lost or repeated. */
  method ReadAll<T>(table: seq<Item<T>>, limit: nat) returns (items: seq<Item<T>>)
    requires Ordered(table) && limit >= 1
    ensures items == After(table, 0)
    ensures exists k :: 0 <= k <= |table| && items == table[k..]
                        && forall i :: 0 <= i < |table| ==> (table[i].id > 0 <==> i >= k)
  {
    items := ReadPages(table, limit);
    ghost var first := AfterIsSuffix(table, 0);
  }

  method ReadPages<T>(table: seq<Item<T>>, limit: nat) returns (items: seq<Item<T>>)
    requires Ordered(table) && limit >= 1
    ensures items == After(table, 0)
  {
    var cursor := 0;
    items := [];
    while true
      invariant items + After(table, cursor) == After(table, 0)
      decreases |After(table, cursor)|
    {
      var page := PageOf(table, cursor, limit);
      PageAdvances(table, cursor, limit);
      items := items + page.items;
      if !page.hasMore {
        break;
      }
      cursor := page.nextCursor;
    }
  }

  /** The scan from cursor zero is the whole table exactly when all ids are positive,
      as identity columns make them. */
  lemma WholeTableIffPositiveIds<T>(table: seq<Item<T>>)
    requires Ordered(table)
    ensures After(table, 0) == table <==> forall i :: 0 <= i < |table| ==> table[i].id > 0
  {
    var k := AfterIsSuffix(table, 0);
    if After(table, 0) == table {
      assert |table[k..]| == |table| - k;
    }
  }

  // ----- Routes with their phones ------------------------------------------------------------

  datatype LinkRow = LinkRow(route: int, active: bool, phone: int, usage: string)

  function LinksOf(links: seq<LinkRow>, route: int): seq<LinkRow> {
    if links == [] then []
    else
      var l := links[|links| - 1];
      var earlier := LinksOf(links[..|links| - 1], route);
      if l.active && l.route == route then earlier + [l] else earlier
  }

  /** The positions of a route's active links. */
  ghost predicate ActiveLinks(links: seq<LinkRow>, route: int, positions: seq<nat>) {
    && (forall j, k :: 0 <= j < k < |positions| ==> positions[j] < positions[k])
    && (forall k :: 0 <= k < |positions| ==>
          positions[k] < |links| && links[positions[k]].active && links[positions[k]].route == route)
    && (forall i: nat :: i < |links| && links[i].active && links[i].route == route ==> i in positions)
  }

  ghost predicate TakenAt(taken: seq<LinkRow>, links: seq<LinkRow>, positions: seq<nat>) {
    && |taken| == |positions|
    && forall k :: 0 <= k < |positions| ==> positions[k] < |links| && taken[k] == links[positions[k]]
  }

  lemma {:induction false} LinksUpTo(links: seq<LinkRow>, route: int, n: nat, p: nat -> bool)
    requires n <= |links| && forall i: nat :: i < |links| ==> (p(i) <==> links[i].active && links[i].route == route)
    ensures TakenAt(LinksOf(links[..n], route), links, PositionsUpTo(n, p))
  {
    if n > 0 {
      LinksUpTo(links, route, n - 1, p);
      assert links[..n][..n - 1] == links[..n - 1];
    }
  }

  /** The links of a route are its active links, each once, in their order. */
  lemma LinksOfAreActive(links: seq<LinkRow>, route: int) returns (positions: seq<nat>)
    ensures ActiveLinks(links, route, positions) && TakenAt(LinksOf(links, route), links, positions)
  {
    var p := (i: nat) => i < |links| && links[i].active && links[i].route == route;
    positions := PositionsUpTo(|links|, p);
    LinksUpTo(links, route, |links|, p);
    assert links[..|links|] == links;
    forall i: nat | i < |links| && links[i].active && links[i].route == route ensures i in positions {
      AllUpTo(|links|, p, i);
    }
  }

  /** The shape of one exported row: the row and the links that belong to it. */
  function WithLinks<T>(table: seq<Item<T>>, links: seq<LinkRow>): (r: seq<Item<(T, seq<LinkRow>)>>)
    ensures |r| == |table|
  {
    seq(|table|, i requires 0 <= i < |table| => Item(table[i].id, (table[i].payload, LinksOf(links, table[i].id))))
  }

  /** An exported row is the table's row with all its links. */
  ghost predicate RowOf<T>(out: Item<(T, seq<LinkRow>)>, row: Item<T>, links: seq<LinkRow>) {
    out.id == row.id && out.payload.0 == row.payload && out.payload.1 == LinksOf(links, row.id)
  }

  lemma {:induction false} WithLinksAfter<T>(table: seq<Item<T>>, links: seq<LinkRow>, after: int)
    ensures After(WithLinks(table, links), after) == WithLinks(After(table, after), links)
  {
    if table != [] {
      assert WithLinks(table, links)[1..] == WithLinks(table[1..], links);
      WithLinksAfter(table[1..], links, after);
    }
  }

  /** The loop that files the links of a page into a dictionary keyed by its rows. */
  method GroupLinks(ids: seq<int>, links: seq<LinkRow>) returns (groups: map<int, seq<LinkRow>>)
    ensures groups.Keys == (set id | id in ids)
    ensures forall id :: id in ids ==> groups[id] == LinksOf(links, id)
  {
    groups := map id | id in ids :: [];
    var i := 0;
    while i < |links|
      invariant 0 <= i <= |links|
      invariant groups.Keys == (set id | id in ids)
      invariant forall id :: id in ids ==> groups[id] == LinksOf(links[..i], id)
    {
      var l := links[i];
      assert links[..i + 1][..i] == links[..i];
      if l.active && l.route in ids {
        groups := groups[l.route := groups[l.route] + [l]];
      }
      i := i + 1;
    }
    assert links[..i] == links;
  }

  /** A page of routes (or phones): the links are looked up for the page's rows only,
      and yet every row carries all the links it has. */
  method RoutesPage<T>(table: seq<Item<T>>, links: seq<LinkRow>, after: int, limit: nat)
      returns (page: Page<(T, seq<LinkRow>)>)
    ensures page == PageOf(WithLinks(table, links), after, limit)
    ensures |page.items| == |PageOf(table, after, limit).items|
    ensures forall i :: 0 <= i < |page.items| ==> RowOf(page.items[i], PageOf(table, after, limit).items[i], links)
  {
    var rows := Take(After(table, after), limit + 1);
    var pageRows := Take(rows, limit);
    var ids := seq(|pageRows|, i requires 0 <= i < |pageRows| => pageRows[i].id);
    var groups := GroupLinks(ids, links);
    var items: seq<Item<(T, seq<LinkRow>)>> := [];
    var i := 0;
    while i < |pageRows|
      invariant 0 <= i <= |pageRows|
      invariant items == WithLinks(pageRows, links)[..i]
    {
      assert ids[i] in ids && ids[i] in groups;
      items := items + [Item(pageRows[i].id, (pageRows[i].payload, groups[pageRows[i].id]))];
      i := i + 1;
    }
    page := Envelope(items, after, |rows| > limit);
    WithLinksAfter(table, links, after);
    assert items == Take(Take(After(WithLinks(table, links), after), limit + 1), limit);
  }

  /** The snapshot of routes: every row once, in order, with all its links. */
  method ReadAllRoutes<T>(table: seq<Item<T>>, links: seq<LinkRow>, limit: nat)
      returns (items: seq<Item<(T, seq<LinkRow>)>>)
    requires Ordered(table) && limit >= 1
    ensures items == WithLinks(After(table, 0), links)
    ensures |items| == |After(table, 0)|
    ensures forall i :: 0 <= i < |items| ==> RowOf(items[i], After(table, 0)[i], links)
  {
    var cursor := 0;
    items := [];
    WithLinksAfter(table, links, 0);
    ghost var whole := WithLinks(table, links);
    while true
      invariant items + After(whole, cursor) == After(whole, 0)
      decreases |After(whole, cursor)|
    {
      var page := RoutesPage(table, links, cursor, limit);
      PageAdvances(whole, cursor, limit);
      NextPart(items, page.items, After(whole, page.nextCursor), After(whole, cursor));
      items := items + page.items;
      if !page.hasMore {
        break;
      }
      cursor := page.nextCursor;
    }
  }

  lemma NextPart<T>(read: seq<T>, page: seq<T>, rest: seq<T>, left: seq<T>)
    requires page + rest == left
    ensures (read + page) + rest == read + left && (rest == [] ==> read + page == read + left)
    ensures |rest| == |left| - |page|
  {
  }
}
