/** The prerequisite-cycle detector of the write-plan audit.

    `audit` turns the plan's batches into a directed graph and runs a depth-first
    search with a `seen` set, an `active` set and a list of reported names.  The
    search is modelled as it is written: a recursive method over mutable fields.
    Ghost state records what the fields stand for: the current search path and
    the order in which batches were finished. */
module CycleAudit {

  type Name = string

  /** A batch of the plan.  An entry that is not an object has no edges of its
      own, but its name can still be listed as a prerequisite. */
  datatype Batch = Batch(prerequisites: seq<Name>) | NotAnObject

  type Graph = map<Name, seq<Name>>

  /** What the search delivers: the names reported, or the lookup failure raised
      when a prerequisite has no entry among the edges. */
  datatype Outcome = Reported(names: set<Name>) | MissingEntry

  function KnownNames(names: seq<Name>, known: set<Name>): (r: seq<Name>)
    ensures forall n :: n in r <==> n in names && n in known
  {
    if names == [] then []
    else if names[0] in known then [names[0]] + KnownNames(names[1..], known)
    else KnownNames(names[1..], known)
  }

  function Edges(batches: map<Name, Batch>): Graph
  {
    map n | n in batches && batches[n].Batch? :: KnownNames(batches[n].prerequisites, batches.Keys)
  }

  ghost predicate Edge(g: Graph, x: Name, y: Name) {
    x in g && y in g[x]
  }

  ghost predicate Walk(g: Graph, p: seq<Name>) {
    forall i :: 0 <= i < |p| - 1 ==> Edge(g, p[i], p[i + 1])
  }

  ghost predicate ClosedWalk(g: Graph, p: seq<Name>) {
    |p| >= 2 && p[0] == p[|p| - 1] && Walk(g, p)
  }

  ghost predicate OnCycle(g: Graph, x: Name) {
    exists p :: ClosedWalk(g, p) && p[0] == x
  }

  /** Every edge leads to a batch that has edges of its own. */
  ghost predicate Closed(g: Graph) {
    forall x, y :: Edge(g, x, y) ==> y in g
  }

  ghost predicate Acyclic(g: Graph) {
    forall x :: !OnCycle(g, x)
  }

  ghost predicate AllOnCycles(g: Graph, names: set<Name>) {
    forall n :: n in names ==> OnCycle(g, n)
  }

  ghost predicate Meets(p: seq<Name>, names: set<Name>) {
    exists i :: 0 <= i < |p| && p[i] in names
  }

  /** No closed walk avoids the reported names. */
  ghost predicate HitsEveryCycle(g: Graph, names: set<Name>) {
    forall p :: ClosedWalk(g, p) ==> Meets(p, names)
  }

  // ----- The finishing order ---------------------------------------------------

  /** When a batch was finished. */
  type Ranks = map<Name, nat>

  /** A finished batch leads only to batches finished before it, or reported. */
  ghost predicate Descends(g: Graph, rank: Ranks, reported: seq<Name>) {
    forall x, y :: x in rank && Edge(g, x, y) ==> Below(rank, y, rank[x]) || y in reported
  }

  ghost predicate Below(rank: Ranks, y: Name, bound: nat) {
    y in rank && rank[y] < bound
  }

  lemma DescendsGrows(g: Graph, rank: Ranks, reported: seq<Name>, x: Name, now: nat)
    requires Descends(g, rank, reported) && x !in rank
    requires forall y :: y in rank ==> rank[y] < now
    requires forall y :: Edge(g, x, y) ==> y in rank || y in reported
    ensures Descends(g, rank[x := now], reported)
  {
  }

  lemma DescendsMonotone(g: Graph, rank: Ranks, reported: seq<Name>, more: seq<Name>)
    requires Descends(g, rank, reported) && forall n :: n in reported ==> n in more
    ensures Descends(g, rank, more)
  {
  }

  /** A walk that avoids the reported names only moves to lower ranks. */
  lemma {:induction false} WalkMovesDown(g: Graph, rank: Ranks, reported: seq<Name>, p: seq<Name>)
    requires Descends(g, rank, reported)
    requires |p| >= 2 && Walk(g, p) && p[0] in rank
    requires forall k :: 1 <= k < |p| ==> p[k] !in reported
    ensures Below(rank, p[|p| - 1], rank[p[0]])
  {
    assert Edge(g, p[0], p[1]);
    if |p| > 2 {
      var rest := p[1..];
      forall k | 0 <= k < |rest| - 1 ensures Edge(g, rest[k], rest[k + 1]) {
        assert Edge(g, p[k + 1], p[k + 1 + 1]);
      }
      WalkMovesDown(g, rank, reported, rest);
    }
  }

  /** Once every batch is finished, no closed walk avoids the reported names. */
  lemma EveryCycleHit(g: Graph, rank: Ranks, reported: seq<Name>)
    requires Descends(g, rank, reported) && forall n :: n in g ==> n in rank
    ensures HitsEveryCycle(g, set n | n in reported)
  {
    var names := set n | n in reported;
    forall p | ClosedWalk(g, p) ensures Meets(p, names) {
      if forall k :: 0 <= k < |p| ==> p[k] !in reported {
        assert Edge(g, p[0], p[1]);
        WalkMovesDown(g, rank, reported, p);
      } else {
        var k :| 0 <= k < |p| && p[k] in reported;
        assert p[k] in names;
      }
    }
  }

  /** The tail of the search path from `x` on, closed by an edge back to `x`. */
  lemma BackEdgeClosesCycle(g: Graph, path: seq<Name>, x: Name)
    requires Walk(g, path) && x in path && Edge(g, path[|path| - 1], x)
    ensures OnCycle(g, x)
  {
    var k :| 0 <= k < |path| && path[k] == x;
    var p := path[k..] + [x];
    forall i | 0 <= i < |p| - 1 ensures Edge(g, p[i], p[i + 1]) {
      assert p[i] == path[k + i];
      if i + 1 < |p| - 1 {
        assert p[i + 1] == path[k + i + 1] && Edge(g, path[k + i], path[k + i + 1]);
      }
    }
    assert ClosedWalk(g, p);
  }

  /** Hitting every cycle with names that lie on cycles decides acyclicity. */
  lemma ReportDecidesAcyclicity(g: Graph, names: set<Name>)
    requires HitsEveryCycle(g, names)
    requires AllOnCycles(g, names)
    ensures names == {} <==> Acyclic(g)
  {
  }

  /** The lookup can fail only when a well-formed batch lists a malformed one. */
  lemma ClosedIffPrerequisitesWellFormed(batches: map<Name, Batch>)
    ensures Closed(Edges(batches)) <==>
            forall n, q :: n in batches && batches[n].Batch? && q in batches[n].prerequisites && q in batches
              ==> batches[q].Batch?
  {
    var g := Edges(batches);
    if Closed(g) {
      forall n, q | n in batches && batches[n].Batch? && q in batches[n].prerequisites && q in batches
        ensures batches[q].Batch?
      {
        assert q in KnownNames(batches[n].prerequisites, batches.Keys);
        assert Edge(g, n, q);
      }
    }
    if forall n, q :: n in batches && batches[n].Batch? && q in batches[n].prerequisites && q in batches
        ==> batches[q].Batch? {
      forall x, y | Edge(g, x, y) ensures y in g {
        assert y in KnownNames(batches[x].prerequisites, batches.Keys);
      }
    }
  }

  // ----- The search --------------------------------------------------------------

  /** A plan with a batch that lists a malformed one. */
  lemma MalformedPrerequisiteFails()
    ensures !Closed(Edges(map["a" := Batch(["b"]), "b" := NotAnObject]))
  {
    var batches := map["a" := Batch(["b"]), "b" := NotAnObject];
    assert batches["a"].prerequisites[0] == "b" && "b" in batches;
    ClosedIffPrerequisitesWellFormed(batches);
  }

  class Search {
    const edges: Graph
    var seen: set<Name>
    var active: set<Name>
    var cycles: seq<Name>
    ghost var path: seq<Name>
    ghost var rank: Ranks
    ghost var clock: nat

    /** `active` is the current search path, and everything seen but not active is
        finished; whatever has been reported lies on a cycle. */
    ghost predicate Valid()
      reads this
    {
      && Walk(edges, path)
      && (forall n :: n in active <==> n in path)
      && active <= seen <= edges.Keys
      && rank.Keys == seen - active
      && (forall n :: n in rank ==> rank[n] < clock)
      && (forall i, j :: 0 <= i < j < |path| ==> path[i] != path[j])
      && (forall n :: n in cycles ==> OnCycle(edges, n))
      && Descends(edges, rank, cycles)
      && (forall x, y :: x in rank && Edge(edges, x, y) ==> y in edges)
    }

    /** The batch has edges and is finished or reported. */
    ghost predicate Settled(y: Name)
      reads this
    {
      y in edges && (y in rank || y in cycles)
    }

    constructor (edges: Graph)
      ensures this.edges == edges && Valid()
      ensures seen == {} && path == [] && cycles == []
    {
      this.edges := edges;
      seen, active, cycles, path, rank, clock := {}, {}, [], [], map[], 0;
    }

    method Visit(x: Name) returns (ok: bool)
      requires Valid()
      requires path != [] ==> Edge(edges, path[|path| - 1], x)
      modifies this
      ensures old(seen) <= seen
      ensures ok ==> Valid() && path == old(path) && Settled(x) && x in seen
      ensures ok ==> forall n :: old(Settled(n)) ==> Settled(n)
      ensures !ok ==> x !in edges || !Closed(edges)
      decreases edges.Keys - seen, 1
    {
      if x in active {
        Report(x);
        return true;
      }
      if x !in seen {
        Enter(x);
        if x !in edges {
          return false;
        }
        ok := VisitPrerequisites(x);
        if !ok {
          return false;
        }
        Leave(x);
      }
      return true;
    }

    /** A batch on the current path is reached again. */
    method Report(x: Name)
      requires Valid() && x in active
      requires path != [] ==> Edge(edges, path[|path| - 1], x)
      modifies this`cycles
      ensures Valid() && cycles == old(cycles) + [x]
      ensures Settled(x) && forall n :: old(Settled(n)) ==> Settled(n)
    {
      BackEdgeClosesCycle(edges, path, x);
      DescendsMonotone(edges, rank, cycles, cycles + [x]);
      cycles := cycles + [x];
    }

    method Enter(x: Name)
      requires Valid() && x !in seen
      requires path != [] ==> Edge(edges, path[|path| - 1], x)
      modifies this`seen, this`active, this`path
      ensures x in edges ==> Valid()
      ensures seen == old(seen) + {x} && path == old(path) + [x]
    {
      PathExtends(edges, path, x);
      seen, active := seen + {x}, active + {x};
      path := path + [x];
    }

    /** The inner loop of `visit`, over the prerequisites of the batch just entered. */
    method VisitPrerequisites(x: Name) returns (ok: bool)
      requires Valid() && x in edges && path != [] && path[|path| - 1] == x
      modifies this
      ensures old(seen) <= seen
      ensures ok ==> Valid() && path == old(path)
      ensures ok ==> forall n :: old(Settled(n)) ==> Settled(n)
      ensures ok ==> forall y :: y in edges[x] ==> Settled(y)
      ensures !ok ==> !Closed(edges)
      decreases edges.Keys - seen, 2
    {
      var i := 0;
      while i < |edges[x]|
        invariant 0 <= i <= |edges[x]|
        invariant Valid() && path == old(path)
        invariant old(seen) <= seen
        invariant forall n :: old(Settled(n)) ==> Settled(n)
        invariant forall j :: 0 <= j < i ==> Settled(edges[x][j])
      {
        assert Edge(edges, x, edges[x][i]);
        ok := Visit(edges[x][i]);
        if !ok {
          return false;
        }
        i := i + 1;
      }
      ok := true;
    }

    /** The end of `visit`: the batch leaves the active set. */
    method Leave(x: Name)
      requires Valid() && path != [] && path[|path| - 1] == x
      requires x in edges && forall y :: y in edges[x] ==> Settled(y)
      modifies this`active, this`path, this`rank, this`clock
      ensures Valid() && Settled(x) && forall n :: old(Settled(n)) ==> Settled(n)
      ensures path == old(path)[..|old(path)| - 1]
    {
      DescendsGrows(edges, rank, cycles, x, clock);
      active := active - {x};
      path := path[..|path| - 1];
      rank, clock := rank[x := clock], clock + 1;
      assert old(path) == path + [x];
    }
  }

  lemma PathExtends(g: Graph, path: seq<Name>, x: Name)
    requires Walk(g, path) && (path != [] ==> Edge(g, path[|path| - 1], x))
    ensures Walk(g, path + [x])
  {
  }

  /** The outer loop.  The batches are visited in some order (the program sorts
      the names). */
  method VisitAll(search: Search) returns (ok: bool)
    requires search.Valid() && search.path == []
    modifies search
    ensures ok ==> search.Valid() && search.path == []
    ensures ok ==> forall n :: n in search.edges ==> n in search.rank
    ensures ok <==> Closed(search.edges)
  {
    var waiting := search.edges.Keys;
    while waiting != {}
      invariant search.Valid() && search.path == []
      invariant waiting <= search.edges.Keys && search.edges.Keys - waiting <= search.seen
      decreases waiting
    {
      var x :| x in waiting;
      waiting := waiting - {x};
      ok := search.Visit(x);
      if !ok {
        return false;
      }
    }
    ok := true;
  }

  /** The search on a graph: the report meets every cycle, names only batches on
      cycles, and is therefore empty exactly when the graph is acyclic. */
  method Detect(g: Graph) returns (r: Outcome)
    ensures r.MissingEntry? <==> !Closed(g)
    ensures r.Reported? ==> HitsEveryCycle(g, r.names) && AllOnCycles(g, r.names)
    ensures r.Reported? ==> (r.names == {} <==> Acyclic(g))
  {
    var search := new Search(g);
    var ok := VisitAll(search);
    if !ok {
      return MissingEntry;
    }
    r := Reported(set n | n in search.cycles);
    EveryCycleHit(g, search.rank, search.cycles);
    ReportDecidesAcyclicity(g, r.names);
  }

  // ----- The plan itself -----------------------------------------------------------

  /** Batch `x` of the plan lists batch `y` of the plan among its prerequisites. */
  ghost predicate DependsOn(batches: map<Name, Batch>, x: Name, y: Name) {
    x in batches && batches[x].Batch? && y in batches[x].prerequisites && y in batches
  }

  /** A walk along prerequisites that ends where it began. */
  ghost predicate CircularWait(batches: map<Name, Batch>, p: seq<Name>) {
    |p| >= 2 && p[0] == p[|p| - 1] && forall i :: 0 <= i < |p| - 1 ==> DependsOn(batches, p[i], p[i + 1])
  }

  lemma EdgeIff(batches: map<Name, Batch>, x: Name, y: Name)
    ensures Edge(Edges(batches), x, y) <==> DependsOn(batches, x, y)
  {
  }

  lemma ClosedWalkIff(batches: map<Name, Batch>, p: seq<Name>)
    ensures ClosedWalk(Edges(batches), p) <==> CircularWait(batches, p)
  {
    forall i | 0 <= i < |p| - 1 ensures Edge(Edges(batches), p[i], p[i + 1]) <==> DependsOn(batches, p[i], p[i + 1]) {
      EdgeIff(batches, p[i], p[i + 1]);
    }
  }

  /** A batch lists an entry of the plan that is no batch. */
  ghost predicate ListsMalformed(batches: map<Name, Batch>) {
    exists x, y :: DependsOn(batches, x, y) && batches[y].NotAnObject?
  }

  ghost predicate WaitsForItself(batches: map<Name, Batch>, n: Name) {
    exists p :: CircularWait(batches, p) && p[0] == n
  }

  ghost predicate HitsEveryWait(batches: map<Name, Batch>, names: set<Name>) {
    forall p :: CircularWait(batches, p) ==> exists i :: 0 <= i < |p| && p[i] in names
  }

  ghost predicate NoWaits(batches: map<Name, Batch>) {
    forall p :: !CircularWait(batches, p)
  }

  lemma CycleIsWait(batches: map<Name, Batch>, n: Name)
    requires OnCycle(Edges(batches), n)
    ensures WaitsForItself(batches, n)
  {
    var p :| ClosedWalk(Edges(batches), p) && p[0] == n;
    ClosedWalkIff(batches, p);
  }

  lemma EveryWaitIsHit(batches: map<Name, Batch>, names: set<Name>)
    requires HitsEveryCycle(Edges(batches), names)
    ensures HitsEveryWait(batches, names)
  {
    forall p | CircularWait(batches, p) ensures exists i :: 0 <= i < |p| && p[i] in names {
      ClosedWalkIff(batches, p);
      assert Meets(p, names);
    }
  }

  lemma NothingReportedIff(batches: map<Name, Batch>, names: set<Name>)
    requires forall n :: n in names ==> WaitsForItself(batches, n)
    requires HitsEveryWait(batches, names)
    ensures names == {} <==> NoWaits(batches)
  {
  }

  lemma LookupFailsIff(batches: map<Name, Batch>)
    ensures !Closed(Edges(batches)) <==> ListsMalformed(batches)
  {
    forall x, y ensures Edge(Edges(batches), x, y) <==> DependsOn(batches, x, y) {
      EdgeIff(batches, x, y);
    }
  }

  lemma NamesWait(batches: map<Name, Batch>, names: set<Name>)
    requires AllOnCycles(Edges(batches), names)
    ensures forall n :: n in names ==> WaitsForItself(batches, n)
  {
    forall n | n in names ensures WaitsForItself(batches, n) {
      CycleIsWait(batches, n);
    }
  }

  /** What the search finds out about the graph, said of the plan. */
  lemma OutcomeIsAboutThePlan(batches: map<Name, Batch>, r: Outcome)
    requires r.MissingEntry? <==> !Closed(Edges(batches))
    requires r.Reported? ==> HitsEveryCycle(Edges(batches), r.names) && AllOnCycles(Edges(batches), r.names)
    ensures r.MissingEntry? <==> ListsMalformed(batches)
    ensures r.Reported? ==> forall n :: n in r.names ==> WaitsForItself(batches, n)
    ensures r.Reported? ==> HitsEveryWait(batches, r.names)
    ensures r.Reported? ==> (r.names == {} <==> NoWaits(batches))
  {
    LookupFailsIff(batches);
    if r.Reported? {
      NamesWait(batches, r.names);
      EveryWaitIsHit(batches, r.names);
      NothingReportedIff(batches, r.names);
    }
  }

  /** The detector on the plan's batches.  It fails exactly when a batch lists an entry of
      the plan that is no batch; otherwise each name reported lies on a circular wait,
      every circular wait has a reported name, and nothing is reported exactly when there
      is none. */
  method DependencyCycles(batches: map<Name, Batch>) returns (r: Outcome)
    ensures r.MissingEntry? <==> ListsMalformed(batches)
    ensures r.Reported? ==> forall n :: n in r.names ==> WaitsForItself(batches, n)
    ensures r.Reported? ==> HitsEveryWait(batches, r.names)
    ensures r.Reported? ==> (r.names == {} <==> NoWaits(batches))
  {
    r := Detect(Edges(batches));
    OutcomeIsAboutThePlan(batches, r);
  }
}
