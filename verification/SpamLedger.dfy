/** The SPAM reputation ledger: saved check results and the score they add up to.

    A batch of results is saved at most once per request token.  Every saved result
    moves the phone's score by a clamped amount; reaching the top score flags the
    phone. */
module SpamLedger {
  import opened Common

  type Id = nat

  datatype Source = Hiya | Named(text: string)
  datatype Verdict = Spam | Clear | Conflicting | Missing
  datatype Severity = ClearSeverity | Soft | Strong

  const TOP_SCORE := 5

  function Clamp(x: int): int {
    if x < 0 then 0 else if x > TOP_SCORE then TOP_SCORE else x
  }

  predicate AnyStrong(sources: seq<Source>) {
    exists i :: 0 <= i < |sources| && sources[i] != Hiya
  }

  /** Effective delta, new score and severity of one result. */
  function ScoreChange(score: int, verdict: Verdict, sources: seq<Source>): (int, int, Severity) {
    var before := Clamp(score);
    if verdict == Clear then
      var after := Clamp(before - 1);
      (after - before, after, ClearSeverity)
    else
      var after := Clamp(before + (if AnyStrong(sources) then 2 else 1));
      (after - before, after, if AnyStrong(sources) then Strong else Soft)
  }

  // ----- Tables ---------------------------------------------------------------------------

  datatype Batch = Batch(token: string, requested: nat)

  /** `routes` are those under which a result is filed. */
  datatype Row = Row(batch: nat, phone: Id, verdict: Verdict, sources: seq<Source>, routes: seq<Id>, severity: Severity,
                     before: int, delta: int, after: int)

  datatype Phone = Phone(number: string, problematic: bool, review: bool)

  /** `links` are the active route links, as pairs of route and phone. */
  datatype Tables = Tables(phones: seq<Phone>, routes: set<Id>, links: set<(Id, Id)>,
                           batches: seq<Batch>, results: seq<Row>, scores: map<Id, int>)

  datatype Submitted = Submitted(number: string, ready: bool, verdict: Verdict, sources: seq<Source>)

  datatype Request = Request(token: string, expected: seq<string>, results: seq<Submitted>,
                             routes: map<string, seq<Id>>)

  function FindPhone(phones: seq<Phone>, number: string): (r: Option<Id>)
    ensures r.Some? ==> r.value < |phones| && phones[r.value].number == number
    ensures r.None? ==> forall i :: 0 <= i < |phones| ==> phones[i].number != number
  {
    if phones == [] then None
    else if phones[|phones| - 1].number == number then Some(|phones| - 1)
    else FindPhone(phones[..|phones| - 1], number)
  }

  function RoutesFor(req: Request, number: string): seq<Id> {
    if number in req.routes then req.routes[number] else []
  }

  /** A result counts when its number was asked for and is known, it is a ready
      verdict, and every route it is filed under still has the number. */
  predicate Countable(t: Tables, req: Request, r: Submitted) {
    && r.number in req.expected && FindPhone(t.phones, r.number).Some?
    && r.ready && (r.verdict == Spam || r.verdict == Clear)
    && forall k :: 0 <= k < |RoutesFor(req, r.number)| ==>
         RouteHolds(t, RoutesFor(req, r.number)[k], FindPhone(t.phones, r.number).value)
  }

  predicate RouteHolds(t: Tables, route: Id, phone: Id) {
    route in t.routes && (route, phone) in t.links
  }

  /** A countable result with the phone it is about and the routes it is filed under. */
  datatype Hit = Hit(phone: Id, verdict: Verdict, sources: seq<Source>, routes: seq<Id>)

  function HitOf(t: Tables, req: Request, r: Submitted): Hit
    requires FindPhone(t.phones, r.number).Some?
  {
    Hit(FindPhone(t.phones, r.number).value, r.verdict, r.sources, RoutesFor(req, r.number))
  }

  function Hits(t: Tables, req: Request, results: seq<Submitted>): seq<Hit> {
    if results == [] then []
    else
      var n := |results| - 1;
      var r := results[n];
      Hits(t, req, results[..n]) +
      (if Countable(t, req, r) then [HitOf(t, req, r)] else [])
  }

  predicate DistinctPhones(hits: seq<Hit>) {
    forall i, j :: 0 <= i < j < |hits| ==> hits[i].phone != hits[j].phone
  }

  /** The unique keys of the ledger: one row per batch and phone, and a row is filed under
      a route once. */
  predicate Fileable(hits: seq<Hit>) {
    DistinctPhones(hits) && forall i :: 0 <= i < |hits| ==> NoRepeats(hits[i].routes)
  }

  function ScoreOf(scores: map<Id, int>, phone: Id): int {
    if phone in scores then scores[phone] else 0
  }

  function RowFor(t: Tables, batch: nat, h: Hit): Row {
    var before := ScoreOf(t.scores, h.phone);
    var change := ScoreChange(before, h.verdict, h.sources);
    Row(batch, h.phone, h.verdict, h.sources, h.routes, change.2, before, change.0, change.1)
  }

  /** One hit saved: a ledger row, the new score, and on reaching the top the flags. */
  function AfterHit(t: Tables, batch: nat, h: Hit): Tables {
    var row := RowFor(t, batch, h);
    t.(results := t.results + [row],
       scores := t.scores[h.phone := row.after],
       phones := if row.before < TOP_SCORE && row.after == TOP_SCORE && h.phone < |t.phones|
                 then t.phones[h.phone := t.phones[h.phone].(problematic := true, review := true)]
                 else t.phones)
  }

  function AfterHits(t: Tables, batch: nat, hits: seq<Hit>): Tables {
    if hits == [] then t else AfterHit(AfterHits(t, batch, hits[..|hits| - 1]), batch, hits[|hits| - 1])
  }

  function TokenBatch(batches: seq<Batch>, token: string): (r: Option<nat>)
    ensures r.Some? ==> r.value < |batches| && batches[r.value].token == token
    ensures r.None? ==> forall i :: 0 <= i < |batches| ==> batches[i].token != token
  {
    if batches == [] then None
    else if batches[|batches| - 1].token == token then Some(|batches| - 1)
    else TokenBatch(batches[..|batches| - 1], token)
  }

  /** A new batch is saved when something counts and the ledger's keys allow it. */
  predicate Savable(t: Tables, req: Request) {
    TokenBatch(t.batches, req.token).None? && Hits(t, req, req.results) != []
    && Fileable(Hits(t, req, req.results))
  }

  function AfterSave(t: Tables, req: Request): Tables {
    if Savable(t, req) then
      AfterHits(t.(batches := t.batches + [Batch(req.token, |req.expected|)]), |t.batches|, Hits(t, req, req.results))
    else t
  }

  function RowsInBatch(results: seq<Row>, batch: nat): nat {
    if results == [] then 0
    else RowsInBatch(results[..|results| - 1], batch) + (if results[|results| - 1].batch == batch then 1 else 0)
  }

  datatype Reply = Saved(batch: nat, saved: nat) | AlreadySaved(batch: nat, saved: nat, requested: nat) | Rejected

  function ReplyTo(t: Tables, req: Request): Reply {
    var prior := TokenBatch(t.batches, req.token);
    if prior.Some? then AlreadySaved(prior.value, RowsInBatch(t.results, prior.value), t.batches[prior.value].requested)
    else if Savable(t, req) then Saved(|t.batches|, |Hits(t, req, req.results)|)
    else Rejected
  }

  // ----- Calls and runs ------------------------------------------------------------------------

  /** Besides saving, phones, routes and links change in any way that keeps ids. */
  datatype Call = Save(request: Request) | EditPhones(phones: seq<Phone>, routes: set<Id>, links: set<(Id, Id)>)

  function Step(t: Tables, call: Call): Tables {
    match call
    case Save(req) => AfterSave(t, req)
    case EditPhones(phones, routes, links) =>
      if |phones| >= |t.phones| then t.(phones := phones, routes := routes, links := links) else t
  }

  function Run(t: Tables, calls: seq<Call>): Tables {
    if calls == [] then t else Step(Run(t, calls[..|calls| - 1]), calls[|calls| - 1])
  }

  const EMPTY := Tables([], {}, {}, [], [], map[])

  // ----- The score is the fold of the saved results ------------------------------------------------

  /** The phone's score after its saved results, starting from `start`. */
  function Replay(results: seq<Row>, phone: Id, start: int): int {
    if results == [] then start
    else
      var r := results[|results| - 1];
      var before := Replay(results[..|results| - 1], phone, start);
      if r.phone == phone then ScoreChange(before, r.verdict, r.sources).1 else before
  }

  /** A row records the score it found, and the change made to it. */
  ghost predicate RowOk(results: seq<Row>, i: nat)
    requires i < |results|
  {
    var r := results[i];
    && r.before == Replay(results[..i], r.phone, 0)
    && (r.delta, r.after, r.severity) == ScoreChange(r.before, r.verdict, r.sources)
    && (r.verdict == Spam || r.verdict == Clear)
  }

  ghost predicate ScoresOk(t: Tables) {
    forall p :: ScoreOf(t.scores, p) == Replay(t.results, p, 0)
  }

  ghost predicate BatchesOk(t: Tables) {
    && (forall i :: 0 <= i < |t.results| ==> t.results[i].batch < |t.batches|)
    && (forall i, j :: 0 <= i < j < |t.batches| ==> t.batches[i].token != t.batches[j].token)
  }

  ghost predicate Inv(t: Tables) {
    && (forall i :: 0 <= i < |t.results| ==> RowOk(t.results, i))
    && ScoresOk(t) && BatchesOk(t)
  }

  lemma RowsGrow(results: seq<Row>, r: Row)
    requires forall i :: 0 <= i < |results| ==> RowOk(results, i)
    requires RowOk(results + [r], |results|)
    ensures forall i :: 0 <= i < |results| + 1 ==> RowOk(results + [r], i)
  {
    forall i | 0 <= i < |results| ensures RowOk(results + [r], i) {
      assert RowOk(results, i);
      assert (results + [r])[..i] == results[..i];
    }
  }

  lemma HitKeepsInv(t: Tables, batch: nat, h: Hit)
    requires Inv(t) && batch < |t.batches| && (h.verdict == Spam || h.verdict == Clear)
    ensures Inv(AfterHit(t, batch, h))
  {
    var row := RowFor(t, batch, h);
    assert (t.results + [row])[..|t.results|] == t.results;
    assert ScoreOf(t.scores, h.phone) == Replay(t.results, h.phone, 0);
    RowsGrow(t.results, row);
    forall p ensures ScoreOf(AfterHit(t, batch, h).scores, p) == Replay(t.results + [row], p, 0) {
      assert ScoreOf(t.scores, p) == Replay(t.results, p, 0);
    }
  }

  lemma {:induction false} HitsAreVerdicts(t: Tables, req: Request, results: seq<Submitted>)
    ensures forall i :: 0 <= i < |Hits(t, req, results)| ==>
              (Hits(t, req, results)[i].verdict == Spam || Hits(t, req, results)[i].verdict == Clear)
              && Hits(t, req, results)[i].phone < |t.phones|
  {
    if results != [] {
      HitsAreVerdicts(t, req, results[..|results| - 1]);
    }
  }

  lemma {:induction false} HitsKeepInv(t: Tables, batch: nat, hits: seq<Hit>)
    requires Inv(t) && batch < |t.batches|
    requires forall i :: 0 <= i < |hits| ==> hits[i].verdict == Spam || hits[i].verdict == Clear
    ensures Inv(AfterHits(t, batch, hits)) && AfterHits(t, batch, hits).batches == t.batches
  {
    if hits != [] {
      HitsKeepInv(t, batch, hits[..|hits| - 1]);
      HitKeepsInv(AfterHits(t, batch, hits[..|hits| - 1]), batch, hits[|hits| - 1]);
    }
  }

  lemma StepKeepsInv(t: Tables, call: Call)
    requires Inv(t)
    ensures Inv(Step(t, call))
  {
    match call {
      case Save(req) =>
        if Savable(t, req) {
          var begun := t.(batches := t.batches + [Batch(req.token, |req.expected|)]);
          assert Inv(begun);
          HitsAreVerdicts(t, req, req.results);
          HitsKeepInv(begun, |t.batches|, Hits(t, req, req.results));
        }
      case EditPhones(_, _, _) =>
    }
  }

  /** In every reachable state a phone's stored score is the fold of its saved results
      from zero, and every row records the score it found. */
  lemma {:induction false} ScoreIsFoldOfResults(calls: seq<Call>)
    ensures Inv(Run(EMPTY, calls))
  {
    if calls != [] {
      ScoreIsFoldOfResults(calls[..|calls| - 1]);
      StepKeepsInv(Run(EMPTY, calls[..|calls| - 1]), calls[|calls| - 1]);
    }
  }

  // ----- Properties of the fold -----------------------------------------------------------------------

  lemma {:induction false} ReplayInRange(results: seq<Row>, phone: Id)
    ensures 0 <= Replay(results, phone, 0) <= TOP_SCORE
  {
    if results != [] {
      ReplayInRange(results[..|results| - 1], phone);
    }
  }

  /** Starting higher never ends lower, and never ends further apart than it started. */
  lemma {:induction false} ReplayMonotoneNonExpansive(results: seq<Row>, phone: Id, low: int, high: int)
    requires low <= high
    ensures Replay(results, phone, low) <= Replay(results, phone, high)
    ensures Replay(results, phone, high) - Replay(results, phone, low) <= high - low
  {
    if results != [] {
      ReplayMonotoneNonExpansive(results[..|results| - 1], phone, low, high);
    }
  }

  function DeltaSum(results: seq<Row>, phone: Id): int {
    if results == [] then 0
    else
      var r := results[|results| - 1];
      DeltaSum(results[..|results| - 1], phone) + (if r.phone == phone then r.delta else 0)
  }

  lemma {:induction false} DeltasAddUp(results: seq<Row>, phone: Id)
    requires forall i :: 0 <= i < |results| ==> RowOk(results, i)
    ensures DeltaSum(results, phone) == Replay(results, phone, 0)
  {
    if results != [] {
      var n := |results| - 1;
      assert forall i :: 0 <= i < n ==> results[..n][..i] == results[..i];
      forall i | 0 <= i < n ensures RowOk(results[..n], i) {
        assert RowOk(results, i);
      }
      DeltasAddUp(results[..n], phone);
      assert RowOk(results, n);
      ReplayInRange(results[..n], phone);
    }
  }

  /** The recorded deltas of a phone telescope to its stored score, which stays
      between zero and the top. */
  lemma DeltasTelescope(t: Tables, phone: Id)
    requires Inv(t)
    ensures DeltaSum(t.results, phone) == ScoreOf(t.scores, phone)
    ensures 0 <= ScoreOf(t.scores, phone) <= TOP_SCORE
  {
    DeltasAddUp(t.results, phone);
    ReplayInRange(t.results, phone);
    assert ScoreOf(t.scores, phone) == Replay(t.results, phone, 0);
  }

  lemma {:induction false} ReplaySkipsOthers(results: seq<Row>, i: nat, j: nat)
    requires i < j <= |results| && RowOk(results, i)
    requires forall k :: i < k < j ==> results[k].phone != results[i].phone
    ensures Replay(results[..j], results[i].phone, 0) == results[i].after
  {
    assert results[..j][..j - 1] == results[..j - 1];
    if i + 1 < j {
      ReplaySkipsOthers(results, i, j - 1);
    }
  }

  /** Consecutive results of a phone chain: each starts where the last one ended. */
  lemma ConsecutiveResultsChain(t: Tables, i: nat, j: nat)
    requires Inv(t) && i < j < |t.results| && t.results[i].phone == t.results[j].phone
    requires forall k :: i < k < j ==> t.results[k].phone != t.results[i].phone
    ensures t.results[j].before == t.results[i].after
  {
    assert RowOk(t.results, i) && RowOk(t.results, j);
    ReplaySkipsOthers(t.results, i, j);
  }

  // ----- Reaching the top --------------------------------------------------------------------------------

  predicate Flagged(p: Phone) {
    p.problematic && p.review
  }

  /** A batch only raises flags, adds one row per hit, and leaves flagged every phone
      that one of its rows brought to the top score. */
  lemma {:induction false} CrossingsAreFlagged(t: Tables, batch: nat, hits: seq<Hit>)
    requires forall i :: 0 <= i < |hits| ==> hits[i].phone < |t.phones|
    ensures var after := AfterHits(t, batch, hits);
            && |after.phones| == |t.phones| && |after.results| == |t.results| + |hits| && t.results <= after.results
            && (forall p :: 0 <= p < |t.phones| ==> after.phones[p] == t.phones[p] || Flagged(after.phones[p]))
            && (forall i :: |t.results| <= i < |after.results|
                  && after.results[i].before < TOP_SCORE && after.results[i].after == TOP_SCORE
                  ==> after.results[i].phone < |t.phones| && Flagged(after.phones[after.results[i].phone]))
  {
    if hits != [] {
      CrossingsAreFlagged(t, batch, hits[..|hits| - 1]);
    }
  }

  lemma SaveFlagsCrossings(t: Tables, req: Request, i: nat)
    requires |t.results| <= i < |AfterSave(t, req).results|
    requires AfterSave(t, req).results[i].before < TOP_SCORE && AfterSave(t, req).results[i].after == TOP_SCORE
    ensures var after := AfterSave(t, req);
            after.results[i].phone < |after.phones| && Flagged(after.phones[after.results[i].phone])
  {
    HitsAreVerdicts(t, req, req.results);
    CrossingsAreFlagged(t.(batches := t.batches + [Batch(req.token, |req.expected|)]), |t.batches|,
                        Hits(t, req, req.results));
  }

  // ----- Idempotence ---------------------------------------------------------------------------------------

  lemma {:induction false} OwnRowsCounted(t: Tables, batch: nat, hits: seq<Hit>, b: nat)
    ensures RowsInBatch(AfterHits(t, batch, hits).results, b) ==
            RowsInBatch(t.results, b) + (if b == batch then |hits| else 0)
    ensures AfterHits(t, batch, hits).batches == t.batches
  {
    if hits != [] {
      var before := AfterHits(t, batch, hits[..|hits| - 1]);
      OwnRowsCounted(t, batch, hits[..|hits| - 1], b);
      assert (before.results + [RowFor(before, batch, hits[|hits| - 1])])[..|before.results|] == before.results;
    }
  }

  lemma {:induction false} NoRowsYet(results: seq<Row>, batch: nat)
    requires forall i :: 0 <= i < |results| ==> results[i].batch < batch
    ensures RowsInBatch(results, batch) == 0
  {
    if results != [] {
      NoRowsYet(results[..|results| - 1], batch);
    }
  }

  /** The batch saved under a token, with its number of rows, is fixed from then on. */
  ghost predicate Remembers(t: Tables, token: string, batch: nat, saved: nat, requested: nat) {
    && batch < |t.batches| && t.batches[batch] == Batch(token, requested)
    && RowsInBatch(t.results, batch) == saved
  }

  lemma SaveIsRemembered(t: Tables, req: Request)
    requires Inv(t) && ReplyTo(t, req).Saved?
    ensures Remembers(AfterSave(t, req), req.token, ReplyTo(t, req).batch, ReplyTo(t, req).saved, |req.expected|)
  {
    OwnRowsCounted(t.(batches := t.batches + [Batch(req.token, |req.expected|)]), |t.batches|,
                   Hits(t, req, req.results), |t.batches|);
    NoRowsYet(t.results, |t.batches|);
  }

  lemma StepKeepsMemory(t: Tables, call: Call, token: string, batch: nat, saved: nat, requested: nat)
    requires Remembers(t, token, batch, saved, requested)
    ensures Remembers(Step(t, call), token, batch, saved, requested)
  {
    match call {
      case Save(req) =>
        if Savable(t, req) {
          OwnRowsCounted(t.(batches := t.batches + [Batch(req.token, |req.expected|)]), |t.batches|,
                         Hits(t, req, req.results), batch);
        }
      case EditPhones(_, _, _) =>
    }
  }

  lemma {:induction false} RunKeepsMemory(t: Tables, calls: seq<Call>, token: string,
                                          batch: nat, saved: nat, requested: nat)
    requires Remembers(t, token, batch, saved, requested) && Inv(t)
    ensures Remembers(Run(t, calls), token, batch, saved, requested) && Inv(Run(t, calls))
  {
    if calls != [] {
      var n := |calls| - 1;
      RunKeepsMemory(t, calls[..n], token, batch, saved, requested);
      StepKeepsMemory(Run(t, calls[..n]), calls[n], token, batch, saved, requested);
      StepKeepsInv(Run(t, calls[..n]), calls[n]);
    }
  }

  /** A token repeated after any number of other calls, with whatever contents,
      changes nothing and is answered with the batch and count of its first save. */
  lemma RepeatedTokenChangesNothing(t: Tables, first: Request, calls: seq<Call>, again: Request)
    requires Inv(t) && ReplyTo(t, first).Saved? && again.token == first.token
    ensures var later := Run(AfterSave(t, first), calls);
            && AfterSave(later, again) == later
            && ReplyTo(later, again) == AlreadySaved(ReplyTo(t, first).batch, ReplyTo(t, first).saved, |first.expected|)
  {
    var r := ReplyTo(t, first);
    SaveIsRemembered(t, first);
    StepKeepsInv(t, Save(first));
    RunKeepsMemory(AfterSave(t, first), calls, first.token, r.batch, r.saved, |first.expected|);
    OneBatchPerToken(Run(AfterSave(t, first), calls), first.token, r.batch);
  }

  lemma OneBatchPerToken(t: Tables, token: string, batch: nat)
    requires BatchesOk(t) && batch < |t.batches| && t.batches[batch].token == token
    ensures TokenBatch(t.batches, token) == Some(batch)
  {
  }
}
