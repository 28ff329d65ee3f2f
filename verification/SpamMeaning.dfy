/** What saving a batch of SPAM results is for, said of the request and of the tables before
    and after it. */
module SpamMeaning {
  import opened Common
  import opened SpamLedger

  // ----- One result -------------------------------------------------------------------------

  /** The score runs from zero to five: a clear result takes one off, a report by Hiya alone
      adds one, and a report by any other source adds two. */
  predicate ScoreMoved(before: int, verdict: Verdict, sources: seq<Source>, delta: int, after: int,
                       severity: Severity)
  {
    var start := if before < 0 then 0 else if before > 5 then 5 else before;
    var strong := exists s :: s in sources && s != Hiya;
    && delta == after - start
    && (verdict == Clear ==> severity == ClearSeverity && after == if start == 0 then 0 else start - 1)
    && (verdict != Clear && !strong ==> severity == Soft && after == if start == 5 then 5 else start + 1)
    && (verdict != Clear && strong ==> severity == Strong && after == if start >= 3 then 5 else start + 2)
  }

  lemma ScoreChangeMeans(score: int, verdict: Verdict, sources: seq<Source>)
    ensures var change := ScoreChange(score, verdict, sources);
            ScoreMoved(score, verdict, sources, change.0, change.1, change.2)
  {
    if AnyStrong(sources) {
      var i :| 0 <= i < |sources| && sources[i] != Hiya;
      assert sources[i] in sources;
    }
  }

  predicate PhoneWith(phones: seq<Phone>, number: string, p: Id) {
    && p < |phones| && phones[p].number == number
    && forall q :: p < q < |phones| ==> phones[q].number != number
  }

  /** The routes under which the request files a number. */
  predicate FiledUnder(req: Request, number: string, routes: seq<Id>) {
    (number in req.routes ==> routes == req.routes[number]) && (number !in req.routes ==> routes == [])
  }

  /** A result counts, for a phone: its number was asked for and is the phone's, it is a ready
      verdict, and the phone is linked to every route it is to be filed under. */
  predicate Counts(t: Tables, req: Request, r: Submitted, p: Id) {
    && r.number in req.expected && PhoneWith(t.phones, r.number, p)
    && r.ready && (r.verdict == Spam || r.verdict == Clear)
    && (r.number in req.routes ==>
          forall route :: route in req.routes[r.number] ==> route in t.routes && (route, p) in t.links)
  }

  lemma CountableIff(t: Tables, req: Request, r: Submitted)
    ensures Countable(t, req, r) ==> Counts(t, req, r, HitOf(t, req, r).phone)
    ensures forall p: Id :: Counts(t, req, r, p) ==> Countable(t, req, r) && HitOf(t, req, r).phone == p
  {
    PhoneIsFound(t.phones, r.number);
    if Countable(t, req, r) && r.number in req.routes {
      var p := HitOf(t, req, r).phone;
      forall route | route in req.routes[r.number] ensures route in t.routes && (route, p) in t.links {
        var k :| 0 <= k < |req.routes[r.number]| && req.routes[r.number][k] == route;
        assert RouteHolds(t, RoutesFor(req, r.number)[k], p);
      }
    }
  }

  lemma {:induction false} PhoneIsFound(phones: seq<Phone>, number: string)
    ensures FindPhone(phones, number).Some? ==> PhoneWith(phones, number, FindPhone(phones, number).value)
    ensures forall p: Id :: PhoneWith(phones, number, p) ==> FindPhone(phones, number) == Some(p)
  {
    if phones != [] && phones[|phones| - 1].number != number {
      var earlier := phones[..|phones| - 1];
      PhoneIsFound(earlier, number);
      forall p: Id | PhoneWith(phones, number, p) ensures FindPhone(phones, number) == Some(p) {
        assert PhoneWith(earlier, number, p);
      }
    }
  }

  // ----- The results that count ---------------------------------------------------------------

  /** The positions of the results that count, in order, each with its phone. */
  ghost predicate Picks(t: Tables, req: Request, results: seq<Submitted>, picked: seq<(nat, Id)>) {
    && (forall j, k :: 0 <= j < k < |picked| ==> picked[j].0 < picked[k].0)
    && (forall k :: 0 <= k < |picked| ==>
          picked[k].0 < |results| && Counts(t, req, results[picked[k].0], picked[k].1))
    && (forall i: nat, p: Id :: i < |results| && Counts(t, req, results[i], p) ==> (i, p) in picked)
  }

  predicate HitIs(req: Request, r: Submitted, p: Id, h: Hit) {
    h.phone == p && h.verdict == r.verdict && h.sources == r.sources && FiledUnder(req, r.number, h.routes)
  }

  ghost predicate HitsAre(req: Request, results: seq<Submitted>, picked: seq<(nat, Id)>, hits: seq<Hit>) {
    && |hits| == |picked|
    && forall k :: 0 <= k < |picked| ==>
         picked[k].0 < |results| && HitIs(req, results[picked[k].0], picked[k].1, hits[k])
  }

  /** One more result that does not count. */
  lemma PickNone(t: Tables, req: Request, results: seq<Submitted>, n: nat, earlier: seq<(nat, Id)>)
    requires n + 1 == |results| && Picks(t, req, results[..n], earlier)
    requires forall p: Id :: !Counts(t, req, results[n], p)
    ensures Picks(t, req, results, earlier)
  {
    forall i: nat, p: Id | i < |results| && Counts(t, req, results[i], p) ensures (i, p) in earlier {
      assert results[..n][i] == results[i];
    }
  }

  /** One more result that counts, for one phone. */
  lemma PickOne(t: Tables, req: Request, results: seq<Submitted>, n: nat, earlier: seq<(nat, Id)>, q: Id)
    requires n + 1 == |results| && Picks(t, req, results[..n], earlier)
    requires forall p: Id :: Counts(t, req, results[n], p) <==> p == q
    ensures Picks(t, req, results, earlier + [(n, q)])
  {
    var picked := earlier + [(n, q)];
    assert picked[|earlier|] == (n, q);
    forall i: nat, p: Id | i < |results| && Counts(t, req, results[i], p) ensures (i, p) in picked {
      if i < n {
        assert results[..n][i] == results[i];
        assert (i, p) in earlier;
      }
    }
  }

  lemma PickNext(t: Tables, req: Request, results: seq<Submitted>, n: nat, earlier: seq<(nat, Id)>)
    requires n + 1 == |results| && Picks(t, req, results[..n], earlier)
    ensures Countable(t, req, results[n]) ==>
              Picks(t, req, results, earlier + [(n, HitOf(t, req, results[n]).phone)])
    ensures !Countable(t, req, results[n]) ==> Picks(t, req, results, earlier)
  {
    CountableIff(t, req, results[n]);
    if Countable(t, req, results[n]) {
      PickOne(t, req, results, n, earlier, HitOf(t, req, results[n]).phone);
    } else {
      PickNone(t, req, results, n, earlier);
    }
  }

  lemma HitNext(t: Tables, req: Request, results: seq<Submitted>, n: nat, picked: seq<(nat, Id)>, hits: seq<Hit>)
    requires n + 1 == |results| && HitsAre(req, results[..n], picked, hits)
    ensures HitsAre(req, results, picked, hits)
    ensures Countable(t, req, results[n]) ==>
              var h := HitOf(t, req, results[n]); HitsAre(req, results, picked + [(n, h.phone)], hits + [h])
  {
  }

  /** These are the results that count, and the hits made of them. */
  ghost predicate PickedFor(t: Tables, req: Request, results: seq<Submitted>, picked: seq<(nat, Id)>, hits: seq<Hit>) {
    Picks(t, req, results, picked) && HitsAre(req, results, picked, hits)
  }

  lemma NothingPicked(t: Tables, req: Request)
    ensures PickedFor(t, req, [], [], [])
  {
  }

  lemma PickedNext(t: Tables, req: Request, results: seq<Submitted>, earlier: seq<(nat, Id)>, hits: seq<Hit>)
    returns (picked: seq<(nat, Id)>)
    requires results != [] && PickedFor(t, req, results[..|results| - 1], earlier, hits)
    ensures var r := results[|results| - 1];
            && (Countable(t, req, r) ==> PickedFor(t, req, results, picked, hits + [HitOf(t, req, r)]))
            && (!Countable(t, req, r) ==> PickedFor(t, req, results, picked, hits))
  {
    var n := |results| - 1;
    PickNext(t, req, results, n, earlier);
    HitNext(t, req, results, n, earlier, hits);
    if Countable(t, req, results[n]) {
      picked := earlier + [(n, HitOf(t, req, results[n]).phone)];
      assert Picks(t, req, results, picked);
      assert HitsAre(req, results, picked, hits + [HitOf(t, req, results[n])]);
    } else {
      picked := earlier;
      assert Picks(t, req, results, picked);
      assert HitsAre(req, results, picked, hits);
    }
  }

  lemma HitsNext(t: Tables, req: Request, results: seq<Submitted>)
    requires results != []
    ensures var r := results[|results| - 1]; var earlier := Hits(t, req, results[..|results| - 1]);
            && (Countable(t, req, r) ==> Hits(t, req, results) == earlier + [HitOf(t, req, r)])
            && (!Countable(t, req, r) ==> Hits(t, req, results) == earlier)
  {
  }

  lemma {:induction false} HitsArePicked(t: Tables, req: Request, results: seq<Submitted>)
    returns (picked: seq<(nat, Id)>)
    ensures PickedFor(t, req, results, picked, Hits(t, req, results))
  {
    if results == [] {
      picked := [];
      NothingPicked(t, req);
    } else {
      var n := |results| - 1;
      var earlier := HitsArePicked(t, req, results[..n]);
      HitsNext(t, req, results);
      picked := PickedNext(t, req, results, earlier, Hits(t, req, results[..n]));
    }
  }

  // ----- When a batch is saved --------------------------------------------------------------------

  /** Something counts, no phone has two results that count, and none is to be filed under
      the same route twice. */
  ghost predicate MaySave(t: Tables, req: Request) {
    && (exists i: nat, p: Id :: i < |req.results| && Counts(t, req, req.results[i], p))
    && (forall i: nat, j: nat, p: Id :: i < j < |req.results| && Counts(t, req, req.results[i], p) ==>
          !Counts(t, req, req.results[j], p))
    && (forall i: nat, p: Id :: i < |req.results| && Counts(t, req, req.results[i], p) ==>
          req.results[i].number in req.routes ==> NoRepeats(req.routes[req.results[i].number]))
  }

  ghost predicate NewToken(t: Tables, token: string) {
    forall i :: 0 <= i < |t.batches| ==> t.batches[i].token != token
  }

  /** Two results that count for the same phone make two hits of it. */
  lemma TwoPicks(t: Tables, req: Request, picked: seq<(nat, Id)>, hits: seq<Hit>, i: nat, j: nat, p: Id)
    requires Picks(t, req, req.results, picked) && HitsAre(req, req.results, picked, hits)
    requires i < j < |req.results| && Counts(t, req, req.results[i], p)
    ensures Counts(t, req, req.results[j], p) ==> !DistinctPhones(hits)
  {
    if Counts(t, req, req.results[j], p) {
      var k :| 0 <= k < |picked| && picked[k] == (i, p);
      var l :| 0 <= l < |picked| && picked[l] == (j, p);
      assert hits[k].phone == hits[l].phone == p && k != l;
    }
  }

  lemma PickedMaySave(t: Tables, req: Request, picked: seq<(nat, Id)>, hits: seq<Hit>)
    requires Picks(t, req, req.results, picked) && HitsAre(req, req.results, picked, hits)
    requires hits != [] && Fileable(hits)
    ensures MaySave(t, req)
  {
    assert Counts(t, req, req.results[picked[0].0], picked[0].1);
    forall i: nat, j: nat, p: Id | i < j < |req.results| && Counts(t, req, req.results[i], p)
      ensures !Counts(t, req, req.results[j], p)
    {
      TwoPicks(t, req, picked, hits, i, j, p);
    }
    forall i: nat, p: Id | i < |req.results| && Counts(t, req, req.results[i], p) && req.results[i].number in req.routes
      ensures NoRepeats(req.routes[req.results[i].number])
    {
      var k :| 0 <= k < |picked| && picked[k] == (i, p);
      assert HitIs(req, req.results[i], p, hits[k]) && NoRepeats(hits[k].routes);
    }
  }

  lemma SaverFits(t: Tables, req: Request, picked: seq<(nat, Id)>, hits: seq<Hit>)
    requires Picks(t, req, req.results, picked) && HitsAre(req, req.results, picked, hits)
    requires MaySave(t, req)
    ensures hits != [] && Fileable(hits)
  {
    var i: nat, p: Id :| i < |req.results| && Counts(t, req, req.results[i], p);
    assert (i, p) in picked;
    forall k, l | 0 <= k < l < |hits| ensures hits[k].phone != hits[l].phone {
      assert Counts(t, req, req.results[picked[k].0], picked[k].1);
      assert Counts(t, req, req.results[picked[l].0], picked[l].1);
    }
    forall k | 0 <= k < |hits| ensures NoRepeats(hits[k].routes) {
      assert Counts(t, req, req.results[picked[k].0], picked[k].1);
      assert HitIs(req, req.results[picked[k].0], picked[k].1, hits[k]);
    }
  }

  lemma SavableIff(t: Tables, req: Request)
    ensures Savable(t, req) <==> NewToken(t, req.token) && MaySave(t, req)
  {
    var picked := HitsArePicked(t, req, req.results);
    var hits := Hits(t, req, req.results);
    if hits != [] && Fileable(hits) {
      PickedMaySave(t, req, picked, hits);
    }
    if MaySave(t, req) {
      SaverFits(t, req, picked, hits);
    }
  }

  // ----- What a saved batch leaves -----------------------------------------------------------------

  /** The row of a result: what it says, the score it found when the batch began, and the
      score it led to. */
  ghost predicate RowSays(t: Tables, req: Request, r: Submitted, p: Id, row: Row) {
    && row.batch == |t.batches| && row.phone == p && row.verdict == r.verdict && row.sources == r.sources
    && FiledUnder(req, r.number, row.routes)
    && row.before == (if p in t.scores then t.scores[p] else 0)
    && ScoreMoved(row.before, row.verdict, row.sources, row.delta, row.after, row.severity)
  }

  /** A phone that comes to the top score is flagged as a problem and for review. */
  predicate FlagsFollow(was: Phone, now: Phone, row: Row) {
    now == if row.before < 5 && row.after == 5 then Phone(was.number, true, true) else was
  }

  /** A row has been added for a phone, with the score and the flags that go with it. */
  predicate RowFollows(before: Tables, after: Tables, p: Id, row: Row) {
    && p in after.scores && after.scores[p] == row.after
    && p < |before.phones| == |after.phones| && FlagsFollow(before.phones[p], after.phones[p], row)
  }

  /** The score and the flags of a phone are as before. */
  predicate PhoneStays(before: Tables, after: Tables, p: Id) {
    && (p in after.scores <==> p in before.scores)
    && (p in before.scores ==> after.scores[p] == before.scores[p])
    && |after.phones| == |before.phones|
    && (p < |before.phones| ==> after.phones[p] == before.phones[p])
  }

  ghost predicate Untouched(picked: seq<(nat, Id)>, p: Id) {
    forall k :: 0 <= k < |picked| ==> picked[k].1 != p
  }

  /** One row for each result that counts, in order; the score and flags of their phones
      follow, those of all other phones stay. */
  ghost predicate RowsFollow(before: Tables, after: Tables, req: Request, picked: seq<(nat, Id)>) {
    var n := |before.results|;
    && |after.results| == n + |picked| && before.results <= after.results
    && (forall k :: 0 <= k < |picked| ==>
          && picked[k].0 < |req.results|
          && RowSays(before, req, req.results[picked[k].0], picked[k].1, after.results[n + k])
          && RowFollows(before, after, picked[k].1, after.results[n + k]))
    && (forall p: Id :: Untouched(picked, p) ==> PhoneStays(before, after, p))
  }

  /** A batch is added with its rows, and nothing else changes. */
  ghost predicate BatchSaved(before: Tables, after: Tables, req: Request) {
    && after.batches == before.batches + [Batch(req.token, |req.expected|)]
    && after.routes == before.routes && after.links == before.links
    && exists picked :: Picks(before, req, req.results, picked) && RowsFollow(before, after, req, picked)
  }

  ghost predicate NoHit(hits: seq<Hit>, p: Id) {
    forall k :: 0 <= k < |hits| ==> hits[k].phone != p
  }

  /** What filing the hits leaves, all read off the state in which the batch began. */
  ghost predicate HitsFiled(t: Tables, after: Tables, batch: nat, hits: seq<Hit>) {
    && |after.results| == |t.results| + |hits| && t.results <= after.results
    && after.batches == t.batches && after.routes == t.routes && after.links == t.links
    && (forall k :: 0 <= k < |hits| ==>
          after.results[|t.results| + k] == RowFor(t, batch, hits[k])
          && RowFollows(t, after, hits[k].phone, RowFor(t, batch, hits[k])))
    && (forall p: Id :: NoHit(hits, p) ==> PhoneStays(t, after, p))
  }

  lemma FileOwn(t: Tables, before: Tables, batch: nat, h: Hit)
    requires PhoneStays(t, before, h.phone) && h.phone < |t.phones|
    ensures RowFor(before, batch, h) == RowFor(t, batch, h)
    ensures RowFollows(t, AfterHit(before, batch, h), h.phone, RowFor(t, batch, h))
  {
  }

  lemma FileSparesOthers(t: Tables, before: Tables, batch: nat, h: Hit, p: Id)
    requires p != h.phone
    ensures PhoneStays(before, AfterHit(before, batch, h), p)
    ensures forall row :: RowFollows(t, before, p, row) ==> RowFollows(t, AfterHit(before, batch, h), p, row)
    ensures PhoneStays(t, before, p) ==> PhoneStays(t, AfterHit(before, batch, h), p)
  {
  }

  lemma FileNext(t: Tables, before: Tables, batch: nat, hits: seq<Hit>, n: nat)
    requires n < |hits| && HitsFiled(t, before, batch, hits[..n])
    requires hits[n].phone < |t.phones| && NoHit(hits[..n], hits[n].phone)
    ensures HitsFiled(t, AfterHit(before, batch, hits[n]), batch, hits[..n + 1])
  {
    var h := hits[n];
    var after := AfterHit(before, batch, h);
    var earlier, all := hits[..n], hits[..n + 1];
    FileOwn(t, before, batch, h);
    forall k | 0 <= k < n
      ensures after.results[|t.results| + k] == RowFor(t, batch, all[k])
              && RowFollows(t, after, all[k].phone, RowFor(t, batch, all[k]))
    {
      assert earlier[k] == all[k];
      FileSparesOthers(t, before, batch, h, all[k].phone);
    }
    forall p: Id | NoHit(all, p) ensures PhoneStays(t, after, p) {
      assert all[n].phone != p;
      assert forall k :: 0 <= k < n ==> earlier[k] == all[k];
      assert NoHit(earlier, p);
      FileSparesOthers(t, before, batch, h, p);
    }
  }

  lemma NothingFiled(t: Tables, batch: nat, hits: seq<Hit>)
    ensures HitsFiled(t, AfterHits(t, batch, hits[..0]), batch, hits[..0])
  {
  }

  lemma FiledOneMore(t: Tables, batch: nat, hits: seq<Hit>, n: nat)
    requires n < |hits| && DistinctPhones(hits)
    ensures AfterHits(t, batch, hits[..n + 1]) == AfterHit(AfterHits(t, batch, hits[..n]), batch, hits[n])
    ensures NoHit(hits[..n], hits[n].phone)
  {
    assert hits[..n + 1][..n] == hits[..n];
  }

  lemma StillFiled(t: Tables, batch: nat, hits: seq<Hit>, n: nat)
    requires n < |hits| && DistinctPhones(hits) && hits[n].phone < |t.phones|
    requires HitsFiled(t, AfterHits(t, batch, hits[..n]), batch, hits[..n])
    ensures HitsFiled(t, AfterHits(t, batch, hits[..n + 1]), batch, hits[..n + 1])
  {
    FiledOneMore(t, batch, hits, n);
    FileNext(t, AfterHits(t, batch, hits[..n]), batch, hits, n);
  }

  lemma {:induction false} HitsAreFiled(t: Tables, batch: nat, hits: seq<Hit>, n: nat)
    requires n <= |hits| && DistinctPhones(hits) && forall i :: 0 <= i < |hits| ==> hits[i].phone < |t.phones|
    ensures HitsFiled(t, AfterHits(t, batch, hits[..n]), batch, hits[..n])
  {
    if n == 0 {
      NothingFiled(t, batch, hits);
    } else {
      HitsAreFiled(t, batch, hits, n - 1);
      StillFiled(t, batch, hits, n - 1);
    }
  }

  lemma RowForSays(t: Tables, begun: Tables, req: Request, r: Submitted, p: Id, h: Hit)
    requires HitIs(req, r, p, h) && begun.scores == t.scores
    ensures RowSays(t, req, r, p, RowFor(begun, |t.batches|, h))
  {
    ScoreChangeMeans(ScoreOf(t.scores, p), h.verdict, h.sources);
  }

  lemma FiledRowsFollow(t: Tables, begun: Tables, after: Tables, req: Request, picked: seq<(nat, Id)>, hits: seq<Hit>)
    requires begun == t.(batches := begun.batches)
    requires HitsAre(req, req.results, picked, hits) && HitsFiled(begun, after, |t.batches|, hits)
    ensures RowsFollow(t, after, req, picked)
  {
    forall k | 0 <= k < |picked|
      ensures RowSays(t, req, req.results[picked[k].0], picked[k].1, after.results[|t.results| + k])
              && RowFollows(t, after, picked[k].1, after.results[|t.results| + k])
    {
      RowForSays(t, begun, req, req.results[picked[k].0], picked[k].1, hits[k]);
      assert RowFollows(begun, after, hits[k].phone, RowFor(begun, |t.batches|, hits[k]));
    }
    forall p: Id | Untouched(picked, p) ensures PhoneStays(t, after, p) {
      assert forall k :: 0 <= k < |picked| ==> hits[k].phone == picked[k].1;
      assert NoHit(hits, p);
      assert PhoneStays(begun, after, p);
    }
  }

  lemma SavedHitsAreFiled(t: Tables, req: Request)
    requires Savable(t, req)
    ensures HitsFiled(t.(batches := t.batches + [Batch(req.token, |req.expected|)]), AfterSave(t, req), |t.batches|,
                      Hits(t, req, req.results))
  {
    var hits := Hits(t, req, req.results);
    HitsAreVerdicts(t, req, req.results);
    HitsAreFiled(t.(batches := t.batches + [Batch(req.token, |req.expected|)]), |t.batches|, hits, |hits|);
    assert hits[..|hits|] == hits;
  }

  lemma SaveMeans(t: Tables, req: Request)
    requires Savable(t, req)
    ensures BatchSaved(t, AfterSave(t, req), req)
    ensures |AfterSave(t, req).results| == |t.results| + |Hits(t, req, req.results)|
  {
    var begun := t.(batches := t.batches + [Batch(req.token, |req.expected|)]);
    var picked := HitsArePicked(t, req, req.results);
    SavedHitsAreFiled(t, req);
    FiledRowsFollow(t, begun, AfterSave(t, req), req, picked, Hits(t, req, req.results));
  }

  // ----- The reply ------------------------------------------------------------------------------------

  /** A known token is answered with its batch and the number of its rows, a saved batch with
      its id and the number of rows added. */
  ghost predicate Answered(before: Tables, after: Tables, req: Request, reply: Reply) {
    match reply
    case Saved(batch, saved) => batch == |before.batches| && |after.results| == |before.results| + saved
    case AlreadySaved(batch, saved, requested) =>
      && batch < |before.batches| && before.batches[batch] == Batch(req.token, requested)
      && saved == |(set i | 0 <= i < |before.results| && before.results[i].batch == batch)|
    case Rejected => true
  }

  lemma {:induction false} RowsAreCounted(results: seq<Row>, batch: nat, p: Row -> bool)
    requires forall r :: p(r) <==> r.batch == batch
    ensures RowsInBatch(results, batch) == |Positions(results, p)|
  {
    if results != [] {
      RowsAreCounted(results[..|results| - 1], batch, p);
      OneMorePosition(results, p);
    }
  }

  lemma RowsCounted(results: seq<Row>, batch: nat)
    ensures RowsInBatch(results, batch) == |(set i | 0 <= i < |results| && results[i].batch == batch)|
  {
    var p := (r: Row) => r.batch == batch;
    RowsAreCounted(results, batch, p);
    assert Positions(results, p) == set i | 0 <= i < |results| && results[i].batch == batch;
  }

  lemma ReplyMeans(t: Tables, req: Request)
    ensures var reply := ReplyTo(t, req);
            && (reply.AlreadySaved? <==> !NewToken(t, req.token))
            && (reply.Saved? <==> NewToken(t, req.token) && MaySave(t, req))
            && (!reply.Saved? ==> AfterSave(t, req) == t)
            && (reply.Saved? ==> BatchSaved(t, AfterSave(t, req), req))
            && Answered(t, AfterSave(t, req), req, reply)
  {
    SavableIff(t, req);
    var prior := TokenBatch(t.batches, req.token);
    if prior.Some? {
      RowsCounted(t.results, prior.value);
    }
    if Savable(t, req) {
      SaveMeans(t, req);
    }
  }
}
