/** `save_spam_check_batch`, loop by loop, against the ledger's specification. */
module SpamStore {
  import opened Common
  import opened SpamLedger
  import opened SpamMeaning

  lemma HitsOfPrefix(t: Tables, req: Request, n: nat)
    requires n < |req.results|
    ensures Hits(t, req, req.results[..n + 1]) ==
            Hits(t, req, req.results[..n]) +
            (if Countable(t, req, req.results[n]) then [HitOf(t, req, req.results[n])] else [])
  {
    assert req.results[..n + 1][..n] == req.results[..n];
  }

  lemma AfterHitsOfPrefix(t: Tables, batch: nat, hits: seq<Hit>, n: nat)
    requires n < |hits|
    ensures AfterHits(t, batch, hits[..n + 1]) == AfterHit(AfterHits(t, batch, hits[..n]), batch, hits[n])
  {
    assert hits[..n + 1][..n] == hits[..n];
  }

  /** Until a phone has its own hit, its flags are as they were when the batch began. */
  lemma {:induction false} OtherFlagsUntouched(t: Tables, batch: nat, hits: seq<Hit>, p: Id)
    requires p < |t.phones| && forall i :: 0 <= i < |hits| ==> hits[i].phone != p
    ensures |AfterHits(t, batch, hits).phones| == |t.phones| && AfterHits(t, batch, hits).phones[p] == t.phones[p]
  {
    if hits != [] {
      OtherFlagsUntouched(t, batch, hits[..|hits| - 1], p);
    }
  }

  class Store {
    var phones: seq<Phone>
    var routes: set<Id>
    var links: set<(Id, Id)>
    var batches: seq<Batch>
    var results: seq<Row>
    var scores: map<Id, int>

    ghost function Data(): Tables
      reads this
    {
      Tables(phones, routes, links, batches, results, scores)
    }

    constructor ()
      ensures Data() == EMPTY
    {
      phones, routes, links, batches, results, scores := [], {}, {}, [], [], map[];
    }

    /** Whether every route a result is filed under still has the number. */
    method RoutesHold(ids: seq<Id>, phone: Id) returns (valid: bool)
      ensures valid <==> forall k :: 0 <= k < |ids| ==> RouteHolds(Data(), ids[k], phone)
    {
      var k := 0;
      while k < |ids|
        invariant 0 <= k <= |ids|
        invariant forall j :: 0 <= j < k ==> RouteHolds(Data(), ids[j], phone)
      {
        if ids[k] !in routes || (ids[k], phone) !in links {
          assert !RouteHolds(Data(), ids[k], phone);
          return false;
        }
        k := k + 1;
      }
      return true;
    }

    method CollectHits(req: Request) returns (hits: seq<Hit>)
      ensures hits == Hits(Data(), req, req.results)
    {
      hits := [];
      var i := 0;
      while i < |req.results|
        invariant 0 <= i <= |req.results|
        invariant hits == Hits(Data(), req, req.results[..i])
      {
        HitsOfPrefix(Data(), req, i);
        var r := req.results[i];
        var phone := if r.number in req.expected then FindPhone(phones, r.number) else None;
        if phone.Some? && r.ready && (r.verdict == Spam || r.verdict == Clear) {
          var valid := RoutesHold(RoutesFor(req, r.number), phone.value);
          if valid {
            hits := hits + [Hit(phone.value, r.verdict, r.sources, RoutesFor(req, r.number))];
          }
        }
        i := i + 1;
      }
      assert req.results[..i] == req.results;
    }

    /** The rows that file a result under its routes; their key stops them at a repeated
        route. */
    method FileRoutes(ids: seq<Id>) returns (ok: bool, filed: seq<Id>)
      ensures ok <==> NoRepeats(ids)
      ensures ok ==> filed == ids
    {
      filed := [];
      var k := 0;
      while k < |ids|
        invariant 0 <= k <= |ids| && filed == ids[..k] && NoRepeats(filed)
      {
        if ids[k] in filed {
          return false, filed;
        }
        filed := filed + [ids[k]];
        k := k + 1;
      }
      return true, filed;
    }

    /** Files one hit; the flags are compared with the phone row as it was read when
        the batch began. */
    method FileHit(batch: nat, h: Hit, asRead: Phone) returns (ok: bool)
      requires h.phone < |phones| && phones[h.phone] == asRead
      modifies this`results, this`scores, this`phones
      ensures ok <==> NoRepeats(h.routes)
      ensures ok ==> Data() == AfterHit(old(Data()), batch, h) && |phones| == old(|phones|)
    {
      var filed;
      ok, filed := FileRoutes(h.routes);
      if !ok { return; }
      var before := if h.phone in scores then scores[h.phone] else 0;
      var change := ScoreChange(before, h.verdict, h.sources);
      results := results + [Row(batch, h.phone, h.verdict, h.sources, filed, change.2, before, change.0, change.1)];
      scores := scores[h.phone := change.1];
      if before < TOP_SCORE && change.1 == TOP_SCORE && (!asRead.problematic || !asRead.review) {
        phones := phones[h.phone := asRead.(problematic := true, review := true)];
      }
    }

    method SaveBatch(req: Request) returns (reply: Reply)
      modifies this
      ensures Data() == AfterSave(old(Data()), req)
      ensures reply == ReplyTo(old(Data()), req)
      ensures reply.AlreadySaved? <==> !NewToken(old(Data()), req.token)
      ensures reply.Saved? <==> NewToken(old(Data()), req.token) && MaySave(old(Data()), req)
      ensures if reply.Saved? then BatchSaved(old(Data()), Data(), req) else Data() == old(Data())
      ensures Answered(old(Data()), Data(), req, reply)
    {
      ReplyMeans(Data(), req);
      reply := WriteBatch(req);
    }

    /** The statements of the call, rolled back when the ledger's keys stop it. */
    method WriteBatch(req: Request) returns (reply: Reply)
      modifies this
      ensures Data() == AfterSave(old(Data()), req)
      ensures reply == ReplyTo(old(Data()), req)
    {
      var prior := TokenBatch(batches, req.token);
      if prior.Some? {
        return AlreadySaved(prior.value, RowsInBatch(results, prior.value), batches[prior.value].requested);
      }
      var hits := CollectHits(req);
      if hits == [] {
        return Rejected;
      }
      HitsAreVerdicts(Data(), req, req.results);
      var batch := |batches|;
      var savedBatches, savedResults, savedScores, savedPhones := batches, results, scores, phones;
      batches := batches + [Batch(req.token, |req.expected|)];
      var filed := FileHits(batch, hits);
      if !filed {
        batches, results, scores, phones := savedBatches, savedResults, savedScores, savedPhones;
        return Rejected;
      }
      return Saved(batch, |hits|);
    }

    /** The save loop.  The ledger's unique keys stop it at a phone that already has a row
        in this batch, and at a route under which the row is already filed. */
    method FileHits(batch: nat, hits: seq<Hit>) returns (ok: bool)
      requires forall i :: 0 <= i < |hits| ==> hits[i].phone < |phones|
      modifies this`results, this`scores, this`phones
      ensures ok <==> Fileable(hits)
      ensures ok ==> Data() == AfterHits(old(Data()), batch, hits)
    {
      var asRead := phones;
      ghost var begun := Data();
      var k := 0;
      while k < |hits|
        invariant 0 <= k <= |hits|
        invariant DistinctUpTo(hits, k) && forall j :: 0 <= j < k ==> NoRepeats(hits[j].routes)
        invariant |phones| == |asRead| && Data() == AfterHits(begun, batch, hits[..k])
      {
        if exists j :: 0 <= j < k && hits[j].phone == hits[k].phone {
          return false;
        }
        OtherFlagsUntouched(begun, batch, hits[..k], hits[k].phone);
        AfterHitsOfPrefix(begun, batch, hits, k);
        ok := FileHit(batch, hits[k], asRead[hits[k].phone]);
        if !ok {
          return false;
        }
        k := k + 1;
      }
      assert hits[..k] == hits;
      return true;
    }
  }

  ghost predicate DistinctUpTo(hits: seq<Hit>, n: nat) {
    forall i, j :: 0 <= i < j < n && j < |hits| ==> hits[i].phone != hits[j].phone
  }
}
