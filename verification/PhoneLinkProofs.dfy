/** What every run keeps about phones, their links and the link history. */
module PhoneLinkProofs {
  import opened Common
  import opened PhoneLinks

  // ----- The invariant ---------------------------------------------------------------

  predicate PhoneOk(p: Phone) {
    && (!p.active ==> p.status == Unused && p.deactivatedAt.Some?)
    && (p.problematic ==> p.review)
  }

  ghost predicate PhonesOk(phones: seq<Phone>) {
    && (forall p :: 0 <= p < |phones| ==> PhoneOk(phones[p]))
    && (forall p, q :: 0 <= p < q < |phones| ==> phones[p].number != phones[q].number)
  }

  predicate LinkOk(l: Link, phones: seq<Phone>) {
    && l.phone < |phones|
    && (l.active ==> phones[l.phone].active && phones[l.phone].status == Used)
  }

  ghost predicate LinksOk(phones: seq<Phone>, links: seq<Link>) {
    forall i :: 0 <= i < |links| ==> LinkOk(links[i], phones)
  }

  ghost predicate OneLinkPerPair(links: seq<Link>) {
    forall i, j :: 0 <= i < j < |links| && links[i].active && links[j].active ==> Pair(links[i]) != Pair(links[j])
  }

  function Pair(l: Link): (Id, Id) {
    (l.route, l.phone)
  }

  function EntryPair(e: Entry): (Id, Id) {
    (e.route, e.phone)
  }

  /** The link set rebuilt from the history alone. */
  function Live(history: seq<Entry>): set<(Id, Id)> {
    if history == [] then {}
    else
      var e := history[|history| - 1];
      var before := Live(history[..|history| - 1]);
      if e.action == Added then before + {EntryPair(e)} else before - {EntryPair(e)}
  }

  /** Nothing is added while live or removed while not. */
  predicate Paired(history: seq<Entry>) {
    history != [] ==>
      var e := history[|history| - 1];
      var before := history[..|history| - 1];
      Paired(before) && (e.action == Added <==> EntryPair(e) !in Live(before))
  }

  ghost predicate IsLive(links: seq<Link>, pair: (Id, Id)) {
    exists i :: 0 <= i < |links| && links[i].active && Pair(links[i]) == pair
  }

  ghost predicate HistoryOk(links: seq<Link>, history: seq<Entry>) {
    Paired(history) && forall pair :: pair in Live(history) <==> IsLive(links, pair)
  }

  ghost predicate Valid(t: Tables) {
    PhonesOk(t.phones) && LinksOk(t.phones, t.links) && OneLinkPerPair(t.links) && HistoryOk(t.links, t.history)
  }

  // ----- One link opened or closed ------------------------------------------------------

  lemma AppendEntry(history: seq<Entry>, e: Entry)
    ensures Live(history + [e]) ==
            if e.action == Added then Live(history) + {EntryPair(e)} else Live(history) - {EntryPair(e)}
    ensures Paired(history + [e]) <==> Paired(history) && (e.action == Added <==> EntryPair(e) !in Live(history))
  {
  }

  lemma CloseOne(links: seq<Link>, history: seq<Entry>, i: nat, at: int)
    requires i < |links| && links[i].active
    requires OneLinkPerPair(links) && HistoryOk(links, history)
    ensures OneLinkPerPair(links[i := ClosedLink(links[i], at)])
    ensures HistoryOk(links[i := ClosedLink(links[i], at)], history + [Entry(links[i].route, links[i].phone, Removed)])
  {
    var e := Entry(links[i].route, links[i].phone, Removed);
    var closed := links[i := ClosedLink(links[i], at)];
    AppendEntry(history, e);
    assert IsLive(links, EntryPair(e));
    forall pair ensures pair in Live(history + [e]) <==> IsLive(closed, pair) {
      if pair == EntryPair(e) {
        assert !IsLive(closed, pair);
      } else if IsLive(links, pair) {
        var j :| 0 <= j < |links| && links[j].active && Pair(links[j]) == pair;
        assert closed[j].active && Pair(closed[j]) == pair;
      }
    }
  }

  lemma OpenOne(links: seq<Link>, history: seq<Entry>, l: Link)
    requires l.active && !IsLive(links, Pair(l))
    requires OneLinkPerPair(links) && HistoryOk(links, history)
    ensures OneLinkPerPair(links + [l])
    ensures HistoryOk(links + [l], history + [Entry(l.route, l.phone, Added)])
  {
    var e := Entry(l.route, l.phone, Added);
    var more := links + [l];
    AppendEntry(history, e);
    forall pair ensures pair in Live(history + [e]) <==> IsLive(more, pair) {
      if pair == Pair(l) {
        assert more[|links|] == l;
      } else if IsLive(links, pair) {
        var j :| 0 <= j < |links| && links[j].active && Pair(links[j]) == pair;
        assert more[j] == links[j];
      }
    }
  }

  // ----- Closing all links of a phone ------------------------------------------------------

  /** The links closed so far while the links of a phone are closed in order. */
  function WithoutPhoneUpTo(links: seq<Link>, phone: Id, n: nat, at: int): seq<Link>
    requires n <= |links|
  {
    WithoutPhone(links[..n], phone, at) + links[n..]
  }

  /** One turn of the closing loop. */
  lemma CloseNext(links: seq<Link>, phone: Id, n: nat, at: int)
    requires n < |links|
    ensures var before := WithoutPhoneUpTo(links, phone, n, at);
            var hit := links[n].active && links[n].phone == phone;
            && before[n] == links[n]
            && WithoutPhoneUpTo(links, phone, n + 1, at) ==
               (if hit then before[n := ClosedLink(links[n], at)] else before)
            && PhoneRemovals(links[..n + 1], phone) ==
               PhoneRemovals(links[..n], phone)
               + (if hit then [Entry(links[n].route, links[n].phone, Removed)] else [])
  {
    assert links[..n + 1][..n] == links[..n];
  }

  lemma CloseStep(links: seq<Link>, history: seq<Entry>, phone: Id, n: nat, at: int)
    requires n < |links| && OneLinkPerPair(WithoutPhoneUpTo(links, phone, n, at))
    requires HistoryOk(WithoutPhoneUpTo(links, phone, n, at), history + PhoneRemovals(links[..n], phone))
    ensures OneLinkPerPair(WithoutPhoneUpTo(links, phone, n + 1, at))
    ensures HistoryOk(WithoutPhoneUpTo(links, phone, n + 1, at), history + PhoneRemovals(links[..n + 1], phone))
  {
    CloseNext(links, phone, n, at);
    if links[n].active && links[n].phone == phone {
      CloseOne(WithoutPhoneUpTo(links, phone, n, at), history + PhoneRemovals(links[..n], phone), n, at);
      AppendAfter(history, PhoneRemovals(links[..n], phone), [Entry(links[n].route, links[n].phone, Removed)]);
    } else {
      assert PhoneRemovals(links[..n], phone) + [] == PhoneRemovals(links[..n], phone);
    }
  }

  lemma {:induction false} CloseAll(links: seq<Link>, history: seq<Entry>, phone: Id, n: nat, at: int)
    requires n <= |links| && OneLinkPerPair(links) && HistoryOk(links, history)
    ensures OneLinkPerPair(WithoutPhoneUpTo(links, phone, n, at))
    ensures HistoryOk(WithoutPhoneUpTo(links, phone, n, at), history + PhoneRemovals(links[..n], phone))
  {
    if n == 0 {
      assert WithoutPhoneUpTo(links, phone, 0, at) == links;
      assert history + PhoneRemovals(links[..0], phone) == history;
    } else {
      CloseAll(links, history, phone, n - 1, at);
      CloseStep(links, history, phone, n - 1, at);
    }
  }

  lemma AppendAfter(a: seq<Entry>, b: seq<Entry>, c: seq<Entry>)
    ensures a + (b + c) == (a + b) + c
  {
  }

  lemma WithoutPhoneDone(links: seq<Link>, phone: Id, at: int)
    ensures links[..|links|] == links
    ensures WithoutPhoneUpTo(links, phone, |links|, at) == WithoutPhone(links, phone, at)
    ensures WithoutPhoneUpTo(links, phone, 0, at) == links
  {
  }

  lemma CloseAllLinks(links: seq<Link>, history: seq<Entry>, phone: Id, at: int)
    requires OneLinkPerPair(links) && HistoryOk(links, history)
    ensures OneLinkPerPair(WithoutPhone(links, phone, at))
    ensures HistoryOk(WithoutPhone(links, phone, at), history + PhoneRemovals(links, phone))
  {
    CloseAll(links, history, phone, |links|, at);
    WithoutPhoneDone(links, phone, at);
  }

  // ----- Bulk removal ------------------------------------------------------------------------

  lemma {:induction false} RemovalsKeepValid(t: Tables, route: Id, ids: seq<Id>, at: int)
    requires Valid(t)
    ensures Valid(AfterRemovals(t, route, ids, at))
  {
    if ids != [] {
      RemovalsKeepValid(t, route, ids[..|ids| - 1], at);
      var before := AfterRemovals(t, route, ids[..|ids| - 1], at);
      var i := ids[|ids| - 1];
      if Removable(before.links, route, i) {
        CloseOne(before.links, before.history, i, at);
      }
    }
  }

  /** The links a bulk removal will close: those named, once each. */
  function Chosen(t: Tables, route: Id, ids: seq<Id>): set<Id> {
    set i | i in ids && Removable(t.links, route, i)
  }

  /** Whatever the order and repetition of the ids, exactly the chosen links are
      closed, and one history row is written for each. */
  lemma {:induction false} RemovalsCloseTheChosen(t: Tables, route: Id, ids: seq<Id>, at: int)
    ensures var after := AfterRemovals(t, route, ids, at);
            && |after.links| == |t.links| && after.phones == t.phones && after.routes == t.routes
            && (forall i :: 0 <= i < |t.links| ==>
                  after.links[i] == if i in Chosen(t, route, ids) then ClosedLink(t.links[i], at) else t.links[i])
            && t.history <= after.history
            && |after.history| == |t.history| + |Chosen(t, route, ids)|
  {
    if ids == [] {
      assert Chosen(t, route, ids) == {};
    } else {
      var n := |ids| - 1;
      RemovalsCloseTheChosen(t, route, ids[..n], at);
      var before := AfterRemovals(t, route, ids[..n], at);
      var i := ids[n];
      var earlier := Chosen(t, route, ids[..n]);
      assert forall j :: j in ids <==> j in ids[..n] || j == i;
      if Removable(before.links, route, i) {
        assert i !in earlier;
        assert Chosen(t, route, ids) == earlier + {i};
      } else {
        assert Chosen(t, route, ids) == earlier;
      }
    }
  }

  // ----- Every call keeps the invariant -----------------------------------------------------------

  lemma UpdateKeepsPhones(t: Tables, phone: Id, input: PhoneInput)
    requires PhonesOk(t.phones) && UpdateAccepted(t, phone, input)
    ensures PhonesOk(AfterUpdate(t, phone, input).phones)
  {
  }

  lemma UpdateKeepsLinks(t: Tables, phone: Id, input: PhoneInput)
    requires LinksOk(t.phones, t.links) && phone < |t.phones|
    ensures LinksOk(AfterUpdate(t, phone, input).phones, AfterUpdate(t, phone, input).links)
  {
  }

  lemma UpdateKeepsValid(t: Tables, phone: Id, input: PhoneInput)
    requires Valid(t) && UpdateAccepted(t, phone, input)
    ensures Valid(AfterUpdate(t, phone, input))
  {
    UpdateKeepsPhones(t, phone, input);
    UpdateKeepsLinks(t, phone, input);
    CloseAllLinks(t.links, t.history, phone, input.now);
  }

  lemma AddKeepsValid(t: Tables, route: Id, phone: Id)
    requires Valid(t) && Accepted(t, AddLink(route, phone))
    ensures Valid(Effect(t, AddLink(route, phone)))
  {
    var after := Effect(t, AddLink(route, phone));
    var l := Link(route, phone, true, None);
    if IsLive(t.links, Pair(l)) {
      assert Linked(t.links, route, phone);
      assert false;
    }
    OpenOne(t.links, t.history, l);
    assert PhoneOk(t.phones[phone]);
    forall i | 0 <= i < |after.links| ensures LinkOk(after.links[i], after.phones) {
      if i < |t.links| {
        assert LinkOk(t.links[i], t.phones);
      }
    }
  }

  lemma CreateKeepsValid(t: Tables, input: PhoneInput)
    requires Valid(t) && Accepted(t, CreatePhone(input))
    ensures Valid(Effect(t, CreatePhone(input)))
  {
  }

  lemma StepKeepsValid(t: Tables, call: Call)
    requires Valid(t)
    ensures Valid(Step(t, call))
  {
    if Accepted(t, call) {
      match call {
        case CreatePhone(input) => CreateKeepsValid(t, input);
        case UpdatePhone(p, input) => UpdateKeepsValid(t, p, input);
        case ImportPhone(p, input) => UpdateKeepsValid(t, p, ImportInput(t, p, input));
        case AddLink(route, p) => AddKeepsValid(t, route, p);
        case RemoveLinks(route, ids, at) => RemovalsKeepValid(t, route, ids, at);
        case FlagSpam(p) => assert PhoneOk(t.phones[p]);
          FlagKeepsLinks(t, p);
        case EditRoutes(_) =>
      }
    }
  }

  lemma FlagKeepsLinks(t: Tables, p: Id)
    requires LinksOk(t.phones, t.links) && p < |t.phones|
    ensures LinksOk(Effect(t, FlagSpam(p)).phones, t.links)
  {
  }

  /** In every reachable state: an active link has an active phone in use, an
      inactive phone is unused and dated, a problem asks for review, a pair has at
      most one active link, and the live links are those the history rebuilds. */
  lemma {:induction false} EveryRunIsValid(calls: seq<Call>)
    ensures Valid(Run(EMPTY, calls))
  {
    if calls != [] {
      EveryRunIsValid(calls[..|calls| - 1]);
      StepKeepsValid(Run(EMPTY, calls[..|calls| - 1]), calls[|calls| - 1]);
    }
  }

  // ----- Reading the history -------------------------------------------------------------------------

  function Count(history: seq<Entry>, pair: (Id, Id), action: Action): nat {
    if history == [] then 0
    else
      var e := history[|history| - 1];
      Count(history[..|history| - 1], pair, action) + (if EntryPair(e) == pair && e.action == action then 1 else 0)
  }

  function ActiveCount(links: seq<Link>, pair: (Id, Id)): nat {
    if links == [] then 0
    else
      var l := links[|links| - 1];
      ActiveCount(links[..|links| - 1], pair) + (if l.active && Pair(l) == pair then 1 else 0)
  }

  lemma {:induction false} PairedCounts(history: seq<Entry>, pair: (Id, Id))
    requires Paired(history)
    ensures Count(history, pair, Added) - Count(history, pair, Removed) == if pair in Live(history) then 1 else 0
  {
    if history != [] {
      PairedCounts(history[..|history| - 1], pair);
    }
  }

  lemma {:induction false} UniqueActiveCount(links: seq<Link>, pair: (Id, Id))
    requires OneLinkPerPair(links)
    ensures ActiveCount(links, pair) == if IsLive(links, pair) then 1 else 0
  {
    if links != [] {
      var n := |links| - 1;
      UniqueActiveCount(links[..n], pair);
      if links[n].active && Pair(links[n]) == pair {
        assert !IsLive(links[..n], pair);
      } else if IsLive(links, pair) {
        var j :| 0 <= j < |links| && links[j].active && Pair(links[j]) == pair;
        assert links[..n][j] == links[j];
      }
    }
  }

  /** For every route and phone, additions less removals is the number of active
      links, which is zero or one. */
  lemma AddedLessRemovedIsActive(t: Tables, pair: (Id, Id))
    requires Valid(t)
    ensures Count(t.history, pair, Added) - Count(t.history, pair, Removed) == ActiveCount(t.links, pair)
    ensures ActiveCount(t.links, pair) <= 1
  {
    PairedCounts(t.history, pair);
    UniqueActiveCount(t.links, pair);
  }

  /** Between two equal actions on a pair lies the opposite one. */
  lemma {:induction false} LiveHolds(history: seq<Entry>, i: nat, j: nat)
    requires i < j <= |history|
    requires forall k :: i < k < j && EntryPair(history[k]) == EntryPair(history[i]) ==>
               history[k].action == history[i].action
    ensures EntryPair(history[i]) in Live(history[..j]) <==> history[i].action == Added
  {
    assert history[..j][..j - 1] == history[..j - 1];
    if i + 1 < j {
      LiveHolds(history, i, j - 1);
    }
  }

  lemma {:induction false} PairedPrefix(history: seq<Entry>, j: nat)
    requires Paired(history) && j <= |history|
    ensures Paired(history[..j])
  {
    if j < |history| {
      PairedPrefix(history[..|history| - 1], j);
      assert history[..|history| - 1][..j] == history[..j];
    } else {
      assert history[..j] == history;
    }
  }

  lemma ActionsAlternate(t: Tables, i: nat, j: nat)
    requires Valid(t) && i < j < |t.history|
    requires EntryPair(t.history[i]) == EntryPair(t.history[j]) && t.history[i].action == t.history[j].action
    ensures exists k :: i < k < j && EntryPair(t.history[k]) == EntryPair(t.history[i])
                        && t.history[k].action != t.history[i].action
  {
    PairedPrefix(t.history, j + 1);
    assert t.history[..j + 1][..j] == t.history[..j];
    if forall k :: i < k < j && EntryPair(t.history[k]) == EntryPair(t.history[i])
        ==> t.history[k].action == t.history[i].action {
      LiveHolds(t.history, i, j);
    }
  }

  /** Two runs with the same history have the same live links. */
  lemma HistoryDeterminesLinks(a: Tables, b: Tables, pair: (Id, Id))
    requires Valid(a) && Valid(b) && a.history == b.history
    ensures IsLive(a.links, pair) <==> IsLive(b.links, pair)
  {
    assert pair in Live(a.history) <==> IsLive(a.links, pair);
    assert pair in Live(b.history) <==> IsLive(b.links, pair);
  }

  /** An import row that leaves a problematic, linked number active closes no link. */
  lemma ImportSparesProblematicLinks(t: Tables, phone: Id, input: PhoneInput)
    requires Accepted(t, ImportPhone(phone, input)) && input.active
    requires (t.phones[phone].problematic || input.problematic) && HasActiveLink(t.links, phone)
    ensures var after := Effect(t, ImportPhone(phone, input));
            after.links == t.links && after.history == t.history && after.phones[phone].status == Used
            && after.phones[phone].problematic && after.phones[phone].review
  {
  }
}
