/** The outbound relay: one-shot deliveries of the event feed.

    A delivery reads the saved cursor, fetches one page, POSTs it and then replaces
    the cursor file.  It can be killed, or the POST can fail, between any two of
    these steps, and new events can become visible at any time. */
module Relay {
  import opened Common
  import opened Archivarius

  type Event = Item<string>

  const EVENT_ENTITY_TYPES := {"route", "route_phone_number", "phone_number", "tariff", "routing_event"}

  /** The part of the change log that the feed exports. */
  function Eligible(log: seq<Event>): seq<Event> {
    if log == [] then []
    else
      var e := log[|log| - 1];
      Eligible(log[..|log| - 1]) + (if e.payload in EVENT_ENTITY_TYPES then [e] else [])
  }

  /** What the relay received: acknowledged or not, and whether the cursor file was
      replaced afterwards. */
  datatype Delivery = Delivery(from: int, page: Page<string>, acknowledged: bool, saved: bool)

  datatype Phase =
    | Stopped
    | CursorRead(cursor: int)
    | PageFetched(cursor: int, page: Page<string>)
    | Acknowledged(cursor: int, page: Page<string>)

  datatype PostOutcome = NotReceived | ReceivedButFailed | Accepted2xx

  datatype State = State(log: seq<Event>, file: Option<int>, phase: Phase, deliveries: seq<Delivery>)

  datatype Label = Publish(event: Event) | ReadCursor | Fetch | Post(outcome: PostOutcome) | Save | Crash

  function Cursor(file: Option<int>): int {
    if file.None? then 0 else file.value
  }

  function LastId(log: seq<Event>): int {
    if log == [] then 0 else log[|log| - 1].id
  }

  /** Events become visible in increasing id order. */
  predicate InOrder(s: State, l: Label) {
    l.Publish? ==> l.event.id > LastId(s.log)
  }

  function Step(s: State, l: Label): State {
    match l
    case Publish(e) => s.(log := s.log + [e])
    case ReadCursor => if s.phase.Stopped? then s.(phase := CursorRead(Cursor(s.file))) else s
    case Fetch =>
      if s.phase.CursorRead?
      then s.(phase := PageFetched(s.phase.cursor, PageOf(Eligible(s.log), s.phase.cursor, MAX_LIMIT))) else s
    case Post(outcome) =>
      if s.phase.PageFetched? then
        match outcome
        case NotReceived => s.(phase := Stopped)
        case ReceivedButFailed =>
          s.(phase := Stopped, deliveries := s.deliveries + [Delivery(s.phase.cursor, s.phase.page, false, false)])
        case Accepted2xx =>
          s.(phase := Acknowledged(s.phase.cursor, s.phase.page),
             deliveries := s.deliveries + [Delivery(s.phase.cursor, s.phase.page, true, false)])
      else s
    case Save =>
      if s.phase.Acknowledged? && s.deliveries != [] then
        var n := |s.deliveries| - 1;
        s.(phase := Stopped, file := Some(s.phase.page.nextCursor),
           deliveries := s.deliveries[n := s.deliveries[n].(saved := true)])
      else s
    case Crash => s.(phase := Stopped)
  }

  function Run(s: State, labels: seq<Label>): State {
    if labels == [] then s else Step(Run(s, labels[..|labels| - 1]), labels[|labels| - 1])
  }

  const START := State([], None, Stopped, [])

  /** The pages whose acknowledgement reached the cursor file, in order. */
  function SavedItems(deliveries: seq<Delivery>): seq<Event> {
    if deliveries == [] then []
    else
      var d := deliveries[|deliveries| - 1];
      SavedItems(deliveries[..|deliveries| - 1]) + (if d.saved then d.page.items else [])
  }

  // ----- The invariant -----------------------------------------------------------------------

  ghost predicate Within(items: seq<Event>, low: int, high: int) {
    forall i :: 0 <= i < |items| ==> low < items[i].id <= high
  }

  /** A fetched page still is what comes next after the cursor. */
  ghost predicate NextPage(log: seq<Event>, cursor: int, page: Page<string>) {
    && page.items + After(Eligible(log), page.nextCursor) == After(Eligible(log), cursor)
    && cursor <= page.nextCursor <= LastId(log)
    && Within(page.items, cursor, page.nextCursor)
  }

  ghost predicate PhaseOk(s: State) {
    match s.phase
    case Stopped => true
    case CursorRead(c) => c == Cursor(s.file)
    case PageFetched(c, page) => c == Cursor(s.file) && NextPage(s.log, c, page)
    case Acknowledged(c, page) =>
      && c == Cursor(s.file) && NextPage(s.log, c, page)
      && s.deliveries != [] && s.deliveries[|s.deliveries| - 1] == Delivery(c, page, true, false)
  }

  ghost predicate DeliveriesOk(deliveries: seq<Delivery>, cursor: int) {
    && (forall i :: 0 <= i < |deliveries| ==>
          && Within(deliveries[i].page.items, deliveries[i].from, deliveries[i].page.nextCursor)
          && deliveries[i].from <= cursor
          && (deliveries[i].saved ==> deliveries[i].page.nextCursor <= cursor))
    && (forall i, j :: 0 <= i < j < |deliveries| && deliveries[i].saved
          ==> deliveries[i].page.nextCursor <= deliveries[j].from)
  }

  /** The saved pages, one after the other, are exactly the eligible events at or
      below the saved cursor; everything else is still to come. */
  ghost predicate NothingSkipped(log: seq<Event>, cursor: int, deliveries: seq<Delivery>) {
    SavedItems(deliveries) + After(Eligible(log), cursor) == Eligible(log)
  }

  ghost predicate LogOk(log: seq<Event>) {
    Ordered(log) && forall i :: 0 <= i < |log| ==> 0 < log[i].id
  }

  ghost predicate Inv(s: State) {
    && LogOk(s.log)
    && 0 <= Cursor(s.file) <= LastId(s.log)
    && PhaseOk(s)
    && DeliveriesOk(s.deliveries, Cursor(s.file))
    && NothingSkipped(s.log, Cursor(s.file), s.deliveries)
  }

  /** The feed exports exactly the log's entries about routes, their numbers, tariffs and
      routing events. */
  lemma {:induction false} EligibleIff(log: seq<Event>, e: Event)
    ensures e in Eligible(log) <==>
            e in log && e.payload in {"route", "route_phone_number", "phone_number", "tariff", "routing_event"}
  {
    if log != [] {
      EligibleIff(log[..|log| - 1], e);
      assert log == log[..|log| - 1] + [log[|log| - 1]];
    }
  }

  // ----- Properties of the log -----------------------------------------------------------------

  lemma {:induction false} EligibleOrdered(log: seq<Event>)
    requires Ordered(log)
    ensures Ordered(Eligible(log))
    ensures forall i :: 0 <= i < |Eligible(log)| ==> Eligible(log)[i] in log && Eligible(log)[i].id <= LastId(log)
  {
    if log != [] {
      var n := |log| - 1;
      EligibleOrdered(log[..n]);
      var t := Eligible(log[..n]);
      forall i | 0 <= i < |t| ensures t[i] in log && t[i].id < log[n].id {
        assert t[i] in log[..n];
      }
    }
  }

  lemma {:induction false} AfterAppend(table: seq<Event>, e: Event, after: int)
    ensures After(table + [e], after) == After(table, after) + (if e.id > after then [e] else [])
  {
    if table == [] {
      assert [e][1..] == [];
    } else {
      assert (table + [e])[1..] == table[1..] + [e];
      AfterAppend(table[1..], e, after);
    }
  }

  lemma EligibleAppend(log: seq<Event>, e: Event)
    ensures Eligible(log + [e]) == Eligible(log) + (if e.payload in EVENT_ENTITY_TYPES then [e] else [])
  {
    assert (log + [e])[..|log|] == log;
  }

  /** A new event comes after every cursor up to the last id. */
  lemma AfterPublish(log: seq<Event>, e: Event, after: int)
    requires after <= LastId(log) < e.id
    ensures After(Eligible(log + [e]), after) ==
            After(Eligible(log), after) + (if e.payload in EVENT_ENTITY_TYPES then [e] else [])
  {
    EligibleAppend(log, e);
    AfterAppend(Eligible(log), e, after);
    assert Eligible(log) + [] == Eligible(log);
  }

  lemma PublishKeepsNextPage(log: seq<Event>, e: Event, cursor: int, page: Page<string>)
    requires NextPage(log, cursor, page) && LastId(log) < e.id
    ensures NextPage(log + [e], cursor, page)
  {
    AfterPublish(log, e, cursor);
    AfterPublish(log, e, page.nextCursor);
    var added := if e.payload in EVENT_ENTITY_TYPES then [e] else [];
    assert page.items + (After(Eligible(log), page.nextCursor) + added) ==
           page.items + After(Eligible(log), page.nextCursor) + added;
  }

  lemma PublishKeepsNothingSkipped(log: seq<Event>, e: Event, cursor: int, deliveries: seq<Delivery>)
    requires NothingSkipped(log, cursor, deliveries) && cursor <= LastId(log) < e.id
    ensures NothingSkipped(log + [e], cursor, deliveries)
  {
    AfterPublish(log, e, cursor);
    EligibleAppend(log, e);
    var added := if e.payload in EVENT_ENTITY_TYPES then [e] else [];
    assert SavedItems(deliveries) + (After(Eligible(log), cursor) + added) ==
           SavedItems(deliveries) + After(Eligible(log), cursor) + added;
  }

  lemma PublishKeepsLog(log: seq<Event>, e: Event)
    requires LogOk(log) && 0 <= LastId(log) < e.id
    ensures LogOk(log + [e])
  {
  }

  lemma PublishKeepsInv(s: State, e: Event)
    requires Inv(s) && e.id > LastId(s.log)
    ensures Inv(Step(s, Publish(e)))
  {
    PublishKeepsLog(s.log, e);
    PublishKeepsNothingSkipped(s.log, e, Cursor(s.file), s.deliveries);
    match s.phase {
      case PageFetched(c, page) => PublishKeepsNextPage(s.log, e, c, page);
      case Acknowledged(c, page) => PublishKeepsNextPage(s.log, e, c, page);
      case _ =>
    }
  }

  /** The ids on a page lie above the cursor it was fetched for, up to its own. */
  lemma PageWithin(table: seq<Event>, cursor: int)
    requires Ordered(table)
    ensures var page := PageOf(table, cursor, MAX_LIMIT);
            && Within(page.items, cursor, page.nextCursor)
            && (page.items != [] ==> page.items[|page.items| - 1] in table)
            && (page.items == [] ==> page.nextCursor == cursor)
  {
    var k, n := PageIsStretch(table, cursor, MAX_LIMIT);
    var page := PageOf(table, cursor, MAX_LIMIT);
    if n > 0 {
      assert page.items[n - 1] == table[k + n - 1];
      StretchWithin(table, k, n, cursor);
    }
  }

  lemma StretchWithin(table: seq<Event>, k: nat, n: nat, cursor: int)
    requires Ordered(table) && 0 < n && k + n <= |table| && table[k].id > cursor
    ensures Within(table[k..k + n], cursor, table[k + n - 1].id)
  {
    var items := table[k..k + n];
    forall i | 0 <= i < |items| ensures cursor < items[i].id <= table[k + n - 1].id {
      assert items[i] == table[k + i];
    }
  }

  lemma FetchedIsNextPage(log: seq<Event>, cursor: int)
    requires Ordered(log) && cursor <= LastId(log)
    ensures NextPage(log, cursor, PageOf(Eligible(log), cursor, MAX_LIMIT))
  {
    EligibleOrdered(log);
    PageAdvances(Eligible(log), cursor, MAX_LIMIT);
    PageWithin(Eligible(log), cursor);
  }

  lemma SavedAppend(deliveries: seq<Delivery>, d: Delivery)
    ensures SavedItems(deliveries + [d]) == SavedItems(deliveries) + (if d.saved then d.page.items else [])
  {
    assert (deliveries + [d])[..|deliveries|] == deliveries;
  }

  lemma PostKeepsDeliveries(deliveries: seq<Delivery>, cursor: int, page: Page<string>, acknowledged: bool)
    requires DeliveriesOk(deliveries, cursor) && Within(page.items, cursor, page.nextCursor)
    ensures DeliveriesOk(deliveries + [Delivery(cursor, page, acknowledged, false)], cursor)
  {
  }

  lemma PostKeepsInv(s: State, outcome: PostOutcome)
    requires Inv(s) && s.phase.PageFetched?
    ensures Inv(Step(s, Post(outcome)))
  {
    if !outcome.NotReceived? {
      ReceivedKeepsInv(s, outcome.Accepted2xx?);
    }
  }

  /** The relay has received the page, acknowledged or not. */
  lemma ReceivedKeepsInv(s: State, acknowledged: bool)
    requires Inv(s) && s.phase.PageFetched?
    ensures Inv(State(s.log, s.file, if acknowledged then Acknowledged(s.phase.cursor, s.phase.page) else Stopped,
                      s.deliveries + [Delivery(s.phase.cursor, s.phase.page, acknowledged, false)]))
  {
    PostKeepsDeliveries(s.deliveries, s.phase.cursor, s.phase.page, acknowledged);
    PostKeepsNothingSkipped(s.log, Cursor(s.file), s.deliveries, s.phase.cursor, s.phase.page, acknowledged);
  }

  lemma PostKeepsNothingSkipped(log: seq<Event>, saved: int, deliveries: seq<Delivery>, cursor: int,
                                page: Page<string>, acknowledged: bool)
    requires NothingSkipped(log, saved, deliveries)
    ensures NothingSkipped(log, saved, deliveries + [Delivery(cursor, page, acknowledged, false)])
  {
    SavedAppend(deliveries, Delivery(cursor, page, acknowledged, false));
    assert SavedItems(deliveries) + [] == SavedItems(deliveries);
  }

  lemma SaveKeepsDeliveries(before: seq<Delivery>, cursor: int, page: Page<string>)
    requires DeliveriesOk(before + [Delivery(cursor, page, true, false)], cursor) && cursor <= page.nextCursor
    ensures DeliveriesOk(before + [Delivery(cursor, page, true, true)], page.nextCursor)
  {
    var d, e := Delivery(cursor, page, true, false), Delivery(cursor, page, true, true);
    var a, b := before + [d], before + [e];
    forall i | 0 <= i < |b| ensures a[i] == b[i] || (i == |before| && a[i] == d && b[i] == e) {
    }
  }

  lemma SaveKeepsNothingSkipped(log: seq<Event>, cursor: int, page: Page<string>, before: seq<Delivery>)
    requires NothingSkipped(log, cursor, before + [Delivery(cursor, page, true, false)])
    requires NextPage(log, cursor, page)
    ensures NothingSkipped(log, page.nextCursor, before + [Delivery(cursor, page, true, true)])
  {
    SavedAppend(before, Delivery(cursor, page, true, false));
    SavedAppend(before, Delivery(cursor, page, true, true));
    assert SavedItems(before) + page.items + After(Eligible(log), page.nextCursor) ==
           SavedItems(before) + (page.items + After(Eligible(log), page.nextCursor));
    assert SavedItems(before) + [] == SavedItems(before);
  }

  lemma SaveKeepsInv(s: State)
    requires Inv(s) && s.phase.Acknowledged?
    ensures Inv(Step(s, Save))
  {
    var before := s.deliveries[..|s.deliveries| - 1];
    var c, page := s.phase.cursor, s.phase.page;
    assert s.deliveries == before + [Delivery(c, page, true, false)];
    SavedState(s, before);
    SaveKeepsDeliveries(before, c, page);
    SaveKeepsNothingSkipped(s.log, c, page, before);
    InvOfStopped(s.log, page.nextCursor, before + [Delivery(c, page, true, true)]);
  }

  lemma SavedState(s: State, before: seq<Delivery>)
    requires s.phase.Acknowledged? && s.deliveries == before + [Delivery(s.phase.cursor, s.phase.page, true, false)]
    ensures Step(s, Save) == State(s.log, Some(s.phase.page.nextCursor), Stopped,
                                   before + [Delivery(s.phase.cursor, s.phase.page, true, true)])
  {
    var e := Delivery(s.phase.cursor, s.phase.page, true, true);
    assert s.deliveries[|before| := e] == before + [e];
  }

  lemma InvOfStopped(log: seq<Event>, cursor: int, deliveries: seq<Delivery>)
    requires LogOk(log) && 0 <= cursor <= LastId(log)
    requires DeliveriesOk(deliveries, cursor) && NothingSkipped(log, cursor, deliveries)
    ensures Inv(State(log, Some(cursor), Stopped, deliveries))
  {
  }

  lemma QuietStepKeepsInv(s: State, l: Label)
    requires Inv(s) && (l.ReadCursor? || l.Crash?)
    ensures Inv(Step(s, l))
  {
  }

  lemma FetchKeepsInv(s: State)
    requires Inv(s)
    ensures Inv(Step(s, Fetch))
  {
    if s.phase.CursorRead? {
      FetchedIsNextPage(s.log, s.phase.cursor);
    }
  }

  lemma StepKeepsInv(s: State, l: Label)
    requires Inv(s) && InOrder(s, l)
    ensures Inv(Step(s, l))
  {
    match l {
      case Publish(e) => PublishKeepsInv(s, e);
      case ReadCursor => QuietStepKeepsInv(s, l);
      case Fetch => FetchKeepsInv(s);
      case Post(outcome) => if s.phase.PageFetched? { PostKeepsInv(s, outcome); }
      case Save => if s.phase.Acknowledged? { SaveKeepsInv(s); }
      case Crash => QuietStepKeepsInv(s, l);
    }
  }

  lemma StepKeepsCursor(s: State, l: Label)
    requires Inv(s) && InOrder(s, l)
    ensures Cursor(Step(s, l).file) >= Cursor(s.file)
  {
    if l.Save? && s.phase.Acknowledged? {
      assert s.phase.cursor <= s.phase.page.nextCursor;
    } else {
      OnlySaveMovesCursor(s, l);
    }
  }

  lemma OnlySaveMovesCursor(s: State, l: Label)
    requires !(l.Save? && s.phase.Acknowledged?)
    ensures Step(s, l).file == s.file
  {
  }

  ghost predicate PublishesInOrder(labels: seq<Label>) {
    labels != [] ==>
      var n := |labels| - 1;
      PublishesInOrder(labels[..n]) && InOrder(Run(START, labels[..n]), labels[n])
  }

  /** However often deliveries fail or are killed, the saved pages are exactly the
      eligible events up to the saved cursor, each once and in order. */
  lemma {:induction false} NoEventIsSkipped(labels: seq<Label>)
    requires PublishesInOrder(labels)
    ensures Inv(Run(START, labels))
  {
    if labels != [] {
      var n := |labels| - 1;
      NoEventIsSkipped(labels[..n]);
      StepKeepsInv(Run(START, labels[..n]), labels[n]);
    }
  }

  lemma LastStepKeepsCursor(labels: seq<Label>)
    requires labels != [] && PublishesInOrder(labels)
    ensures Cursor(Run(START, labels[..|labels| - 1]).file) <= Cursor(Run(START, labels).file)
  {
    var m := |labels| - 1;
    NoEventIsSkipped(labels[..m]);
    StepKeepsCursor(Run(START, labels[..m]), labels[m]);
  }

  /** The saved cursor never goes back. */
  lemma {:induction false} CursorNeverDecreases(labels: seq<Label>, n: nat)
    requires PublishesInOrder(labels) && n <= |labels|
    ensures Cursor(Run(START, labels[..n]).file) <= Cursor(Run(START, labels).file)
    decreases |labels|
  {
    if n == |labels| {
      assert labels[..n] == labels;
    } else {
      var m := |labels| - 1;
      LastStepKeepsCursor(labels);
      CursorNeverDecreases(labels[..m], n);
      assert labels[..m][..n] == labels[..n];
    }
  }

  /** An event received twice was first received in a delivery whose acknowledgement
      never reached the cursor file. */
  lemma DuplicatesComeFromUnsavedDeliveries(s: State, i: nat, j: nat, x: Event)
    requires Inv(s) && i < j < |s.deliveries|
    requires x in s.deliveries[i].page.items && x in s.deliveries[j].page.items
    ensures !s.deliveries[i].saved
  {
    var p :| 0 <= p < |s.deliveries[i].page.items| && s.deliveries[i].page.items[p] == x;
    var q :| 0 <= q < |s.deliveries[j].page.items| && s.deliveries[j].page.items[q] == x;
  }

  // ----- Late ids ----------------------------------------------------------------------------------

  /** Every eligible event at or below the cursor is in a saved page. */
  ghost predicate AllBelowDelivered(log: seq<Event>, cursor: int, deliveries: seq<Delivery>) {
    forall e :: e in log && e.payload in EVENT_ENTITY_TYPES && e.id <= cursor ==> e in SavedItems(deliveries)
  }

  lemma {:induction false} EligibleMembers(log: seq<Event>, e: Event)
    ensures e in Eligible(log) <==> e in log && e.payload in EVENT_ENTITY_TYPES
  {
    if log != [] {
      EligibleMembers(log[..|log| - 1], e);
    }
  }

  lemma {:induction false} AfterMembers(table: seq<Event>, e: Event, after: int)
    ensures e in After(table, after) <==> e in table && e.id > after
  {
    if table != [] {
      AfterMembers(table[1..], e, after);
      assert e in table <==> e == table[0] || e in table[1..];
    }
  }

  lemma InvDeliversAllBelow(s: State)
    requires Inv(s)
    ensures AllBelowDelivered(s.log, Cursor(s.file), s.deliveries)
  {
    forall e | e in s.log && e.payload in EVENT_ENTITY_TYPES && e.id <= Cursor(s.file)
      ensures e in SavedItems(s.deliveries)
    {
      EligibleMembers(s.log, e);
      AfterMembers(Eligible(s.log), e, Cursor(s.file));
      assert e in SavedItems(s.deliveries) + After(Eligible(s.log), Cursor(s.file));
    }
  }

  lemma {:induction false} SavedAreInLog(s: State, e: Event)
    requires Inv(s) && e in SavedItems(s.deliveries)
    ensures e in s.log
  {
    assert e in SavedItems(s.deliveries) + After(Eligible(s.log), Cursor(s.file));
    EligibleMembers(s.log, e);
  }

  /** Visibility order matters: an event that becomes visible late, wherever the scan
      puts it, is skipped for good exactly when it is eligible and its id is not above
      the saved cursor. */
  lemma LateEventSkippedIff(s: State, late: Event, k: nat)
    requires Inv(s) && late !in s.log && k <= |s.log|
    ensures AllBelowDelivered(s.log[..k] + [late] + s.log[k..], Cursor(s.file), s.deliveries) <==>
            !(late.payload in EVENT_ENTITY_TYPES && late.id <= Cursor(s.file))
  {
    var log := s.log[..k] + [late] + s.log[k..];
    assert s.log == s.log[..k] + s.log[k..];
    assert forall e :: e in log <==> e in s.log || e == late;
    InvDeliversAllBelow(s);
    if late in SavedItems(s.deliveries) {
      SavedAreInLog(s, late);
    }
  }

  lemma RunOfOneMore(s: State, labels: seq<Label>, l: Label)
    ensures Run(s, labels + [l]) == Step(Run(s, labels), l)
    ensures s == START ==>
              (PublishesInOrder(labels + [l]) <==> PublishesInOrder(labels) && InOrder(Run(START, labels), l))
  {
    assert (labels + [l])[..|labels|] == labels;
  }

  const SECOND := Item(2, "route")

  /** One event with id 2 is published, delivered and saved. */
  lemma SecondDelivered()
    ensures var labels := [] + [Publish(SECOND)] + [ReadCursor] + [Fetch] + [Post(Accepted2xx)] + [Save];
            var s := Run(START, labels);
            PublishesInOrder(labels) && s.log == [SECOND] && Cursor(s.file) == 2
  {
    var l1 := [] + [Publish(SECOND)];
    var l2 := l1 + [ReadCursor];
    var l3 := l2 + [Fetch];
    var l4 := l3 + [Post(Accepted2xx)];
    RunOfOneMore(START, [], Publish(SECOND));
    RunOfOneMore(START, l1, ReadCursor);
    RunOfOneMore(START, l2, Fetch);
    RunOfOneMore(START, l3, Post(Accepted2xx));
    RunOfOneMore(START, l4, Save);
    OnePage();
  }

  lemma OnePage()
    ensures Eligible([SECOND]) == [SECOND] && PageOf([SECOND], 0, MAX_LIMIT).nextCursor == 2
  {
    assert [SECOND][..0] == [];
    assert Eligible([SECOND][..0]) == [];
    var k, n := PageIsStretch([SECOND], 0, MAX_LIMIT);
    assert [SECOND][0] == SECOND;
  }

  /** An event with id 1 that becomes visible only then is never delivered. */
  lemma LateEventIsSkipped()
    ensures var s := Run(START, [] + [Publish(SECOND)] + [ReadCursor] + [Fetch] + [Post(Accepted2xx)] + [Save]);
            !AllBelowDelivered([Item(1, "route")] + s.log, Cursor(s.file), s.deliveries)
  {
    var labels := [] + [Publish(SECOND)] + [ReadCursor] + [Fetch] + [Post(Accepted2xx)] + [Save];
    var s := Run(START, labels);
    SecondDelivered();
    NoEventIsSkipped(labels);
    LateEventSkippedIff(s, Item(1, "route"), 0);
    assert s.log[..0] + [Item(1, "route")] + s.log[0..] == [Item(1, "route")] + s.log;
  }

  // ----- Progress ------------------------------------------------------------------------------------

  function Remaining(s: State): nat {
    |After(Eligible(s.log), Cursor(s.file))|
  }

  /** One delivery that nothing disturbs hands over the next page and moves the
      cursor behind it. */
  function Delivered(s: State): State {
    var page := PageOf(Eligible(s.log), Cursor(s.file), MAX_LIMIT);
    State(s.log, Some(page.nextCursor), Stopped, s.deliveries + [Delivery(Cursor(s.file), page, true, true)])
  }

  lemma FetchedState(s: State)
    requires s.phase.Stopped?
    ensures Step(Step(s, ReadCursor), Fetch) ==
            s.(phase := PageFetched(Cursor(s.file), PageOf(Eligible(s.log), Cursor(s.file), MAX_LIMIT)))
  {
  }

  lemma PostedAndSaved(s: State)
    requires s.phase.PageFetched?
    ensures Step(Step(s, Post(Accepted2xx)), Save) ==
            State(s.log, Some(s.phase.page.nextCursor), Stopped,
                  s.deliveries + [Delivery(s.phase.cursor, s.phase.page, true, true)])
  {
    var d, e := Delivery(s.phase.cursor, s.phase.page, true, false), Delivery(s.phase.cursor, s.phase.page, true, true);
    assert (s.deliveries + [d])[|s.deliveries| := e] == s.deliveries + [e];
  }

  /** The four steps of the protocol, in order, are such a delivery. */
  lemma UndisturbedStepsDeliver(s: State)
    requires s.phase.Stopped?
    ensures Step(Step(Step(Step(s, ReadCursor), Fetch), Post(Accepted2xx)), Save) == Delivered(s)
  {
    FetchedState(s);
    PostedAndSaved(Step(Step(s, ReadCursor), Fetch));
  }

  lemma DeliveredKeepsInv(s: State)
    requires Inv(s) && s.phase.Stopped?
    ensures Inv(Delivered(s))
  {
    StepKeepsInv(s, ReadCursor);
    var s1 := Step(s, ReadCursor);
    StepKeepsInv(s1, Fetch);
    var s2 := Step(s1, Fetch);
    StepKeepsInv(s2, Post(Accepted2xx));
    var s3 := Step(s2, Post(Accepted2xx));
    StepKeepsInv(s3, Save);
    UndisturbedStepsDeliver(s);
  }

  /** Each undisturbed delivery takes a full page, or everything, off what remains. */
  lemma DeliveryMakesProgress(s: State)
    requires Inv(s) && s.phase.Stopped?
    ensures Remaining(Delivered(s)) == if Remaining(s) <= MAX_LIMIT then 0 else Remaining(s) - MAX_LIMIT
  {
    PageLeaves(Eligible(s.log), Cursor(s.file), s.log);
  }

  lemma PageLeaves(table: seq<Event>, cursor: int, log: seq<Event>)
    requires Ordered(log) && table == Eligible(log)
    ensures var n := |After(table, cursor)|;
            |After(table, PageOf(table, cursor, MAX_LIMIT).nextCursor)| == if n <= MAX_LIMIT then 0 else n - MAX_LIMIT
  {
    EligibleOrdered(log);
    PageAdvances(table, cursor, MAX_LIMIT);
    var page := PageOf(table, cursor, MAX_LIMIT);
    assert |page.items| + |After(table, page.nextCursor)| == |After(table, cursor)|;
    var k, n := PageIsStretch(table, cursor, MAX_LIMIT);
  }

  function DeliverTimes(s: State, n: nat): State
    decreases n
  {
    if n == 0 then s else DeliverTimes(Delivered(s), n - 1)
  }

  lemma NothingRemains(s: State)
    requires Inv(s) && Remaining(s) == 0
    ensures SavedItems(s.deliveries) == Eligible(s.log)
  {
    assert After(Eligible(s.log), Cursor(s.file)) == [];
    assert SavedItems(s.deliveries) + [] == SavedItems(s.deliveries);
  }

  /** Enough undisturbed deliveries in a row bring every eligible event to the relay. */
  lemma {:induction false} EventuallyAllDelivered(s: State, n: nat)
    requires Inv(s) && s.phase.Stopped? && Remaining(s) <= n * MAX_LIMIT
    ensures SavedItems(DeliverTimes(s, n).deliveries) == Eligible(s.log)
    decreases n
  {
    if n == 0 {
      NothingRemains(s);
    } else {
      DeliveredKeepsInv(s);
      DeliveryMakesProgress(s);
      EventuallyAllDelivered(Delivered(s), n - 1);
    }
  }

  // ----- The script --------------------------------------------------------------------------------------

  /** One invocation that is killed after `steps` steps, if it gets that far. */
  function Invoke(s: State, steps: nat, outcome: PostOutcome): State {
    var s1 := if steps >= 1 then Step(s, ReadCursor) else s;
    var s2 := if steps >= 2 then Step(s1, Fetch) else s1;
    var s3 := if steps >= 3 then Step(s2, Post(outcome)) else s2;
    var s4 := if steps >= 4 then Step(s3, Save) else s3;
    Step(s4, Crash)
  }

  class Script {
    var file: Option<int>
    var deliveries: seq<Delivery>

    ghost function Data(log: seq<Event>): State
      reads this
    {
      State(log, file, Stopped, deliveries)
    }

    /** `run_once`, killed after some number of its steps (if it gets that far): the
        steps it takes are the first steps of the protocol, in order. */
    method RunOnce(log: seq<Event>, steps: nat, outcome: PostOutcome)
      modifies this
      ensures Data(log) == Invoke(old(Data(log)), steps, outcome)
      ensures file != old(file) ==> steps >= 4 && outcome.Accepted2xx?
    {
      if steps == 0 { return; }
      var cursor := if file.None? then 0 else file.value;
      if steps == 1 { return; }
      var page := PageOf(Eligible(log), cursor, MAX_LIMIT);
      if steps == 2 { return; }
      if outcome.NotReceived? { return; }
      deliveries := deliveries + [Delivery(cursor, page, outcome.Accepted2xx?, false)];
      if outcome.ReceivedButFailed? { return; }
      if steps == 3 { return; }
      file := Some(page.nextCursor);
      deliveries := deliveries[|deliveries| - 1 := deliveries[|deliveries| - 1].(saved := true)];
    }
  }
}
