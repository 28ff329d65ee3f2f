/** Reconciling the answer of the SPAM checker with the numbers asked for.

    The lines arrive already classified: noise, or a report about a number with or
    without a comment that names a source. */
module SpamParser {
  import opened Common
  import opened SpamLedger

  /** A report without a source says that the number is clear. */
  datatype Line = Noise | Report(number: string, source: Option<Source>)

  datatype Status = Ready | MissingStatus | ErrorStatus | Extra

  datatype Parsed = Parsed(number: string, verdict: Verdict, sources: seq<Source>, status: Status, duplicate: bool)

  datatype Item = Item(spam: seq<Source>, clear: bool, count: nat)

  datatype Summary = Summary(requested: nat, received: nat, spam: nat, clear: nat, missing: nat, extra: nat,
                             errors: nat)

  const NO_REPORT := Item([], false, 0)

  /** The strongest source: the first that is not Hiya, else the first. */
  function BestSource(sources: seq<Source>): (r: Option<Source>)
    ensures r.None? <==> sources == []
    ensures r.Some? ==> r.value in sources && (r.value == Hiya <==> !AnyStrong(sources))
  {
    if sources == [] then None
    else if sources[0] != Hiya then Some(sources[0])
    else
      var rest := BestSource(sources[1..]);
      if rest.Some? && rest.value != Hiya then rest else Some(sources[0])
  }

  // ----- The numbers asked for ---------------------------------------------------------------

  function NonEmpty(numbers: seq<string>): (r: seq<string>)
    ensures forall n :: n in r <==> n in numbers && n != ""
  {
    if numbers == [] then []
    else NonEmpty(numbers[..|numbers| - 1]) + (if numbers[|numbers| - 1] == "" then [] else [numbers[|numbers| - 1]])
  }

  function Expected(numbers: seq<string>): seq<string> {
    Distinct(NonEmpty(numbers))
  }

  // ----- What the lines say about a number ---------------------------------------------------

  function Add(item: Item, source: Option<Source>): Item {
    match source
    case Some(s) => item.(spam := item.spam + [s], count := item.count + 1)
    case None => item.(clear := true, count := item.count + 1)
  }

  function ItemOf(lines: seq<Line>, number: string): Item {
    if lines == [] then NO_REPORT
    else
      var before := ItemOf(lines[..|lines| - 1], number);
      match lines[|lines| - 1]
      case Noise => before
      case Report(n, source) => if n == number then Add(before, source) else before
  }

  /** The numbers reported, in the order of their first report. */
  function Found(lines: seq<Line>): seq<string> {
    if lines == [] then []
    else
      var before := Found(lines[..|lines| - 1]);
      match lines[|lines| - 1]
      case Noise => before
      case Report(n, _) => if n in before then before else before + [n]
  }

  function VerdictOf(item: Item): Verdict {
    if item.spam != [] && item.clear then Conflicting else if item.spam != [] then Spam else Clear
  }

  function ExpectedRow(number: string, item: Item): Parsed {
    if item.count == 0 then Parsed(number, Missing, [], MissingStatus, false)
    else if VerdictOf(item) == Clear then Parsed(number, Clear, [], Ready, item.count > 1)
    else Parsed(number, VerdictOf(item), Distinct(item.spam),
                if VerdictOf(item) == Conflicting then ErrorStatus else Ready, item.count > 1)
  }

  function ExtraRow(number: string, item: Item): Parsed {
    Parsed(number, VerdictOf(item), Distinct(item.spam), Extra, item.count > 1)
  }

  function ExpectedRows(lines: seq<Line>, numbers: seq<string>): seq<Parsed> {
    if numbers == [] then []
    else
      var n := |numbers| - 1;
      ExpectedRows(lines, numbers[..n]) + [ExpectedRow(numbers[n], ItemOf(lines, numbers[n]))]
  }

  function ExtraRows(lines: seq<Line>, found: seq<string>, expected: seq<string>): seq<Parsed> {
    if found == [] then []
    else
      var n := |found| - 1;
      ExtraRows(lines, found[..n], expected) +
      (if found[n] in expected then [] else [ExtraRow(found[n], ItemOf(lines, found[n]))])
  }

  function Rows(lines: seq<Line>, numbers: seq<string>): seq<Parsed> {
    var expected := Expected(numbers);
    ExpectedRows(lines, expected) + ExtraRows(lines, Found(lines), expected)
  }

  function Tally(rows: seq<Parsed>, status: Status): nat {
    if rows == [] then 0
    else Tally(rows[..|rows| - 1], status) + (if rows[|rows| - 1].status == status then 1 else 0)
  }

  function TallyReady(rows: seq<Parsed>, verdict: Verdict): nat {
    if rows == [] then 0
    else
      var r := rows[|rows| - 1];
      TallyReady(rows[..|rows| - 1], verdict) + (if r.status == Ready && r.verdict == verdict then 1 else 0)
  }

  function Summarize(rows: seq<Parsed>, numbers: seq<string>): Summary {
    Summary(|Expected(numbers)|, Tally(rows, Ready) + Tally(rows, ErrorStatus), TallyReady(rows, Spam),
            TallyReady(rows, Clear), Tally(rows, MissingStatus), Tally(rows, Extra), Tally(rows, ErrorStatus))
  }

  // ----- The parser ----------------------------------------------------------------------------

  lemma {:induction false} FoundIffReported(lines: seq<Line>, number: string)
    ensures number in Found(lines) <==> ItemOf(lines, number).count > 0
    ensures ItemOf(lines, number).count == 0 <==> ItemOf(lines, number) == NO_REPORT
    ensures ItemOf(lines, number).count > 0 ==> ItemOf(lines, number).spam != [] || ItemOf(lines, number).clear
  {
    if lines != [] {
      FoundIffReported(lines[..|lines| - 1], number);
    }
  }

  /** The dictionary filled line by line holds, for each number found, what all the
      lines say about it. */
  method Collect(lines: seq<Line>) returns (order: seq<string>, found: map<string, Item>)
    ensures order == Found(lines)
    ensures found.Keys == (set n | n in order)
    ensures forall n :: n in found ==> found[n] == ItemOf(lines, n)
  {
    order, found := [], map[];
    var i := 0;
    while i < |lines|
      invariant 0 <= i <= |lines|
      invariant order == Found(lines[..i])
      invariant found.Keys == (set n | n in order)
      invariant forall n :: n in found ==> found[n] == ItemOf(lines[..i], n)
    {
      assert lines[..i + 1][..i] == lines[..i];
      if lines[i].Report? {
        var n := lines[i].number;
        FoundIffReported(lines[..i], n);
        if n !in found {
          order := order + [n];
          found := found[n := NO_REPORT];
        }
        found := found[n := Add(found[n], lines[i].source)];
      }
      i := i + 1;
    }
    assert lines[..i] == lines;
  }

  /** The rows of the numbers asked for, in the order asked. */
  method ReconcileExpected(lines: seq<Line>, expected: seq<string>, found: map<string, Item>)
      returns (rows: seq<Parsed>)
    requires found.Keys == (set n | n in Found(lines))
    requires forall n :: n in found ==> found[n] == ItemOf(lines, n)
    ensures rows == ExpectedRows(lines, expected)
  {
    rows := [];
    var i := 0;
    while i < |expected|
      invariant 0 <= i <= |expected|
      invariant rows == ExpectedRows(lines, expected[..i])
    {
      assert expected[..i + 1][..i] == expected[..i];
      var n := expected[i];
      FoundIffReported(lines, n);
      if n !in found {
        rows := rows + [Parsed(n, Missing, [], MissingStatus, false)];
      } else {
        var item := found[n];
        if item.spam != [] && item.clear {
          rows := rows + [Parsed(n, Conflicting, Distinct(item.spam), ErrorStatus, item.count > 1)];
        } else if item.spam != [] {
          rows := rows + [Parsed(n, Spam, Distinct(item.spam), Ready, item.count > 1)];
        } else {
          rows := rows + [Parsed(n, Clear, [], Ready, item.count > 1)];
        }
      }
      i := i + 1;
    }
    assert expected[..i] == expected;
  }

  /** The rows of the numbers that were found but not asked for. */
  method ListExtras(lines: seq<Line>, expected: seq<string>, order: seq<string>, found: map<string, Item>)
      returns (rows: seq<Parsed>)
    requires found.Keys == (set n | n in order)
    requires forall n :: n in found ==> found[n] == ItemOf(lines, n)
    ensures rows == ExtraRows(lines, order, expected)
  {
    rows := [];
    var k := 0;
    while k < |order|
      invariant 0 <= k <= |order|
      invariant rows == ExtraRows(lines, order[..k], expected)
    {
      assert order[..k + 1][..k] == order[..k];
      var n := order[k];
      if n !in expected {
        var item := found[n];
        var verdict := if item.spam != [] && item.clear then Conflicting else if item.spam != [] then Spam else Clear;
        rows := rows + [Parsed(n, verdict, Distinct(item.spam), Extra, item.count > 1)];
      }
      k := k + 1;
    }
    assert order[..k] == order;
  }

  method ParseResponse(lines: seq<Line>, numbers: seq<string>) returns (rows: seq<Parsed>, summary: Summary)
    ensures rows == Rows(lines, numbers)
    ensures summary == Summarize(rows, numbers)
    ensures forall i :: 0 <= i < |rows| ==> RowSays(lines, numbers, rows[i])
    ensures forall n :: Asked(numbers, n) || Reported(lines, n) ==> exists i :: 0 <= i < |rows| && rows[i].number == n
    ensures forall i, j :: 0 <= i < j < |rows| ==> rows[i].number != rows[j].number
    ensures Counted(numbers, rows, summary)
  {
    forall i | 0 <= i < |Rows(lines, numbers)| ensures RowSays(lines, numbers, Rows(lines, numbers)[i]) {
      RowsSayWhatLinesSay(lines, numbers, i);
    }
    RowsAreComplete(lines, numbers);
    SummaryCounts(lines, numbers);
    var expected := Expected(numbers);
    var order, found := Collect(lines);
    var asked := ReconcileExpected(lines, expected, found);
    var extras := ListExtras(lines, expected, order, found);
    rows := asked + extras;
    summary := Summarize(rows, numbers);
  }

  // ----- What the report says --------------------------------------------------------------------

  predicate Asked(numbers: seq<string>, n: string) {
    n in numbers && n != ""
  }

  predicate Reported(lines: seq<Line>, n: string) {
    exists i :: 0 <= i < |lines| && lines[i].Report? && lines[i].number == n
  }

  /** Some source reports the number as spam. */
  ghost predicate SpamSaid(lines: seq<Line>, n: string) {
    exists s: Source :: Report(n, Some(s)) in lines
  }

  predicate ClearSaid(lines: seq<Line>, n: string) {
    Report(n, None) in lines
  }

  ghost predicate SaidTwice(lines: seq<Line>, n: string) {
    exists i, j :: 0 <= i < j < |lines| && lines[i].Report? && lines[j].Report?
                   && lines[i].number == n && lines[j].number == n
  }

  /** What a row says, in terms of the lines about its number: the verdict is spam, clear or,
      if both are said, conflicting; a number asked for of which nothing is said is missing,
      one not asked for is an extra; the sources are those that report spam, each once. */
  ghost predicate RowSays(lines: seq<Line>, numbers: seq<string>, r: Parsed) {
    var spam, clear, asked := SpamSaid(lines, r.number), ClearSaid(lines, r.number), Asked(numbers, r.number);
    && (asked || spam || clear)
    && (r.verdict == Conflicting <==> spam && clear) && (r.verdict == Spam <==> spam && !clear)
    && (r.verdict == Clear <==> !spam && clear) && (r.verdict == Missing <==> !spam && !clear)
    && (r.status == Extra <==> !asked) && (r.status == MissingStatus <==> asked && !spam && !clear)
    && (r.status == ErrorStatus <==> asked && spam && clear)
    && (forall s :: s in r.sources <==> Report(r.number, Some(s)) in lines)
    && (forall i, j :: 0 <= i < j < |r.sources| ==> r.sources[i] != r.sources[j])
    && (r.duplicate <==> SaidTwice(lines, r.number))
  }

  /** The summary counts numbers asked for, and rows by status and verdict. */
  ghost predicate Counted(numbers: seq<string>, rows: seq<Parsed>, s: Summary) {
    && s.requested == |(set n | n in numbers && n != "")|
    && s.missing == |(set i | 0 <= i < |rows| && rows[i].status == MissingStatus)|
    && s.extra == |(set i | 0 <= i < |rows| && rows[i].status == Extra)|
    && s.errors == |(set i | 0 <= i < |rows| && rows[i].status == ErrorStatus)|
    && s.spam == |(set i | 0 <= i < |rows| && rows[i].status == Ready && rows[i].verdict == Spam)|
    && s.clear == |(set i | 0 <= i < |rows| && rows[i].status == Ready && rows[i].verdict == Clear)|
    && s.received == s.spam + s.clear + s.errors
  }

  lemma {:induction false} CountsReports(lines: seq<Line>, n: string)
    ensures ItemOf(lines, n).count == 0 <==> !Reported(lines, n)
    ensures ItemOf(lines, n).count > 1 <==> SaidTwice(lines, n)
  {
    if lines != [] {
      var k := |lines| - 1;
      CountsReports(lines[..k], n);
      OneMoreReport(lines, n);
    }
  }

  lemma OneMoreReport(lines: seq<Line>, n: string)
    requires lines != []
    ensures var k := |lines| - 1; var about := lines[k].Report? && lines[k].number == n;
            && (Reported(lines, n) <==> Reported(lines[..k], n) || about)
            && (SaidTwice(lines, n) <==> SaidTwice(lines[..k], n) || (Reported(lines[..k], n) && about))
  {
    var k := |lines| - 1;
    if Reported(lines[..k], n) {
      var i :| 0 <= i < k && lines[..k][i].Report? && lines[..k][i].number == n;
      assert lines[i].Report? && lines[i].number == n;
    }
    if SaidTwice(lines[..k], n) {
      var i, j :| 0 <= i < j < k && lines[..k][i].Report? && lines[..k][j].Report?
                  && lines[..k][i].number == n && lines[..k][j].number == n;
      assert lines[i] == lines[..k][i] && lines[j] == lines[..k][j];
    }
    if SaidTwice(lines, n) {
      var i, j :| 0 <= i < j < |lines| && lines[i].Report? && lines[j].Report? && lines[i].number == n
                  && lines[j].number == n;
      assert lines[..k][i] == lines[i];
      if j < k {
        assert lines[..k][j] == lines[j];
      }
    }
    if Reported(lines, n) {
      var i :| 0 <= i < |lines| && lines[i].Report? && lines[i].number == n;
      if i < k {
        assert lines[..k][i] == lines[i];
      }
    }
  }

  lemma SaidBy(lines: seq<Line>, n: string, i: nat)
    requires i < |lines| && lines[i].Report? && lines[i].number == n
    ensures SpamSaid(lines, n) || ClearSaid(lines, n)
  {
    assert lines[i] in lines;
    match lines[i].source {
      case Some(s) => assert lines[i] == Report(n, Some(s));
      case None => assert lines[i] == Report(n, None);
    }
  }

  lemma SaidIsReported(lines: seq<Line>, n: string)
    requires SpamSaid(lines, n) || ClearSaid(lines, n)
    ensures Reported(lines, n)
  {
    var l: Line :| l in lines && l.Report? && l.number == n;
    var i :| 0 <= i < |lines| && lines[i] == l;
  }

  lemma ItemSays(lines: seq<Line>, n: string)
    ensures var item := ItemOf(lines, n);
            && (item.spam != [] <==> SpamSaid(lines, n)) && (item.clear <==> ClearSaid(lines, n))
            && (forall s :: s in item.spam <==> Report(n, Some(s)) in lines)
  {
    var item := ItemOf(lines, n);
    ItemMembers(lines, n);
    if item.spam != [] {
      assert item.spam[0] in item.spam;
    }
  }

  lemma ReportedIff(lines: seq<Line>, n: string)
    ensures Reported(lines, n) <==> SpamSaid(lines, n) || ClearSaid(lines, n)
  {
    if Reported(lines, n) {
      var i :| 0 <= i < |lines| && lines[i].Report? && lines[i].number == n;
      SaidBy(lines, n, i);
    }
    if SpamSaid(lines, n) || ClearSaid(lines, n) {
      SaidIsReported(lines, n);
    }
  }

  lemma ExpectedRowSays(lines: seq<Line>, numbers: seq<string>, n: string)
    requires Asked(numbers, n)
    ensures RowSays(lines, numbers, ExpectedRow(n, ItemOf(lines, n)))
  {
    CountsReports(lines, n);
    ItemSays(lines, n);
    ReportedIff(lines, n);
  }

  lemma ExtraRowSays(lines: seq<Line>, numbers: seq<string>, n: string)
    requires !Asked(numbers, n) && Reported(lines, n)
    ensures RowSays(lines, numbers, ExtraRow(n, ItemOf(lines, n)))
  {
    CountsReports(lines, n);
    ItemSays(lines, n);
    ReportedIff(lines, n);
  }

  lemma RowsSayWhatLinesSay(lines: seq<Line>, numbers: seq<string>, i: nat)
    requires i < |Rows(lines, numbers)|
    ensures RowSays(lines, numbers, Rows(lines, numbers)[i])
  {
    var n := Rows(lines, numbers)[i].number;
    RowOfNumber(lines, numbers, i);
    EachNumberOnce(lines, numbers);
    assert Numbers(Rows(lines, numbers))[i] == n;
    FoundIffReported(lines, n);
    CountsReports(lines, n);
    if Asked(numbers, n) {
      ExpectedRowSays(lines, numbers, n);
    } else {
      ExtraRowSays(lines, numbers, n);
    }
  }

  lemma RowsAreComplete(lines: seq<Line>, numbers: seq<string>)
    ensures var rows := Rows(lines, numbers);
            && (forall n :: Asked(numbers, n) || Reported(lines, n) ==>
                  exists i :: 0 <= i < |rows| && rows[i].number == n)
            && (forall i, j :: 0 <= i < j < |rows| ==> rows[i].number != rows[j].number)
  {
    var rows := Rows(lines, numbers);
    EachNumberOnce(lines, numbers);
    forall n | Asked(numbers, n) || Reported(lines, n) ensures exists i :: 0 <= i < |rows| && rows[i].number == n {
      FoundIffReported(lines, n);
      CountsReports(lines, n);
      assert n in Numbers(rows);
      var i :| 0 <= i < |Numbers(rows)| && Numbers(rows)[i] == n;
      assert rows[i].number == n;
    }
    forall i, j | 0 <= i < j < |rows| ensures rows[i].number != rows[j].number {
      assert Numbers(rows)[i] != Numbers(rows)[j];
    }
  }

  lemma {:induction false} TallyIsCount(rows: seq<Parsed>, status: Status, p: Parsed -> bool)
    requires forall r :: p(r) <==> r.status == status
    ensures Tally(rows, status) == |Positions(rows, p)|
  {
    if rows != [] {
      TallyIsCount(rows[..|rows| - 1], status, p);
      OneMorePosition(rows, p);
    }
  }

  lemma {:induction false} TallyReadyIsCount(rows: seq<Parsed>, verdict: Verdict, p: Parsed -> bool)
    requires forall r :: p(r) <==> r.status == Ready && r.verdict == verdict
    ensures TallyReady(rows, verdict) == |Positions(rows, p)|
  {
    if rows != [] {
      TallyReadyIsCount(rows[..|rows| - 1], verdict, p);
      OneMorePosition(rows, p);
    }
  }

  lemma TallyCounts(rows: seq<Parsed>, status: Status)
    ensures Tally(rows, status) == |(set i | 0 <= i < |rows| && rows[i].status == status)|
  {
    var p := (r: Parsed) => r.status == status;
    TallyIsCount(rows, status, p);
    assert Positions(rows, p) == set i | 0 <= i < |rows| && rows[i].status == status;
  }

  lemma TallyReadyCounts(rows: seq<Parsed>, verdict: Verdict)
    ensures TallyReady(rows, verdict) ==
            |(set i | 0 <= i < |rows| && rows[i].status == Ready && rows[i].verdict == verdict)|
  {
    var p := (r: Parsed) => r.status == Ready && r.verdict == verdict;
    TallyReadyIsCount(rows, verdict, p);
    assert Positions(rows, p) == set i | 0 <= i < |rows| && rows[i].status == Ready && rows[i].verdict == verdict;
  }

  lemma SummaryCounts(lines: seq<Line>, numbers: seq<string>)
    ensures Counted(numbers, Rows(lines, numbers), Summarize(Rows(lines, numbers), numbers))
  {
    var rows := Rows(lines, numbers);
    TallyCounts(rows, MissingStatus);
    TallyCounts(rows, Extra);
    TallyCounts(rows, ErrorStatus);
    TallyReadyCounts(rows, Spam);
    TallyReadyCounts(rows, Clear);
    SummaryAddsUp(lines, numbers);
    CountOfNoRepeats(Expected(numbers));
    assert (set n | n in Expected(numbers)) == (set n | n in numbers && n != "");
  }

  // ----- Every number once ------------------------------------------------------------------------

  function Numbers(rows: seq<Parsed>): (r: seq<string>)
    ensures |r| == |rows| && forall i :: 0 <= i < |rows| ==> r[i] == rows[i].number
  {
    seq(|rows|, i requires 0 <= i < |rows| => rows[i].number)
  }

  lemma {:induction false} ExpectedNumbers(lines: seq<Line>, numbers: seq<string>)
    ensures Numbers(ExpectedRows(lines, numbers)) == numbers
    ensures forall i :: 0 <= i < |numbers| ==>
              ExpectedRows(lines, numbers)[i] == ExpectedRow(numbers[i], ItemOf(lines, numbers[i]))
  {
    if numbers != [] {
      var n := |numbers| - 1;
      ExpectedNumbers(lines, numbers[..n]);
      var rows, row := ExpectedRows(lines, numbers[..n]), ExpectedRow(numbers[n], ItemOf(lines, numbers[n]));
      assert ExpectedRows(lines, numbers) == rows + [row];
      NumbersConcat(rows, [row]);
      assert Numbers([row]) == [numbers[n]] && numbers == numbers[..n] + [numbers[n]];
      assert |rows| == n;
      forall i | 0 <= i < |numbers|
        ensures ExpectedRows(lines, numbers)[i] == ExpectedRow(numbers[i], ItemOf(lines, numbers[i])) {
        if i < n {
          assert numbers[..n][i] == numbers[i] && (rows + [row])[i] == rows[i];
        }
      }
    }
  }

  lemma {:induction false} FoundNoRepeats(lines: seq<Line>)
    ensures NoRepeats(Found(lines))
  {
    if lines != [] {
      FoundNoRepeats(lines[..|lines| - 1]);
    }
  }

  function Except(found: seq<string>, expected: seq<string>): (r: seq<string>)
    ensures forall n :: n in r <==> n in found && n !in expected
  {
    if found == [] then []
    else
      var k := |found| - 1;
      assert found == found[..k] + [found[k]];
      Except(found[..k], expected) + (if found[k] in expected then [] else [found[k]])
  }

  lemma {:induction false} ExceptNoRepeats(found: seq<string>, expected: seq<string>)
    requires NoRepeats(found)
    ensures NoRepeats(Except(found, expected))
  {
    if found != [] {
      var k := |found| - 1;
      ExceptNoRepeats(found[..k], expected);
      assert found[k] !in found[..k];
    }
  }

  lemma {:induction false} ExtraNumbers(lines: seq<Line>, found: seq<string>, expected: seq<string>)
    ensures Numbers(ExtraRows(lines, found, expected)) == Except(found, expected)
    ensures forall i :: 0 <= i < |ExtraRows(lines, found, expected)| ==>
              var r := ExtraRows(lines, found, expected)[i]; r == ExtraRow(r.number, ItemOf(lines, r.number))
  {
    if found != [] {
      var n := found[|found| - 1];
      ExtraNumbers(lines, found[..|found| - 1], expected);
      if n !in expected {
        var rows := ExtraRows(lines, found[..|found| - 1], expected);
        NumbersConcat(rows, [ExtraRow(n, ItemOf(lines, n))]);
        assert Numbers([ExtraRow(n, ItemOf(lines, n))]) == [n];
      }
    }
  }

  lemma NumbersConcat(a: seq<Parsed>, b: seq<Parsed>)
    ensures Numbers(a + b) == Numbers(a) + Numbers(b)
    ensures forall n :: n in Numbers(a + b) <==> n in Numbers(a) || n in Numbers(b)
  {
  }

  lemma NoRepeatsConcat(a: seq<string>, b: seq<string>)
    requires NoRepeats(a) && NoRepeats(b) && forall x :: x in a ==> x !in b
    ensures NoRepeats(a + b)
  {
    forall i, j | 0 <= i < j < |a + b| ensures (a + b)[i] != (a + b)[j] {
      if i < |a| <= j {
        assert a[i] in a && b[j - |a|] in b;
      } else if |a| <= i {
        assert b[i - |a|] != b[j - |a|];
      }
    }
  }

  /** Each number asked for or found has exactly one row, and no other number has one. */
  lemma EachNumberOnce(lines: seq<Line>, numbers: seq<string>)
    ensures NoRepeats(Numbers(Rows(lines, numbers)))
    ensures forall n :: n in Numbers(Rows(lines, numbers)) <==> n in Expected(numbers) || n in Found(lines)
  {
    var expected := Expected(numbers);
    var a, b := ExpectedRows(lines, expected), ExtraRows(lines, Found(lines), expected);
    ExpectedNumbers(lines, expected);
    FoundNoRepeats(lines);
    ExtraNumbers(lines, Found(lines), expected);
    ExceptNoRepeats(Found(lines), expected);
    NumbersConcat(a, b);
    NoRepeatsConcat(Numbers(a), Numbers(b));
  }

  // ----- The summary adds up ------------------------------------------------------------------------

  lemma {:induction false} TallyConcat(a: seq<Parsed>, b: seq<Parsed>, status: Status)
    ensures Tally(a + b, status) == Tally(a, status) + Tally(b, status)
  {
    if b == [] {
      assert a + b == a;
    } else {
      assert (a + b)[..|a + b| - 1] == a + b[..|b| - 1];
      TallyConcat(a, b[..|b| - 1], status);
    }
  }

  lemma {:induction false} AllExtra(rows: seq<Parsed>)
    requires forall i :: 0 <= i < |rows| ==> rows[i].status == Extra
    ensures Tally(rows, Extra) == |rows|
    ensures Tally(rows, Ready) == Tally(rows, ErrorStatus) == Tally(rows, MissingStatus) == 0
  {
    if rows != [] {
      AllExtra(rows[..|rows| - 1]);
    }
  }

  lemma {:induction false} NoneExtra(rows: seq<Parsed>)
    requires forall i :: 0 <= i < |rows| ==> rows[i].status != Extra
    ensures Tally(rows, Ready) + Tally(rows, ErrorStatus) + Tally(rows, MissingStatus) == |rows|
    ensures Tally(rows, Extra) == 0
  {
    if rows != [] {
      NoneExtra(rows[..|rows| - 1]);
    }
  }

  lemma {:induction false} ReadyIsSpamOrClear(rows: seq<Parsed>)
    requires forall i :: 0 <= i < |rows| && rows[i].status == Ready ==>
               rows[i].verdict == Spam || rows[i].verdict == Clear
    ensures TallyReady(rows, Spam) + TallyReady(rows, Clear) == Tally(rows, Ready)
  {
    if rows != [] {
      ReadyIsSpamOrClear(rows[..|rows| - 1]);
    }
  }

  lemma ExpectedRowNotExtra(number: string, item: Item)
    ensures ExpectedRow(number, item).status != Extra
  {
  }

  lemma {:induction false} ExpectedNotExtra(lines: seq<Line>, expected: seq<string>)
    ensures |ExpectedRows(lines, expected)| == |expected|
    ensures forall i :: 0 <= i < |expected| ==> ExpectedRows(lines, expected)[i].status != Extra
  {
    if expected != [] {
      var n := |expected| - 1;
      ExpectedNotExtra(lines, expected[..n]);
      ExpectedRowNotExtra(expected[n], ItemOf(lines, expected[n]));
    }
  }

  /** How the two parts of the output contribute to the tallies. */
  lemma {:induction false} ExpectedPartTally(lines: seq<Line>, expected: seq<string>)
    ensures var a := ExpectedRows(lines, expected);
            Tally(a, Ready) + Tally(a, ErrorStatus) + Tally(a, MissingStatus) == |expected| && Tally(a, Extra) == 0
  {
    ExpectedNotExtra(lines, expected);
    NoneExtra(ExpectedRows(lines, expected));
  }

  lemma ExtraPartTally(lines: seq<Line>, found: seq<string>, expected: seq<string>)
    ensures var b := ExtraRows(lines, found, expected);
            Tally(b, Extra) == |b| && Tally(b, Ready) == Tally(b, ErrorStatus) == Tally(b, MissingStatus) == 0
  {
    ExtraNumbers(lines, found, expected);
    AllExtra(ExtraRows(lines, found, expected));
  }

  lemma PartsTally(lines: seq<Line>, numbers: seq<string>)
    ensures var rows := Rows(lines, numbers);
            && Tally(rows, Ready) + Tally(rows, ErrorStatus) + Tally(rows, MissingStatus) == |Expected(numbers)|
            && Tally(rows, Extra) == |ExtraRows(lines, Found(lines), Expected(numbers))|
  {
    var expected := Expected(numbers);
    var a, b := ExpectedRows(lines, expected), ExtraRows(lines, Found(lines), expected);
    ExpectedPartTally(lines, expected);
    ExtraPartTally(lines, Found(lines), expected);
    TallyConcat(a, b, Ready);
    TallyConcat(a, b, ErrorStatus);
    TallyConcat(a, b, MissingStatus);
    TallyConcat(a, b, Extra);
  }

  lemma ReadyRowsHaveVerdicts(lines: seq<Line>, numbers: seq<string>)
    ensures forall i :: 0 <= i < |Rows(lines, numbers)| && Rows(lines, numbers)[i].status == Ready
              ==> Rows(lines, numbers)[i].verdict == Spam || Rows(lines, numbers)[i].verdict == Clear
  {
    forall i | 0 <= i < |Rows(lines, numbers)| && Rows(lines, numbers)[i].status == Ready
      ensures Rows(lines, numbers)[i].verdict == Spam || Rows(lines, numbers)[i].verdict == Clear
    {
      RowOfNumber(lines, numbers, i);
    }
  }

  lemma ExtrasAreFoundNotExpected(lines: seq<Line>, numbers: seq<string>)
    ensures |ExtraRows(lines, Found(lines), Expected(numbers))| ==
            |(set n | n in Found(lines) && n !in Expected(numbers))|
  {
    var expected := Expected(numbers);
    var b := ExtraRows(lines, Found(lines), expected);
    FoundNoRepeats(lines);
    ExtraNumbers(lines, Found(lines), expected);
    ExceptNoRepeats(Found(lines), expected);
    CountOfNoRepeats(Numbers(b));
    assert (set n | n in Numbers(b)) == (set n | n in Found(lines) && n !in expected);
  }

  /** Requested numbers are received or missing, received ones are spam, clear or in
      error, and the extras are the numbers found that were not asked for. */
  lemma SummaryAddsUp(lines: seq<Line>, numbers: seq<string>)
    ensures var s := Summarize(Rows(lines, numbers), numbers);
            && s.requested == s.received + s.missing
            && s.received == s.spam + s.clear + s.errors
            && s.extra == |(set n | n in Found(lines) && n !in Expected(numbers))|
  {
    PartsTally(lines, numbers);
    ReadyRowsHaveVerdicts(lines, numbers);
    ReadyIsSpamOrClear(Rows(lines, numbers));
    ExtrasAreFoundNotExpected(lines, numbers);
  }

  lemma {:induction false} CountOfNoRepeats(s: seq<string>)
    requires NoRepeats(s)
    ensures |(set n | n in s)| == |s|
  {
    if s != [] {
      var p, last := s[..|s| - 1], s[|s| - 1];
      CountOfNoRepeats(p);
      assert forall n :: n in s <==> n in p || n == last;
      assert (set n | n in s) == (set n | n in p) + {last};
      assert last !in p;
    }
  }

  // ----- Order of the lines ----------------------------------------------------------------------------

  /** What the lines say about a number, apart from the order of its sources. */
  lemma {:induction false} ItemMembers(lines: seq<Line>, number: string)
    ensures forall s :: s in ItemOf(lines, number).spam <==> Report(number, Some(s)) in lines
    ensures ItemOf(lines, number).clear <==> Report(number, None) in lines
  {
    if lines != [] {
      var n := |lines| - 1;
      ItemMembers(lines[..n], number);
      assert forall l :: l in lines <==> l in lines[..n] || l == lines[n];
    }
  }

  lemma {:induction false} CountConcat(a: seq<Line>, b: seq<Line>, number: string)
    ensures ItemOf(a + b, number).count == ItemOf(a, number).count + ItemOf(b, number).count
  {
    if b == [] {
      assert a + b == a;
    } else {
      assert (a + b)[..|a + b| - 1] == a + b[..|b| - 1];
      CountConcat(a, b[..|b| - 1], number);
    }
  }

  lemma Cancel(x: multiset<Line>, y: multiset<Line>, z: multiset<Line>)
    requires x + z == y + z
    ensures x == y
  {
    assert x == (x + z) - z;
    assert y == (y + z) - z;
  }

  lemma WithoutOne(b: seq<Line>, k: nat)
    requires k < |b|
    ensures b == b[..k] + ([b[k]] + b[k + 1..])
    ensures multiset(b) == multiset(b[..k] + b[k + 1..]) + multiset{b[k]}
  {
  }

  lemma {:induction false} CountPermuted(a: seq<Line>, b: seq<Line>, number: string)
    requires multiset(a) == multiset(b)
    ensures ItemOf(a, number).count == ItemOf(b, number).count
  {
    if a == [] {
      assert |multiset(b)| == 0;
    } else {
      var n := |a| - 1;
      var l := a[n];
      assert a == a[..n] + [l];
      assert l in multiset(a);
      assert l in multiset(b);
      var k :| 0 <= k < |b| && b[k] == l;
      var rest := b[..k] + b[k + 1..];
      WithoutOne(b, k);
      assert multiset(a) == multiset(a[..n]) + multiset{l};
      Cancel(multiset(a[..n]), multiset(rest), multiset{l});
      CountPermuted(a[..n], rest, number);
      CountConcat(b[..k], [l] + b[k + 1..], number);
      CountConcat([l], b[k + 1..], number);
      CountConcat(b[..k], b[k + 1..], number);
      CountConcat(a[..n], [l], number);
    }
  }

  /** Two rows for a number that differ at most in the order of their sources. */
  ghost predicate SameFinding(p: Parsed, q: Parsed) {
    && p.number == q.number && p.verdict == q.verdict && p.status == q.status && p.duplicate == q.duplicate
    && forall s :: s in p.sources <==> s in q.sources
  }

  /** Permuting the lines changes no number's verdict, status, duplicate flag or set
      of sources. */
  lemma PermutedLinesSameFindings(a: seq<Line>, b: seq<Line>, number: string)
    requires multiset(a) == multiset(b)
    ensures SameFinding(ExpectedRow(number, ItemOf(a, number)), ExpectedRow(number, ItemOf(b, number)))
    ensures SameFinding(ExtraRow(number, ItemOf(a, number)), ExtraRow(number, ItemOf(b, number)))
    ensures number in Found(a) <==> number in Found(b)
  {
    var x, y := ItemOf(a, number), ItemOf(b, number);
    CountPermuted(a, b, number);
    ItemMembers(a, number);
    ItemMembers(b, number);
    assert forall l :: l in a <==> l in multiset(a);
    assert forall l :: l in b <==> l in multiset(b);
    assert forall s :: s in x.spam <==> s in y.spam;
    assert x.spam != [] ==> x.spam[0] in y.spam;
    assert y.spam != [] ==> y.spam[0] in x.spam;
    FoundIffReported(a, number);
    FoundIffReported(b, number);
  }

  /** Nor does it change what a saved result does to the phone's score. */
  lemma PermutedLinesSameScore(a: seq<Line>, b: seq<Line>, number: string, score: int)
    requires multiset(a) == multiset(b)
    ensures var p, q := ExpectedRow(number, ItemOf(a, number)), ExpectedRow(number, ItemOf(b, number));
            ScoreChange(score, p.verdict, p.sources) == ScoreChange(score, q.verdict, q.sources)
  {
    PermutedLinesSameFindings(a, b, number);
    var p, q := ExpectedRow(number, ItemOf(a, number)), ExpectedRow(number, ItemOf(b, number));
    if AnyStrong(p.sources) {
      var i :| 0 <= i < |p.sources| && p.sources[i] != Hiya;
      assert p.sources[i] in q.sources;
    }
    if AnyStrong(q.sources) {
      var i :| 0 <= i < |q.sources| && q.sources[i] != Hiya;
      assert q.sources[i] in p.sources;
    }
  }

  lemma {:induction false} RowOfNumber(lines: seq<Line>, numbers: seq<string>, i: nat)
    requires i < |Rows(lines, numbers)|
    ensures var r := Rows(lines, numbers)[i];
            r == if r.number in Expected(numbers) then ExpectedRow(r.number, ItemOf(lines, r.number))
                 else ExtraRow(r.number, ItemOf(lines, r.number))
  {
    var expected := Expected(numbers);
    ExpectedNumbers(lines, expected);
    FoundNoRepeats(lines);
    ExtraNumbers(lines, Found(lines), expected);
    var k := |ExpectedRows(lines, expected)|;
    if i >= k {
      assert Numbers(ExtraRows(lines, Found(lines), expected))[i - k]
             in Numbers(ExtraRows(lines, Found(lines), expected));
    }
  }

  /** In the whole output: for every row of one order there is a row of the other
      with the same finding. */
  lemma PermutedLinesSameReport(a: seq<Line>, b: seq<Line>, numbers: seq<string>, i: nat) returns (j: nat)
    requires multiset(a) == multiset(b) && i < |Rows(a, numbers)|
    ensures j < |Rows(b, numbers)| && SameFinding(Rows(a, numbers)[i], Rows(b, numbers)[j])
  {
    var n := Rows(a, numbers)[i].number;
    EachNumberOnce(a, numbers);
    EachNumberOnce(b, numbers);
    PermutedLinesSameFindings(a, b, n);
    assert Numbers(Rows(a, numbers))[i] == n;
    assert n in Numbers(Rows(b, numbers));
    j :| 0 <= j < |Numbers(Rows(b, numbers))| && Numbers(Rows(b, numbers))[j] == n;
    RowOfNumber(a, numbers, i);
    RowOfNumber(b, numbers, j);
  }
}
