/** What the calls on phones and links are for, said field by field of the tables before
    and after them. */
module PhoneMeaning {
  import opened Common
  import opened PhoneLinks

  // ----- The row of a phone -----------------------------------------------------------

  /** A number has seven to twenty-one digits and does not begin with zero. */
  predicate WellFormed(number: string) {
    && 7 <= |number| <= 21 && number[0] != '0'
    && forall c :: c in number ==> c in "0123456789"
  }

  lemma WellFormedIff(number: string)
    ensures ValidNumber(number) <==> WellFormed(number)
  {
    if ValidNumber(number) {
      forall c | c in number ensures c in "0123456789" {
        IsDigit(c);
      }
    }
    if WellFormed(number) {
      forall i | 0 <= i < |number| ensures '0' <= number[i] <= '9' {
        assert number[i] in number;
        IsDigit(number[i]);
      }
    }
  }

  lemma IsDigit(c: char)
    ensures c in "0123456789" <==> '0' <= c <= '9'
  {
    var digits := "0123456789";
    if '0' <= c <= '9' {
      assert digits[c as int - '0' as int] == c;
    }
  }

  /** Whether some row other than the phone's own has the number. */
  predicate Taken(phones: seq<Phone>, number: string, own: Option<Id>) {
    exists i: nat :: i < |phones| && Some(i) != own && phones[i].number == number
  }

  lemma TakenIff(phones: seq<Phone>, number: string, own: Option<Id>)
    ensures NumberTaken(phones, number, if own.Some? then own.value else -1) <==> Taken(phones, number, own)
  {
  }

  /** A problem is reported by the flag or by one of the old status words. */
  predicate Problem(input: PhoneInput) {
    input.problematic || input.status in {"blocked", "disabled", "problem"}
  }

  /** The status stored: in use for an active phone submitted as used, unused for an
      inactive one or one submitted as unused, reserved or free, otherwise unknown. */
  predicate StatusAsSubmitted(status: Status, active: bool, text: string) {
    && (status == Used <==> active && text == "used")
    && (status == Unused <==> !active || text in {"unused", "reserved", "free"})
  }

  /** The row that a creation stores. */
  predicate RowCreated(row: Phone, input: PhoneInput) {
    && row.number == input.number && row.provider == input.provider && row.active == input.active
    && StatusAsSubmitted(row.status, input.active, input.status)
    && (row.problematic <==> Problem(input))
    && (row.review <==> input.review || Problem(input))
    && (input.active || input.deactivatedAt.Some? ==> row.deactivatedAt == input.deactivatedAt)
    && (!input.active && input.deactivatedAt.None? ==> row.deactivatedAt == Some(input.now))
  }

  /** The row that an update leaves: reactivation and problems ask for a review, and the
      first deactivation is dated. */
  predicate RowUpdated(was: Phone, row: Phone, input: PhoneInput) {
    && row.number == input.number && row.provider == input.provider && row.active == input.active
    && StatusAsSubmitted(row.status, input.active, input.status)
    && (row.problematic <==> Problem(input))
    && (row.review <==> input.review || (input.active && !was.active) || Problem(input))
    && (input.active || was.deactivatedAt.Some? ==> row.deactivatedAt == was.deactivatedAt)
    && (!input.active && was.deactivatedAt.None? ==>
          row.deactivatedAt == Some(if input.deactivatedAt.Some? then input.deactivatedAt.value else input.now))
  }

  predicate MayUpdate(t: Tables, phone: Id, input: PhoneInput) {
    && phone < |t.phones| && WellFormed(input.number) && !Taken(t.phones, input.number, Some(phone))
    && (input.provider.Some? || input.review || (input.active && !t.phones[phone].active) || Problem(input))
  }

  /** The row that an import row leaves: what was a problem or under review stays so, and a
      problematic active phone with a link stays in use. */
  predicate RowImported(t: Tables, phone: Id, row: Phone, input: PhoneInput)
    requires phone < |t.phones|
  {
    var was := t.phones[phone];
    var problem := Problem(input) || was.problematic;
    && row.number == input.number && row.provider == input.provider && row.active == input.active
    && (if KeptInUse(t, phone, input) then row.status == Used
        else StatusAsSubmitted(row.status, input.active, input.status))
    && (row.problematic <==> problem)
    && (row.review <==> input.review || was.review || (input.active && !was.active) || problem)
    && (input.active || was.deactivatedAt.Some? ==> row.deactivatedAt == was.deactivatedAt)
    && (!input.active && was.deactivatedAt.None? ==> row.deactivatedAt == Some(input.now))
  }

  predicate KeptInUse(t: Tables, phone: Id, input: PhoneInput)
    requires phone < |t.phones|
  {
    && input.active && (input.problematic || t.phones[phone].problematic)
    && exists i :: 0 <= i < |t.links| && t.links[i].active && t.links[i].phone == phone
  }

  predicate MayImport(t: Tables, phone: Id, input: PhoneInput) {
    && phone < |t.phones| && t.phones[phone].number == input.number
    && WellFormed(input.number) && !Taken(t.phones, input.number, Some(phone))
    && (input.provider.Some? || input.review || t.phones[phone].review || (input.active && !t.phones[phone].active)
        || Problem(input) || t.phones[phone].problematic)
  }

  // ----- The links of a phone taken out of use -------------------------------------------

  /** Every active link of the phone is closed and dated; nothing else changes. */
  predicate LinksClosed(before: seq<Link>, after: seq<Link>, phone: Id, at: int) {
    && |after| == |before|
    && forall i :: 0 <= i < |before| ==>
         after[i] == if before[i].active && before[i].phone == phone then Link(before[i].route, phone, false, Some(at))
                     else before[i]
  }

  /** The positions of the phone's active links, in order. */
  ghost predicate ActiveLinks(links: seq<Link>, phone: Id, positions: seq<nat>) {
    && (forall j, k :: 0 <= j < k < |positions| ==> positions[j] < positions[k])
    && (forall k :: 0 <= k < |positions| ==>
          positions[k] < |links| && links[positions[k]].active && links[positions[k]].phone == phone)
    && (forall i: nat :: i < |links| && links[i].active && links[i].phone == phone ==> i in positions)
  }

  /** One removal for each of these links, in order. */
  ghost predicate OneRemovalEach(entries: seq<Entry>, links: seq<Link>, phone: Id, positions: seq<nat>) {
    && |entries| == |positions|
    && forall k :: 0 <= k < |positions| ==>
         positions[k] < |links| && entries[k] == Entry(links[positions[k]].route, phone, Removed)
  }

  /** The history grows by one removal for each link closed, and by nothing else. */
  ghost predicate RemovalsRecorded(links: seq<Link>, before: seq<Entry>, after: seq<Entry>, phone: Id) {
    && before <= after
    && exists positions: seq<nat> ::
         ActiveLinks(links, phone, positions) && OneRemovalEach(after[|before|..], links, phone, positions)
  }

  /** A phone in use keeps its links; any other loses them. */
  ghost predicate LinksFollow(before: Tables, after: Tables, phone: Id, at: int)
    requires phone < |after.phones|
  {
    if after.phones[phone].status == Used
    then after.links == before.links && after.history == before.history
    else LinksClosed(before.links, after.links, phone, at)
         && RemovalsRecorded(before.links, before.history, after.history, phone)
  }

  /** Read off the first links: which of them are active links of the phone, and the removals
      recorded for these. */
  lemma {:induction false} RemovalsUpTo(links: seq<Link>, phone: Id, n: nat, p: nat -> bool)
    requires n <= |links| && forall i: nat :: i < |links| ==> (p(i) <==> links[i].active && links[i].phone == phone)
    ensures OneRemovalEach(PhoneRemovals(links[..n], phone), links, phone, PositionsUpTo(n, p))
  {
    if n > 0 {
      RemovalsUpTo(links, phone, n - 1, p);
      assert links[..n][..n - 1] == links[..n - 1];
    }
  }

  lemma RemovalPositions(links: seq<Link>, phone: Id) returns (positions: seq<nat>)
    ensures ActiveLinks(links, phone, positions) && OneRemovalEach(PhoneRemovals(links, phone), links, phone, positions)
  {
    var p := (i: nat) => i < |links| && links[i].active && links[i].phone == phone;
    positions := PositionsUpTo(|links|, p);
    RemovalsUpTo(links, phone, |links|, p);
    assert links[..|links|] == links;
    forall i: nat | i < |links| && links[i].active && links[i].phone == phone ensures i in positions {
      AllUpTo(|links|, p, i);
    }
  }

  lemma RemovalsAreRecorded(links: seq<Link>, history: seq<Entry>, phone: Id)
    ensures RemovalsRecorded(links, history, history + PhoneRemovals(links, phone), phone)
  {
    var positions := RemovalPositions(links, phone);
    assert (history + PhoneRemovals(links, phone))[|history|..] == PhoneRemovals(links, phone);
  }

  // ----- What the calls do ------------------------------------------------------------------

  lemma CreationMeans(t: Tables, input: PhoneInput)
    ensures Accepted(t, CreatePhone(input)) <==> WellFormed(input.number) && !Taken(t.phones, input.number, None)
    ensures Accepted(t, CreatePhone(input)) ==>
              var after := Effect(t, CreatePhone(input));
              && |after.phones| == |t.phones| + 1 && t.phones <= after.phones
              && RowCreated(after.phones[|t.phones|], input)
              && after == t.(phones := after.phones)
  {
    WellFormedIff(input.number);
    TakenIff(t.phones, input.number, None);
  }

  lemma UpdateAcceptedIff(t: Tables, phone: Id, input: PhoneInput)
    ensures UpdateAccepted(t, phone, input) <==> MayUpdate(t, phone, input)
  {
    WellFormedIff(input.number);
    TakenIff(t.phones, input.number, Some(phone));
  }

  lemma UpdateMeans(t: Tables, phone: Id, input: PhoneInput)
    requires phone < |t.phones|
    ensures var after := AfterUpdate(t, phone, input);
            && |after.phones| == |t.phones| && RowUpdated(t.phones[phone], after.phones[phone], input)
            && (forall p :: 0 <= p < |t.phones| && p != phone ==> after.phones[p] == t.phones[p])
            && LinksFollow(t, after, phone, input.now)
  {
    RemovalsAreRecorded(t.links, t.history, phone);
  }

  lemma ImportAcceptedIff(t: Tables, phone: Id, input: PhoneInput)
    ensures Accepted(t, ImportPhone(phone, input)) <==> MayImport(t, phone, input)
  {
    if phone < |t.phones| {
      UpdateAcceptedIff(t, phone, ImportInput(t, phone, input));
    }
  }

  lemma ImportMeans(t: Tables, phone: Id, input: PhoneInput)
    requires Accepted(t, ImportPhone(phone, input))
    ensures var after := Effect(t, ImportPhone(phone, input));
            && |after.phones| == |t.phones| && RowImported(t, phone, after.phones[phone], input)
            && (forall p :: 0 <= p < |t.phones| && p != phone ==> after.phones[p] == t.phones[p])
            && LinksFollow(t, after, phone, input.now)
  {
    UpdateMeans(t, phone, ImportInput(t, phone, input));
  }
}
