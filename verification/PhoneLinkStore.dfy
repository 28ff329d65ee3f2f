/** The repository methods that write phones and links, loops included.

    Each is proved against `Step`: refused exactly when not `Accepted`, without
    effect when refused, and with exactly the stated effect otherwise. */
module PhoneLinkStore {
  import opened Common
  import opened PhoneLinks
  import opened PhoneLinkProofs
  import opened PhoneMeaning

  class Store {
    var routes: set<Id>
    var phones: seq<Phone>
    var links: seq<Link>
    var history: seq<Entry>

    ghost function Data(): Tables
      reads this
    {
      Tables(routes, phones, links, history)
    }

    constructor ()
      ensures Data() == EMPTY
    {
      routes, phones, links, history := {}, [], [], [];
    }

    method CreatePhone(input: PhoneInput) returns (r: Result<Id>)
      modifies this`phones
      ensures r.Ok? <==> Accepted(old(Data()), Call.CreatePhone(input))
      ensures Data() == Step(old(Data()), Call.CreatePhone(input))
      ensures r.Ok? ==> r.value == old(|phones|)
      ensures r.Ok? <==> WellFormed(input.number) && !Taken(old(phones), input.number, None)
      ensures r.Ok? ==> |phones| == old(|phones|) + 1 && old(phones) <= phones && RowCreated(phones[r.value], input)
    {
      CreationMeans(Data(), input);
      if !ValidNumber(input.number) { return Refused; }
      var problematic := input.problematic || LegacyProblem(input.status);
      var status := NormalStatus(input.status);
      if !input.active { status := Unused; }
      var review := input.review || problematic;
      var deactivatedAt := input.deactivatedAt;
      if !input.active && deactivatedAt.None? { deactivatedAt := Some(input.now); }
      if NumberTaken(phones, input.number, -1) { return Refused; }
      phones := phones + [Phone(input.number, input.provider, status, input.active,
                                review, problematic, deactivatedAt)];
      return Ok(|phones| - 1);
    }

    method AddLink(route: Id, phone: Id) returns (r: Result<Id>)
      modifies this`phones, this`links, this`history
      ensures r.Ok? <==> Accepted(old(Data()), Call.AddLink(route, phone))
      ensures Data() == Step(old(Data()), Call.AddLink(route, phone))
      ensures r.Ok? ==> r.value == old(|links|)
      ensures r.Ok? <==>
              && phone < old(|phones|) && old(phones)[phone].active && route in routes
              && !exists i :: 0 <= i < old(|links|) && old(links)[i].active
                              && old(links)[i].route == route && old(links)[i].phone == phone
      ensures r.Ok? ==> links == old(links) + [Link(route, phone, true, None)]
      ensures r.Ok? ==> history == old(history) + [Entry(route, phone, Added)]
      ensures r.Ok? ==> phones == old(phones)[phone := old(phones)[phone].(status := Used)]
    {
      if phone >= |phones| { return Refused; }
      if !phones[phone].active { return Refused; }
      if Linked(links, route, phone) { return Refused; }
      var saved := phones;
      if phones[phone].status != Used {
        phones := phones[phone := phones[phone].(status := Used)];
      }
      if route !in routes {
        phones := saved;
        return Refused;
      }
      links := links + [Link(route, phone, true, None)];
      history := history + [Entry(route, phone, Added)];
      return Ok(|links| - 1);
    }

    /** Looks the phone up by number; the number identifies at most one. */
    method AddLinkByNumber(route: Id, number: string) returns (r: Result<Id>)
      modifies this`phones, this`links, this`history
      ensures r.Ok? ==> WellFormed(number)
      ensures r.Ok? ==> exists p :: 0 <= p < old(|phones|) && old(phones)[p].number == number
                                    && Accepted(old(Data()), Call.AddLink(route, p))
                                    && Data() == Step(old(Data()), Call.AddLink(route, p))
      ensures r.Refused? ==> Data() == old(Data())
      ensures r.Refused? && ValidNumber(number) && old(PhonesOk(phones)) ==>
                forall p :: 0 <= p < old(|phones|) && old(phones)[p].number == number
                  ==> !Accepted(old(Data()), Call.AddLink(route, p))
    {
      WellFormedIff(number);
      if !ValidNumber(number) { return Refused; }
      var p := 0;
      while p < |phones| && phones[p].number != number
        invariant p <= |phones|
        invariant forall q :: 0 <= q < p ==> phones[q].number != number
      {
        p := p + 1;
      }
      if p == |phones| { return Refused; }
      if Linked(links, route, p) { return Refused; }
      r := AddLink(route, p);
    }

    /** The number returned is the number of links closed, however often an id is
        repeated. */
    method RemoveLinks(route: Id, ids: seq<Id>, at: int) returns (removed: nat)
      modifies this`links, this`history
      ensures Data() == Step(old(Data()), Call.RemoveLinks(route, ids, at))
      ensures removed == |Chosen(old(Data()), route, ids)|
      ensures removed == |history| - old(|history|)
      ensures |links| == old(|links|)
      ensures forall i :: 0 <= i < |links| ==>
                var was := old(links)[i];
                links[i] == if i in ids && was.active && was.route == route then Link(route, was.phone, false, Some(at))
                            else was
    {
      removed := 0;
      var k := 0;
      while k < |ids|
        invariant 0 <= k <= |ids|
        invariant Data() == AfterRemovals(old(Data()), route, ids[..k], at)
        invariant |history| == old(|history|) + removed
      {
        var i := ids[k];
        assert ids[..k + 1][..k] == ids[..k];
        if i < |links| && links[i].active && links[i].route == route {
          var phone := links[i].phone;
          links := links[i := links[i].(active := false, removedAt := Some(at))];
          history := history + [Entry(route, phone, Removed)];
          removed := removed + 1;
        }
        k := k + 1;
      }
      assert ids[..k] == ids;
      RemovalsCloseTheChosen(old(Data()), route, ids, at);
    }

    method UpdatePhone(phone: Id, input: PhoneInput) returns (r: Result<()>)
      modifies this`phones, this`links, this`history
      ensures r.Ok? <==> Accepted(old(Data()), Call.UpdatePhone(phone, input))
      ensures Data() == Step(old(Data()), Call.UpdatePhone(phone, input))
      ensures r.Ok? <==> MayUpdate(old(Data()), phone, input)
      ensures r.Ok? ==> |phones| == old(|phones|) && RowUpdated(old(phones)[phone], phones[phone], input)
      ensures r.Ok? ==> forall p :: 0 <= p < |phones| && p != phone ==> phones[p] == old(phones)[p]
      ensures r.Ok? ==> (phones[phone].status == Used <==> input.active && input.status == "used")
      ensures r.Ok? ==> LinksFollow(old(Data()), Data(), phone, input.now)
      ensures r.Ok? && phones[phone].status != Used ==>
                forall i :: 0 <= i < |links| && links[i].phone == phone ==> !links[i].active
    {
      UpdateAcceptedIff(Data(), phone, input);
      ghost var before := Data();
      r := WriteUpdate(phone, input);
      if r.Ok? {
        UpdateMeans(before, phone, input);
      }
    }

    /** The statements of the update, in their order. */
    method WriteUpdate(phone: Id, input: PhoneInput) returns (r: Result<()>)
      modifies this`phones, this`links, this`history
      ensures r.Ok? <==> Accepted(old(Data()), Call.UpdatePhone(phone, input))
      ensures Data() == Step(old(Data()), Call.UpdatePhone(phone, input))
    {
      if phone >= |phones| { return Refused; }
      var existing := phones[phone];
      if !ValidNumber(input.number) { return Refused; }
      var forcedReview := input.active && !existing.active;
      var problematic := input.problematic || LegacyProblem(input.status);
      var review := input.review || forcedReview || problematic;
      if input.provider.None? && !review { return Refused; }
      var status := NormalStatus(input.status);
      if !input.active { status := Unused; }
      if NumberTaken(phones, input.number, phone) { return Refused; }
      var deactivatedAt := existing.deactivatedAt;
      if !input.active && deactivatedAt.None? {
        deactivatedAt := if input.deactivatedAt.Some? then input.deactivatedAt else Some(input.now);
      }
      phones := phones[phone := Phone(input.number, input.provider, status, input.active,
                                      review, problematic, deactivatedAt)];
      if !input.active || status != Used {
        CloseLinksOf(phone, input.now);
      }
      return Ok(());
    }

    /** The loop that closes the active links of a phone taken out of use. */
    method CloseLinksOf(phone: Id, at: int)
      modifies this`links, this`history
      ensures links == WithoutPhone(old(links), phone, at)
      ensures history == old(history) + PhoneRemovals(old(links), phone)
    {
      WithoutPhoneDone(links, phone, at);
      ghost var before := links;
      var i := 0;
      while i < |links|
        invariant 0 <= i <= |links| == |before|
        invariant links == WithoutPhoneUpTo(before, phone, i, at)
        invariant history == old(history) + PhoneRemovals(before[..i], phone)
      {
        CloseNext(before, phone, i, at);
        var link := links[i];
        if link.active && link.phone == phone {
          links := links[i := link.(active := false, removedAt := Some(at))];
          history := history + [Entry(link.route, link.phone, Removed)];
        }
        i := i + 1;
      }
    }

    method ImportPhone(phone: Id, input: PhoneInput) returns (r: Result<()>)
      modifies this`phones, this`links, this`history
      ensures r.Ok? <==> Accepted(old(Data()), Call.ImportPhone(phone, input))
      ensures Data() == Step(old(Data()), Call.ImportPhone(phone, input))
      ensures r.Ok? <==> MayImport(old(Data()), phone, input)
      ensures r.Ok? ==> |phones| == old(|phones|) && RowImported(old(Data()), phone, phones[phone], input)
      ensures r.Ok? ==> forall p :: 0 <= p < |phones| && p != phone ==> phones[p] == old(phones)[p]
      ensures r.Ok? ==> LinksFollow(old(Data()), Data(), phone, input.now)
    {
      ImportAcceptedIff(Data(), phone, input);
      ghost var before := Data();
      r := WriteImport(phone, input);
      if r.Ok? {
        ImportMeans(before, phone, input);
      }
    }

    /** What an import row over an existing phone hands on to the update. */
    method WriteImport(phone: Id, input: PhoneInput) returns (r: Result<()>)
      modifies this`phones, this`links, this`history
      ensures r.Ok? <==> Accepted(old(Data()), Call.ImportPhone(phone, input))
      ensures Data() == Step(old(Data()), Call.ImportPhone(phone, input))
    {
      if phone >= |phones| || phones[phone].number != input.number { return Refused; }
      var existing := phones[phone];
      var data := input.(problematic := input.problematic || existing.problematic);
      if data.problematic && data.active && HasActiveLink(links, phone) {
        data := data.(status := "used");
      }
      data := data.(review := data.review || existing.review);
      var deactivatedAt := existing.deactivatedAt;
      if !data.active && deactivatedAt.None? {
        deactivatedAt := Some(data.now);
      }
      data := data.(deactivatedAt := deactivatedAt);
      r := WriteUpdate(phone, data);
    }
  }
}
