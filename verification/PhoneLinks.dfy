/** Purchased phone numbers, their links to routes, and the link history.

    Rows are identified by their position.  `Step` gives the effect of one committed
    repository call; a refused call leaves the tables as they were. */
module PhoneLinks {
  import opened Common

  type Id = nat

  datatype Status = Used | Unused | Unknown

  datatype Phone = Phone(number: string, provider: Option<Id>, status: Status, active: bool,
                         review: bool, problematic: bool, deactivatedAt: Option<int>)

  datatype Link = Link(route: Id, phone: Id, active: bool, removedAt: Option<int>)

  datatype Action = Added | Removed

  datatype Entry = Entry(route: Id, phone: Id, action: Action)

  datatype Tables = Tables(routes: set<Id>, phones: seq<Phone>, links: seq<Link>, history: seq<Entry>)

  /** The fields of a form or import row; `status` is the trimmed lower-case text. */
  datatype PhoneInput = PhoneInput(number: string, provider: Option<Id>, status: string, active: bool,
                                   review: bool, problematic: bool, deactivatedAt: Option<int>, now: int)

  // ----- Normalisation -----------------------------------------------------------

  predicate ValidNumber(s: string) {
    7 <= |s| <= 21 && '1' <= s[0] <= '9' && forall i :: 0 <= i < |s| ==> '0' <= s[i] <= '9'
  }

  predicate LegacyProblem(status: string) {
    status == "blocked" || status == "disabled" || status == "problem"
  }

  function NormalStatus(status: string): Status {
    if status == "used" then Used
    else if status == "unused" || status == "reserved" || status == "free" then Unused
    else Unknown
  }

  /** A number that is not active at its provider is stored as unused. */
  function FinalStatus(input: PhoneInput): Status {
    if input.active then NormalStatus(input.status) else Unused
  }

  function FinalProblematic(input: PhoneInput): bool {
    input.problematic || LegacyProblem(input.status)
  }

  // ----- Reading the tables --------------------------------------------------------

  predicate Linked(links: seq<Link>, route: Id, phone: Id) {
    exists i :: 0 <= i < |links| && links[i].active && links[i].route == route && links[i].phone == phone
  }

  predicate HasActiveLink(links: seq<Link>, phone: Id) {
    exists i :: 0 <= i < |links| && links[i].active && links[i].phone == phone
  }

  predicate NumberTaken(phones: seq<Phone>, number: string, exceptId: int) {
    exists i :: 0 <= i < |phones| && i != exceptId && phones[i].number == number
  }

  // ----- Closing links -------------------------------------------------------------

  function ClosedLink(l: Link, at: int): Link {
    l.(active := false, removedAt := Some(at))
  }

  /** All active links of a phone, closed at once. */
  function WithoutPhone(links: seq<Link>, phone: Id, at: int): (r: seq<Link>)
    ensures |r| == |links|
  {
    seq(|links|, i requires 0 <= i < |links| =>
      if links[i].active && links[i].phone == phone then ClosedLink(links[i], at) else links[i])
  }

  /** The history rows written for them, in link order. */
  function PhoneRemovals(links: seq<Link>, phone: Id): seq<Entry> {
    if links == [] then []
    else
      var l := links[|links| - 1];
      var earlier := PhoneRemovals(links[..|links| - 1], phone);
      if l.active && l.phone == phone then earlier + [Entry(l.route, l.phone, Removed)] else earlier
  }

  /** The tables after the chosen links of a route have been taken in turn; an id
      that is not (or no longer) an active link of the route is passed over. */
  function AfterRemovals(t: Tables, route: Id, ids: seq<Id>, at: int): Tables {
    if ids == [] then t
    else
      var before := AfterRemovals(t, route, ids[..|ids| - 1], at);
      var i := ids[|ids| - 1];
      if Removable(before.links, route, i)
      then before.(links := before.links[i := ClosedLink(before.links[i], at)],
                   history := before.history + [Entry(route, before.links[i].phone, Removed)])
      else before
  }

  predicate Removable(links: seq<Link>, route: Id, i: Id) {
    i < |links| && links[i].active && links[i].route == route
  }

  // ----- Calls ---------------------------------------------------------------------

  datatype Call =
    | CreatePhone(input: PhoneInput)
    | UpdatePhone(phone: Id, input: PhoneInput)
    | ImportPhone(phone: Id, input: PhoneInput)
    | AddLink(route: Id, phone: Id)
    | RemoveLinks(route: Id, links: seq<Id>, at: int)
    | FlagSpam(phone: Id)
    | EditRoutes(routes: set<Id>)

  predicate UpdateAccepted(t: Tables, phone: Id, input: PhoneInput) {
    && phone < |t.phones|
    && ValidNumber(input.number)
    && (input.provider.None? ==> UpdatedReview(t, phone, input))
    && !NumberTaken(t.phones, input.number, phone)
  }

  /** The review flag is kept up by the form, by reactivation and by problems. */
  predicate UpdatedReview(t: Tables, phone: Id, input: PhoneInput)
    requires phone < |t.phones|
  {
    input.review || (input.active && !t.phones[phone].active) || FinalProblematic(input)
  }

  function UpdatedPhone(t: Tables, phone: Id, input: PhoneInput): Phone
    requires phone < |t.phones|
  {
    var existing := t.phones[phone];
    Phone(input.number, input.provider, FinalStatus(input), input.active,
          UpdatedReview(t, phone, input), FinalProblematic(input),
          if !input.active && existing.deactivatedAt.None?
          then (if input.deactivatedAt.Some? then input.deactivatedAt else Some(input.now))
          else existing.deactivatedAt)
  }

  predicate KeepsLinks(input: PhoneInput) {
    input.active && FinalStatus(input) == Used
  }

  function AfterUpdate(t: Tables, phone: Id, input: PhoneInput): Tables
    requires phone < |t.phones|
  {
    t.(phones := t.phones[phone := UpdatedPhone(t, phone, input)],
       links := if KeepsLinks(input) then t.links else WithoutPhone(t.links, phone, input.now),
       history := if KeepsLinks(input) then t.history else t.history + PhoneRemovals(t.links, phone))
  }

  /** An import row over an existing number: problems and review flags are not lost,
      and a problematic number that stays active and linked stays in use. */
  function ImportInput(t: Tables, phone: Id, input: PhoneInput): PhoneInput
    requires phone < |t.phones|
  {
    var existing := t.phones[phone];
    var problematic := input.problematic || existing.problematic;
    input.(problematic := problematic,
           review := input.review || existing.review,
           status := if problematic && input.active && HasActiveLink(t.links, phone) then "used" else input.status,
           deactivatedAt := if !input.active && existing.deactivatedAt.None? then Some(input.now)
                            else existing.deactivatedAt)
  }

  predicate Accepted(t: Tables, call: Call) {
    match call
    case CreatePhone(input) => ValidNumber(input.number) && !NumberTaken(t.phones, input.number, -1)
    case UpdatePhone(p, input) => UpdateAccepted(t, p, input)
    case ImportPhone(p, input) =>
      p < |t.phones| && t.phones[p].number == input.number && UpdateAccepted(t, p, ImportInput(t, p, input))
    case AddLink(route, p) =>
      p < |t.phones| && t.phones[p].active && !Linked(t.links, route, p) && route in t.routes
    case RemoveLinks(_, _, _) => true
    case FlagSpam(p) => p < |t.phones|
    case EditRoutes(_) => true
  }

  function Effect(t: Tables, call: Call): Tables
    requires Accepted(t, call)
  {
    match call
    case CreatePhone(input) =>
      t.(phones := t.phones + [Phone(input.number, input.provider, FinalStatus(input), input.active,
                                     input.review || FinalProblematic(input), FinalProblematic(input),
                                     if !input.active && input.deactivatedAt.None? then Some(input.now)
                                     else input.deactivatedAt)])
    case UpdatePhone(p, input) => AfterUpdate(t, p, input)
    case ImportPhone(p, input) => AfterUpdate(t, p, ImportInput(t, p, input))
    case AddLink(route, p) =>
      t.(phones := t.phones[p := t.phones[p].(status := Used)],
         links := t.links + [Link(route, p, true, None)],
         history := t.history + [Entry(route, p, Added)])
    case RemoveLinks(route, ids, at) => AfterRemovals(t, route, ids, at)
    case FlagSpam(p) => t.(phones := t.phones[p := t.phones[p].(problematic := true, review := true)])
    case EditRoutes(routes) => t.(routes := routes)
  }

  function Step(t: Tables, call: Call): Tables {
    if Accepted(t, call) then Effect(t, call) else t
  }

  function Run(t: Tables, calls: seq<Call>): Tables {
    if calls == [] then t else Step(Run(t, calls[..|calls| - 1]), calls[|calls| - 1])
  }

  const EMPTY := Tables({}, [], [], [])
}
