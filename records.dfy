/** The records the back end returns, as the pages read them. A relation or field that may be
    missing (`service`, `instructor.user`, `schedule`, `review`, a time stamp) is an Option.
    Instants are integers (milliseconds); an absent or unparsable time stamp is None and stands
    for JavaScript's invalid date, which every comparison treats as false. A JSON `null` is
    passed as Some(0): `new Date(null)` is instant 0 and `null` counts as 0 in arithmetic. */
module Records {
  import opened Wrappers
  import opened Text
  import opened Seqs

  /** An account: customer, instructor or administrator. */
  datatype Person = Person(id: int, name: string, email: string, role: string)

  /** A class offered by the studio. `duration` and `durationMinutes` are two separate fields of
      the record; the schedule form reads one for labels and the other for arithmetic. Either
      may be absent from the record (None). */
  datatype Service = Service(id: int, name: string, price: Option<int>, duration: Option<int>, durationMinutes: Option<int>)

  datatype Instructor = Instructor(id: int, user: Option<Person>, service: Option<Service>, serviceId: Option<int>)

  /** One occurrence of a class. */
  datatype Schedule = Schedule(
    id: int,
    serviceId: int,
    service: Option<Service>,
    instructor: Option<Instructor>,
    startTime: Option<int>,
    endTime: Option<int>,
    totalCapacity: Option<int>,
    remainingSlots: Option<int>)

  datatype Review = Review(id: int, rating: int, createdAt: Option<int>)

  datatype Booking = Booking(
    id: int,
    bookingCode: Option<string>,
    status: string,
    user: Option<Person>,
    schedule: Option<Schedule>,
    review: Option<Review>)

  // ---------------------------------------------------------------------------
  // Comparisons of possibly invalid instants with a valid one
  // ---------------------------------------------------------------------------

  /** `new Date(t) >= now`. */
  predicate AtOrAfter(t: Option<int>, now: int) { t.Some? && t.value >= now }
  /** `new Date(t) > now`. */
  predicate After(t: Option<int>, now: int) { t.Some? && t.value > now }
  /** `new Date(t) < now`. */
  predicate Before(t: Option<int>, now: int) { t.Some? && t.value < now }
  /** `new Date(t) <= now`. */
  predicate AtOrBefore(t: Option<int>, now: int) { t.Some? && t.value <= now }

  /** Only a valid instant is on either side of `now`: the two tests split valid instants and
      both fail on an invalid one. */
  lemma TimeSplit(t: Option<int>, now: int)
    ensures AtOrAfter(t, now) != Before(t, now) <==> t.Some?
    ensures After(t, now) != AtOrBefore(t, now) <==> t.Some?
  {
  }

  /** The time filter of the administration lists and the instructor dashboard: 'upcoming'
      keeps instants at or after `now`, 'past' those before it, any other value keeps all. */
  function TimeMatches(filter: string, start: Option<int>, now: int): bool {
    if filter == "upcoming" then AtOrAfter(start, now)
    else if filter == "past" then Before(start, now)
    else true
  }

  /** 'upcoming' and 'past' split the valid instants between them; an invalid one is in
      neither; every other filter value keeps everything. */
  lemma TimeFiltersSplit(filter: string, start: Option<int>, now: int)
    ensures start.Some? ==> TimeMatches("upcoming", start, now) != TimeMatches("past", start, now)
    ensures start.None? ==> !TimeMatches("upcoming", start, now) && !TimeMatches("past", start, now)
    ensures filter != "upcoming" && filter != "past" ==> TimeMatches(filter, start, now)
  {
  }

  // ---------------------------------------------------------------------------
  // Navigating optional relations
  // ---------------------------------------------------------------------------

  /** `booking.schedule?.start_time`. */
  function BookingStart(b: Booking): Option<int> {
    if b.schedule.Some? then b.schedule.value.startTime else None
  }

  /** `booking.schedule?.end_time`. */
  function BookingEnd(b: Booking): Option<int> {
    if b.schedule.Some? then b.schedule.value.endTime else None
  }

  /** `booking.schedule?.service`. */
  function BookingService(b: Booking): Option<Service> {
    if b.schedule.Some? then b.schedule.value.service else None
  }

  /** `x?.service?.id.toString()`: the id as text, or nothing when there is no service. */
  function ServiceIdText(s: Option<Service>): Option<string> {
    if s.Some? then Some(IntToString(s.value.id)) else None
  }

  /** `x?.service?.name`. */
  function ServiceName(s: Option<Service>): Option<string> {
    if s.Some? then Some(s.value.name) else None
  }

  /** `instructor?.user?.name`. */
  function InstructorName(i: Option<Instructor>): Option<string> {
    if i.Some? && i.value.user.Some? then Some(i.value.user.value.name) else None
  }

  /** `field?.toLowerCase().includes(term)`: a missing field never matches. */
  function FieldMatches(field: Option<string>, term: string): bool {
    field.Some? && MatchesTerm(field.value, term)
  }

  /** The people search of the account lists: name or e-mail contains the term, ignoring case. */
  predicate PersonMatches(term: string, p: Person) {
    MatchesTerm(p.name, term) || MatchesTerm(p.email, term)
  }

  /** The accounts an account list shows for a search: those matching it, in order. */
  function SearchPeople(people: seq<Person>, term: string): (r: seq<Person>)
    ensures IsSubsequence(r, people)
    ensures forall i :: 0 <= i < |r| ==> PersonMatches(term, r[i])
    ensures forall i :: 0 <= i < |people| && PersonMatches(term, people[i]) ==> people[i] in r
  {
    FilterIsSubsequence(people, p => PersonMatches(term, p));
    Filter(people, p => PersonMatches(term, p))
  }

  /** The empty search shows every account, in order. */
  lemma EmptySearchShowsEveryone(people: seq<Person>)
    ensures SearchPeople(people, "") == people
  {
    forall p | p in people ensures PersonMatches("", p) {
      EmptyTermMatches(p.name);
    }
    FilterKeepsAll(people, p => PersonMatches("", p));
  }

  /** A select value that is either "all" or the id, as text, that a record's id must equal. */
  function IdSelected(selection: string, id: Option<string>): bool {
    selection == "all" || (id.Some? && id.value == selection)
  }

  /** For a numeric selection, comparing ids as text is comparing the ids themselves. */
  lemma IdSelectedById(n: nat, s: Option<Service>)
    requires s.Some? && s.value.id >= 0
    ensures IdSelected(NatToString(n), ServiceIdText(s)) <==> s.value.id == n
  {
    NatToStringInjective(s.value.id, n);
    var t := NatToString(n);
    assert t != "all" by {
      assert IsDigit(t[0]);
    }
  }
}
