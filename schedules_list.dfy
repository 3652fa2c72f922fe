/** The administrators' schedule list: its search, service and time filters, and the seat
    counts shown per schedule. */
module SchedulesList {
  import opened Wrappers
  import opened Text
  import opened Seqs
  import opened Records

  /** The list's filter state. */
  datatype Criteria = Criteria(search: string, service: string, time: string)

  /** The state the page opens with: upcoming classes of every service, no search. */
  const Initial := Criteria("", "all", "upcoming")

  /** The search matches the class name or the instructor's name; a schedule with neither is
      never found, not even by the empty search. */
  predicate MatchesSearch(s: Schedule, term: string) {
    FieldMatches(ServiceName(s.service), term) || FieldMatches(InstructorName(s.instructor), term)
  }

  /** All three filters at once. */
  predicate Keep(c: Criteria, now: int, s: Schedule) {
    MatchesSearch(s, c.search) && IdSelected(c.service, ServiceIdText(s.service)) && TimeMatches(c.time, s.startTime, now)
  }

  /** The schedules shown: those that pass every filter, in the order fetched. */
  function Filtered(schedules: seq<Schedule>, c: Criteria, now: int): (r: seq<Schedule>)
    ensures IsSubsequence(r, schedules)
    ensures forall i :: 0 <= i < |r| ==> Keep(c, now, r[i])
    ensures forall i :: 0 <= i < |schedules| && Keep(c, now, schedules[i]) ==> schedules[i] in r
  {
    FilterIsSubsequence(schedules, s => Keep(c, now, s));
    Filter(schedules, s => Keep(c, now, s))
  }

  /** With the page's opening state, a schedule is listed iff it starts at or after `now` and
      has a class name or an instructor name. */
  lemma InitialShowsUpcoming(schedules: seq<Schedule>, now: int, s: Schedule)
    requires s in schedules
    ensures s in Filtered(schedules, Initial, now) <==>
      AtOrAfter(s.startTime, now) && (ServiceName(s.service).Some? || InstructorName(s.instructor).Some?)
  {
    var r := Filtered(schedules, Initial, now);
    if ServiceName(s.service).Some? {
      EmptyTermMatches(ServiceName(s.service).value);
    }
    if InstructorName(s.instructor).Some? {
      EmptyTermMatches(InstructorName(s.instructor).value);
    }
    if s in r {
      var i :| 0 <= i < |r| && r[i] == s;
    } else {
      var i :| 0 <= i < |schedules| && schedules[i] == s;
    }
  }

  /** Among schedules with a valid start, 'upcoming' and 'past' split the 'all' result: every
      schedule it lists is in exactly one of them. */
  lemma UpcomingAndPastSplitAll(schedules: seq<Schedule>, search: string, service: string, now: int)
    requires forall i :: 0 <= i < |schedules| ==> schedules[i].startTime.Some?
    ensures |Filtered(schedules, Criteria(search, service, "upcoming"), now)|
          + |Filtered(schedules, Criteria(search, service, "past"), now)|
         == |Filtered(schedules, Criteria(search, service, "all"), now)|
    ensures multiset(Filtered(schedules, Criteria(search, service, "upcoming"), now))
          + multiset(Filtered(schedules, Criteria(search, service, "past"), now))
         == multiset(Filtered(schedules, Criteria(search, service, "all"), now))
  {
    var all := Criteria(search, service, "all");
    var valid := (s: Schedule) => Keep(all, now, s) && s.startTime.Some?;
    FilterPartition(schedules, valid,
      s => Keep(Criteria(search, service, "upcoming"), now, s),
      s => Keep(Criteria(search, service, "past"), now, s),
      (s: Schedule) => AtOrAfter(s.startTime, now));
    FilterExtensional(schedules, valid, s => Keep(all, now, s));
  }

  // ---------------------------------------------------------------------------
  // Seats
  // ---------------------------------------------------------------------------

  /** `x || 0`: a missing count reads as zero. */
  function OrZero(n: Option<int>): int {
    if n.Some? then n.value else 0
  }

  /** The seats taken: capacity less the seats remaining. */
  function Occupied(s: Schedule): (taken: int)
    ensures taken + OrZero(s.remainingSlots) == OrZero(s.totalCapacity)
  {
    OrZero(s.totalCapacity) - OrZero(s.remainingSlots)
  }

  /** Shown as "Available" rather than "Full". */
  predicate Available(s: Schedule) {
    OrZero(s.remainingSlots) > 0
  }

  /** For a schedule whose counts are consistent, the seats taken lie between none and the
      capacity, and the class shows as available exactly while seats are still free. */
  lemma SeatsConsistent(s: Schedule)
    requires 0 <= OrZero(s.remainingSlots) <= OrZero(s.totalCapacity)
    ensures 0 <= Occupied(s) <= OrZero(s.totalCapacity)
    ensures Available(s) <==> Occupied(s) < OrZero(s.totalCapacity)
    ensures s.remainingSlots.None? ==> !Available(s) && Occupied(s) == OrZero(s.totalCapacity)
  {
  }
}
