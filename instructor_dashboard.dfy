/** The instructor's dashboard: the time filter over the instructor's classes, the four
    counters, the reviews newest first, and each class card's seat count and badge. */
module InstructorDashboard {
  import opened Wrappers
  import opened Seqs
  import opened Records
  import SchedulesList

  /** The time filter the page opens with. */
  const InitialTimeFilter := "upcoming"

  // ---------------------------------------------------------------------------
  // Classes tab
  // ---------------------------------------------------------------------------

  /** 'upcoming' keeps classes starting at or after `now`; any other value but 'all' (the select
      offers only 'past') keeps those starting before it. */
  predicate InTime(timeFilter: string, now: int, s: Schedule) {
    if timeFilter == "upcoming" then AtOrAfter(s.startTime, now) else Before(s.startTime, now)
  }

  function TimeTest(timeFilter: string, now: int): Schedule -> bool {
    s => InTime(timeFilter, now, s)
  }

  /** The classes listed under a time filter: all of them, untouched, for 'all'; otherwise
      those passing the time test, in order. */
  function FilteredSchedules(schedules: seq<Schedule>, timeFilter: string, now: int): (r: seq<Schedule>)
    ensures timeFilter == "all" ==> r == schedules
    ensures IsSubsequence(r, schedules)
    ensures timeFilter != "all" ==> forall i :: 0 <= i < |r| ==> InTime(timeFilter, now, r[i])
    ensures timeFilter != "all" ==> forall s :: s in schedules && InTime(timeFilter, now, s) ==> s in r
  {
    if timeFilter == "all" then
      SubsequenceOfSelf(schedules);
      schedules
    else
      FilterIsSubsequence(schedules, TimeTest(timeFilter, now));
      Filter(schedules, TimeTest(timeFilter, now))
  }

  lemma {:induction false} SubsequenceOfSelf<T>(s: seq<T>)
    ensures IsSubsequence(s, s)
  {
    if s != [] {
      SubsequenceOfSelf(s[1..]);
    }
  }

  /** A class card's badge: Completed once the class has started, Upcoming otherwise. */
  predicate IsPast(s: Schedule, now: int) {
    Before(s.startTime, now)
  }

  /** The badges agree with the filter: no card listed under 'upcoming' reads Completed and
      every card listed under 'past' does. */
  lemma BadgesFollowFilter(schedules: seq<Schedule>, now: int)
    ensures forall s :: s in FilteredSchedules(schedules, "upcoming", now) ==> !IsPast(s, now)
    ensures forall s :: s in FilteredSchedules(schedules, "past", now) ==> IsPast(s, now)
  {
    var up := FilteredSchedules(schedules, "upcoming", now);
    var past := FilteredSchedules(schedules, "past", now);
    forall s | s in up ensures !IsPast(s, now) {
      var i :| 0 <= i < |up| && up[i] == s;
      assert InTime("upcoming", now, up[i]);
    }
    forall s | s in past ensures IsPast(s, now) {
      var i :| 0 <= i < |past| && past[i] == s;
      assert InTime("past", now, past[i]);
    }
  }

  /** The seats booked on a card: capacity minus remaining seats. The source subtracts the raw
      fields, so a missing one gives no number (NaN). */
  function Booked(s: Schedule): (booked: Option<int>)
    ensures booked.Some? <==> s.totalCapacity.Some? && s.remainingSlots.Some?
    ensures booked.Some? ==> booked.value + s.remainingSlots.value == s.totalCapacity.value
  {
    if s.totalCapacity.Some? && s.remainingSlots.Some? then Some(s.totalCapacity.value - s.remainingSlots.value) else None
  }

  /** Where both fields are present the card agrees with the administrators' schedule list. */
  lemma BookedAgreesWithScheduleList(s: Schedule)
    requires s.totalCapacity.Some? && s.remainingSlots.Some?
    ensures Booked(s) == Some(SchedulesList.Occupied(s))
  {
  }

  // ---------------------------------------------------------------------------
  // Counters
  // ---------------------------------------------------------------------------

  /** The upcoming counter's test: a start strictly after `now`. */
  function StartsAfterTest(now: int): Schedule -> bool {
    (s: Schedule) => After(s.startTime, now)
  }

  /** The sum of the ratings (`reduce` from 0). */
  function RatingSum(reviews: seq<Review>): int {
    if reviews == [] then 0 else RatingSum(reviews[..|reviews| - 1]) + reviews[|reviews| - 1].rating
  }

  /** The average rating: 0 without reviews, otherwise the sum over the count. */
  datatype Average = NoRating | Mean(sum: int, count: nat)

  datatype Stats = Stats(totalClasses: nat, upcomingClasses: nat, totalReviews: nat, averageRating: Average)

  function Counters(schedules: seq<Schedule>, reviews: seq<Review>, now: int): (stats: Stats)
    ensures stats.totalClasses == |schedules| && stats.totalReviews == |reviews|
    ensures stats.upcomingClasses <= stats.totalClasses
    ensures stats.averageRating.NoRating? <==> reviews == []
    ensures stats.averageRating.Mean? ==> stats.averageRating.count == |reviews| > 0
    ensures stats.averageRating.Mean? ==> stats.averageRating.sum == RatingSum(reviews)
  {
    Stats(|schedules|, |Filter(schedules, StartsAfterTest(now))|, |reviews|,
      if reviews == [] then NoRating else Mean(RatingSum(reviews), |reviews|))
  }

  /** The counter counts classes starting strictly after `now`, while the 'upcoming' filter
      lists those starting at or after it: the counter never exceeds the list, and a class
      starting exactly at `now` is listed but not counted. */
  lemma UpcomingCounterWithinList(schedules: seq<Schedule>, now: int)
    ensures Counters(schedules, [], now).upcomingClasses <= |FilteredSchedules(schedules, "upcoming", now)|
    ensures forall s :: s in schedules && s.startTime == Some(now) ==>
      s in FilteredSchedules(schedules, "upcoming", now) && s !in Filter(schedules, StartsAfterTest(now))
  {
    FilterNarrows(schedules, StartsAfterTest(now), TimeTest("upcoming", now));
  }

  /** A start exactly at `now`. */
  function StartsAtTest(now: int): Schedule -> bool {
    (s: Schedule) => s.startTime == Some(now)
  }

  /** The exact gap between the counter and the list: the 'upcoming' list holds the counted
      classes and, besides them, exactly the classes starting at `now`. */
  lemma UpcomingCounterValue(schedules: seq<Schedule>, reviews: seq<Review>, now: int)
    ensures Counters(schedules, reviews, now).upcomingClasses + |Filter(schedules, StartsAtTest(now))|
         == |FilteredSchedules(schedules, "upcoming", now)|
  {
    FilterPartition(schedules, TimeTest("upcoming", now), StartsAfterTest(now), StartsAtTest(now),
      (s: Schedule) => After(s.startTime, now));
  }

  /** With ratings from 1 to 5 the average lies between 1 and 5. */
  lemma {:induction false} RatingSumBounds(reviews: seq<Review>)
    requires forall i :: 0 <= i < |reviews| ==> 1 <= reviews[i].rating <= 5
    ensures |reviews| <= RatingSum(reviews) <= 5 * |reviews|
  {
    if reviews != [] {
      RatingSumBounds(reviews[..|reviews| - 1]);
    }
  }

  // ---------------------------------------------------------------------------
  // Reviews tab
  // ---------------------------------------------------------------------------

  /** The sort key of the reviews tab: the negated creation instant (a missing one, for which
      the source's comparator returns NaN, is filed under 0). */
  function NewestKey(r: Review): int {
    if r.createdAt.Some? then -r.createdAt.value else 0
  }

  /** The reviews tab: a copy of the fetched reviews sorted newest first; the fetched list
      itself keeps its order. */
  method SortedReviews(reviews: seq<Review>) returns (sorted: seq<Review>)
    ensures sorted == SortByKey(reviews, NewestKey)
  {
    var copy := new Review[|reviews|](i requires 0 <= i < |reviews| => reviews[i]);
    assert copy[..] == reviews;
    SortInPlace(copy, NewestKey);
    sorted := copy[..];
  }

  /** The sorted copy holds the same reviews, and any two with valid creation instants are
      newest first. */
  lemma SortedReviewsNewestFirst(reviews: seq<Review>)
    ensures multiset(SortByKey(reviews, NewestKey)) == multiset(reviews)
    ensures var r := SortByKey(reviews, NewestKey);
      forall i, j :: 0 <= i < j < |r| && r[i].createdAt.Some? && r[j].createdAt.Some? ==>
        r[i].createdAt.value >= r[j].createdAt.value
  {
    SortByKeyCorrect(reviews, NewestKey);
    var r := SortByKey(reviews, NewestKey);
    forall i, j | 0 <= i < j < |r| && r[i].createdAt.Some? && r[j].createdAt.Some?
      ensures r[i].createdAt.value >= r[j].createdAt.value
    {
      assert NewestKey(r[i]) <= NewestKey(r[j]);
    }
  }
}
