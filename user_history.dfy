/** An administrator's view of one customer's history: the bookings tab with its class and time
    filters, the reviews tab, the class choices, and deleting a review. */
module UserHistory {
  import opened Wrappers
  import opened Text
  import opened Seqs
  import opened Records

  // ---------------------------------------------------------------------------
  // The bookings tab
  // ---------------------------------------------------------------------------

  /** Bookings whose schedule is missing are orphans and never listed. */
  predicate HasSchedule(b: Booking) {
    b.schedule.Some?
  }

  /** The class filter: 'all', or the id of the booked schedule's service, as text. */
  predicate InClass(classFilter: string, b: Booking) {
    IdSelected(classFilter, ServiceIdText(BookingService(b)))
  }

  /** The time filter: 'all' keeps everything, 'upcoming' starts at or after `now`, and every
      other value (the select offers only 'past') starts before `now`. */
  predicate InTime(timeFilter: string, now: int, b: Booking) {
    timeFilter == "all" ||
    (if timeFilter == "upcoming" then AtOrAfter(BookingStart(b), now) else Before(BookingStart(b), now))
  }

  predicate Listed(classFilter: string, timeFilter: string, now: int, b: Booking) {
    HasSchedule(b) && InClass(classFilter, b) && InTime(timeFilter, now, b)
  }

  function ClassTest(classFilter: string): Booking -> bool {
    b => InClass(classFilter, b)
  }

  function TimeTest(timeFilter: string, now: int): Booking -> bool {
    b => InTime(timeFilter, now, b)
  }

  function ScheduledInClass(classFilter: string): Booking -> bool {
    b => HasSchedule(b) && InClass(classFilter, b)
  }

  /** The test a booking passes to be listed under the three filters. */
  function ListedTest(classFilter: string, timeFilter: string, now: int): Booking -> bool {
    b => Listed(classFilter, timeFilter, now, b)
  }

  /** The bookings tab, narrowed step by step as the page does: orphans out, then the class
      filter unless it is 'all', then the time filter unless it is 'all', with `now` read once.
      The result is the bookings passing all three tests, in their original order. */
  method FilteredBookings(bookings: seq<Booking>, classFilter: string, timeFilter: string, now: int)
    returns (result: seq<Booking>)
    ensures result == Filter(bookings, ListedTest(classFilter, timeFilter, now))
    ensures IsSubsequence(result, bookings)
    ensures forall i :: 0 <= i < |result| ==> result[i].schedule.Some?
  {
    var valid := Filter(bookings, HasSchedule);
    result := valid;
    if classFilter != "all" {
      result := Filter(result, ClassTest(classFilter));
    } else {
      FilterKeepsAll(valid, ClassTest(classFilter));
    }
    FilterThen(bookings, HasSchedule, ClassTest(classFilter), ScheduledInClass(classFilter));
    ghost var classed := result;
    if timeFilter != "all" {
      result := Filter(result, TimeTest(timeFilter, now));
    } else {
      FilterKeepsAll(classed, TimeTest(timeFilter, now));
    }
    FilterThen(bookings, ScheduledInClass(classFilter), TimeTest(timeFilter, now), ListedTest(classFilter, timeFilter, now));
    FilterIsSubsequence(bookings, ListedTest(classFilter, timeFilter, now));
  }

  /** Under one class choice, 'upcoming' and 'past' split the listed bookings between them when
      every listed schedule has a valid start. */
  lemma UpcomingAndPastSplit(bookings: seq<Booking>, classFilter: string, now: int)
    requires forall b :: b in bookings && b.schedule.Some? ==> b.schedule.value.startTime.Some?
    ensures |Filter(bookings, ListedTest(classFilter, "upcoming", now))| + |Filter(bookings, ListedTest(classFilter, "past", now))|
         == |Filter(bookings, ListedTest(classFilter, "all", now))|
    ensures multiset(Filter(bookings, ListedTest(classFilter, "upcoming", now))) + multiset(Filter(bookings, ListedTest(classFilter, "past", now)))
         == multiset(Filter(bookings, ListedTest(classFilter, "all", now)))
  {
    var dated := (b: Booking) => HasSchedule(b) && InClass(classFilter, b) && BookingStart(b).Some?;
    var upcoming := (b: Booking) => AtOrAfter(BookingStart(b), now);
    FilterPartition(bookings, dated, ListedTest(classFilter, "upcoming", now), ListedTest(classFilter, "past", now), upcoming);
    FilterExtensional(bookings, dated, ListedTest(classFilter, "all", now));
  }

  /** A time filter value other than 'all' and 'upcoming' lists what 'past' lists. */
  lemma OtherTimeFilterIsPast(bookings: seq<Booking>, classFilter: string, timeFilter: string, now: int)
    requires timeFilter != "all" && timeFilter != "upcoming"
    ensures Filter(bookings, ListedTest(classFilter, timeFilter, now)) == Filter(bookings, ListedTest(classFilter, "past", now))
  {
    FilterExtensional(bookings, ListedTest(classFilter, timeFilter, now), ListedTest(classFilter, "past", now));
  }

  // ---------------------------------------------------------------------------
  // The reviews tab
  // ---------------------------------------------------------------------------

  /** A review as the reviews tab shows it, with what it reads from its booking. */
  datatype ReviewEntry = ReviewEntry(
    review: Review,
    serviceName: string,
    instructorName: string,
    date: Option<int>,
    originalBookingId: int)

  /** A booking contributes to the reviews tab when it has a review and a schedule with a
      service and an instructor who has an account. */
  predicate Reviewable(b: Booking) {
    b.review.Some? && b.schedule.Some? && b.schedule.value.service.Some?
    && b.schedule.value.instructor.Some? && b.schedule.value.instructor.value.user.Some?
  }

  function EntryOf(b: Booking): ReviewEntry
    requires Reviewable(b)
  {
    var sc := b.schedule.value;
    ReviewEntry(b.review.value, sc.service.value.name, sc.instructor.value.user.value.name, sc.startTime, b.id)
  }

  /** The reviews tab: one entry per reviewable booking, in booking order. */
  function Reviews(bookings: seq<Booking>): (entries: seq<ReviewEntry>)
    ensures |entries| <= |bookings|
    ensures forall e :: e in entries ==> exists b :: b in bookings && Reviewable(b) && e == EntryOf(b)
    ensures forall b :: b in bookings && Reviewable(b) ==> EntryOf(b) in entries
  {
    if bookings == [] then []
    else
      var rest := Reviews(bookings[1..]);
      assert forall b :: b in bookings[1..] ==> b in bookings;
      assert forall b :: b in bookings ==> b == bookings[0] || b in bookings[1..];
      if Reviewable(bookings[0]) then [EntryOf(bookings[0])] + rest else rest
  }

  /** The entries of bookings that are all reviewable, one each, in order. */
  function EntriesOf(s: seq<Booking>): (entries: seq<ReviewEntry>)
    requires forall i :: 0 <= i < |s| ==> Reviewable(s[i])
    ensures |entries| == |s|
    ensures forall k :: 0 <= k < |s| ==> entries[k] == EntryOf(s[k])
  {
    if s == [] then [] else [EntryOf(s[0])] + EntriesOf(s[1..])
  }

  /** The tab lists exactly the reviewable bookings, in booking order, one entry each. */
  lemma {:induction false} ReviewsInBookingOrder(bookings: seq<Booking>)
    ensures Reviews(bookings) == EntriesOf(Filter(bookings, Reviewable))
  {
    if bookings != [] {
      ReviewsInBookingOrder(bookings[1..]);
      var tail := Filter(bookings[1..], Reviewable);
      if Reviewable(bookings[0]) {
        assert Filter(bookings, Reviewable) == [bookings[0]] + tail;
        assert ([bookings[0]] + tail)[1..] == tail;
      } else {
        assert Filter(bookings, Reviewable) == tail;
      }
    }
  }

  // ---------------------------------------------------------------------------
  // Class choices
  // ---------------------------------------------------------------------------

  /** A class as the class filter lists it: the service's id and name together. */
  datatype ClassChoice = ClassChoice(id: int, name: string)

  /** A booking whose schedule has a service. */
  predicate HasService(b: Booking) {
    BookingService(b).Some?
  }

  /** The class a booking with a service names. */
  function ChoiceOf(b: Booking): ClassChoice
    requires HasService(b)
  {
    ClassChoice(BookingService(b).value.id, BookingService(b).value.name)
  }

  /** The (id, name) pair of every booking with a scheduled service, in booking order. */
  function BookedClasses(bookings: seq<Booking>): (classes: seq<ClassChoice>)
    ensures forall c :: c in classes ==> exists b :: b in bookings && HasService(b) && c == ChoiceOf(b)
    ensures forall b :: b in bookings && HasService(b) ==> ChoiceOf(b) in classes
  {
    if bookings == [] then []
    else
      var rest := BookedClasses(bookings[1..]);
      assert forall b :: b in bookings[1..] ==> b in bookings;
      assert forall b :: b in bookings ==> b == bookings[0] || b in bookings[1..];
      if HasService(bookings[0]) then [ChoiceOf(bookings[0])] + rest else rest
  }

  /** The classes of bookings that all have a service, one each, in order. */
  function ChoicesOf(s: seq<Booking>): (classes: seq<ClassChoice>)
    requires forall i :: 0 <= i < |s| ==> HasService(s[i])
    ensures |classes| == |s|
    ensures forall k :: 0 <= k < |s| ==> classes[k] == ChoiceOf(s[k])
  {
    if s == [] then [] else [ChoiceOf(s[0])] + ChoicesOf(s[1..])
  }

  /** One class per booking with a service, in booking order. */
  lemma {:induction false} BookedClassesInBookingOrder(bookings: seq<Booking>)
    ensures BookedClasses(bookings) == ChoicesOf(Filter(bookings, HasService))
  {
    if bookings != [] {
      BookedClassesInBookingOrder(bookings[1..]);
      var tail := Filter(bookings[1..], HasService);
      if HasService(bookings[0]) {
        assert Filter(bookings, HasService) == [bookings[0]] + tail;
        assert ([bookings[0]] + tail)[1..] == tail;
      } else {
        assert Filter(bookings, HasService) == tail;
      }
    }
  }

  /** The classes the customer booked, each once, in the order first booked. */
  function UniqueClasses(bookings: seq<Booking>): (classes: seq<ClassChoice>)
    ensures forall c :: c in classes <==> c in BookedClasses(bookings)
    ensures forall i, j :: 0 <= i < j < |classes| ==> classes[i] != classes[j]
  {
    Distinct(BookedClasses(bookings))
  }

  /** An entry of a select: the text shown and the value chosen. */
  datatype SelectOption = SelectOption(title: string, value: string)

  /** The class select: 'All Classes' first, then one entry per unique class, valued by its id
      as text. */
  function ClassOptions(bookings: seq<Booking>): (options: seq<SelectOption>)
    ensures |options| == |UniqueClasses(bookings)| + 1
    ensures options[0] == SelectOption("All Classes", "all")
    ensures forall k :: 1 <= k < |options| ==>
      options[k] == SelectOption(UniqueClasses(bookings)[k - 1].name, IntToString(UniqueClasses(bookings)[k - 1].id))
  {
    [SelectOption("All Classes", "all")]
      + Map(UniqueClasses(bookings), (c: ClassChoice) => SelectOption(c.name, IntToString(c.id)))
  }

  /** Every class the select offers lists at least one booking when the time filter is 'all':
      no class choice leads to an empty tab. */
  lemma ClassOptionsNeverEmpty(bookings: seq<Booking>, k: int, now: int)
    requires 1 <= k < |ClassOptions(bookings)|
    ensures Filter(bookings, ListedTest(ClassOptions(bookings)[k].value, "all", now)) != []
  {
    var c := UniqueClasses(bookings)[k - 1];
    assert c in BookedClasses(bookings);
    var b :| b in bookings && HasService(b) && c == ChoiceOf(b);
    assert ListedTest(ClassOptions(bookings)[k].value, "all", now)(b);
  }

  // ---------------------------------------------------------------------------
  // Deleting a review
  // ---------------------------------------------------------------------------

  /** The bookings after the review `id` is deleted: every booking carrying that review loses
      it; nothing else changes. */
  function WithoutReview(bookings: seq<Booking>, id: int): (r: seq<Booking>)
    ensures |r| == |bookings|
    ensures forall i :: 0 <= i < |r| ==>
      r[i] == if bookings[i].review.Some? && bookings[i].review.value.id == id
              then bookings[i].(review := None) else bookings[i]
  {
    if bookings == [] then []
    else
      var b := bookings[0];
      [if b.review.Some? && b.review.value.id == id then b.(review := None) else b] + WithoutReview(bookings[1..], id)
  }

  /** The reviews tab after deleting review `id` is the tab before it without that review's
      entries, the others in the same order. */
  lemma {:induction false} ReviewsAfterDelete(bookings: seq<Booking>, id: int)
    ensures Reviews(WithoutReview(bookings, id)) == Filter(Reviews(bookings), (e: ReviewEntry) => e.review.id != id)
  {
    if bookings != [] {
      ReviewsAfterDelete(bookings[1..], id);
      var after := WithoutReview(bookings, id);
      assert after[1..] == WithoutReview(bookings[1..], id);
    }
  }

  /** The page's state for the reviews tab: the bookings and the review awaiting the delete
      confirmation. */
  class HistoryPage {
    var bookings: seq<Booking>
    var deleteReviewId: Option<int>

    constructor(fetched: seq<Booking>)
      ensures bookings == fetched && deleteReviewId == None
    {
      bookings := fetched;
      deleteReviewId := None;
    }

    /** The delete button of a review opens the confirmation. */
    method AskDelete(id: int)
      modifies this
      ensures deleteReviewId == Some(id) && bookings == old(bookings)
    {
      deleteReviewId := Some(id);
    }

    /** The confirmation's outcome, `deleted` being whether the server accepted it. On success
        the review disappears from every booking carrying it (a confirmation without a review
        matches none); the confirmation closes either way. */
    method HandleDeleteReview(deleted: bool)
      modifies this
      ensures deleted && old(deleteReviewId).Some? ==> bookings == WithoutReview(old(bookings), old(deleteReviewId).value)
      ensures !deleted || old(deleteReviewId).None? ==> bookings == old(bookings)
      ensures deleteReviewId == None
    {
      if deleted && deleteReviewId.Some? {
        bookings := WithoutReview(bookings, deleteReviewId.value);
      }
      deleteReviewId := None;
    }
  }
}
