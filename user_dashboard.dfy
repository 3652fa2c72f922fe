/** The customer's dashboard: the next class, the classes waiting for a review, and the three
    booking counters, derived from the fetched bookings. */
module UserDashboard {
  import opened Wrappers
  import opened Seqs
  import opened Constants
  import opened Records
  import MyBookings

  /** The `data` member of the bookings response: missing, a list, or some other value. */
  datatype ResponseData = Missing | List(items: seq<Booking>) | NotAList

  /** `response.data || []`, then anything that is not an array read as an empty list. */
  function FetchedBookings(data: ResponseData): (bookings: seq<Booking>)
    ensures data.List? ==> bookings == data.items
    ensures !data.List? ==> bookings == []
  {
    if data.List? then data.items else []
  }

  // ---------------------------------------------------------------------------
  // Next class
  // ---------------------------------------------------------------------------

  /** A confirmed booking whose class starts after `now`. */
  predicate Upcoming(now: int, b: Booking) {
    b.status == StatusConfirmed && After(BookingStart(b), now)
  }

  function UpcomingTest(now: int): Booking -> bool {
    b => Upcoming(now, b)
  }

  function StartKey(b: Booking): int {
    BookingStart(b).GetOr(0)
  }

  /** The first of the upcoming confirmed bookings sorted by start: the next class, or none.
      The sort is stable, so of several classes starting at the same earliest instant the one
      fetched first wins. */
  function NextClass(bookings: seq<Booking>, now: int): (next: Option<Booking>)
    ensures next.None? <==> forall b :: b in bookings ==> !Upcoming(now, b)
    ensures next.Some? ==> next.value in bookings && Upcoming(now, next.value)
    ensures next.Some? ==> forall b :: b in bookings && Upcoming(now, b) ==>
              BookingStart(next.value).value <= BookingStart(b).value
    ensures next.Some? ==> exists k ::
      && 0 <= k < |bookings|
      && bookings[k] == next.value
      && (forall j :: 0 <= j < k && Upcoming(now, bookings[j]) ==>
            BookingStart(next.value).value < BookingStart(bookings[j]).value)
  {
    var upcoming := Filter(bookings, UpcomingTest(now));
    if upcoming == [] then
      NoneUpcoming(bookings, now);
      None
    else
      EarliestUpcoming(bookings, now);
      FirstEarliest(bookings, now);
      Some(SortByKey(upcoming, StartKey)[0])
  }

  lemma NoneUpcoming(bookings: seq<Booking>, now: int)
    requires Filter(bookings, UpcomingTest(now)) == []
    ensures forall b :: b in bookings ==> !Upcoming(now, b)
  {
    forall b | b in bookings ensures !Upcoming(now, b) {
      var i :| 0 <= i < |bookings| && bookings[i] == b;
      assert !UpcomingTest(now)(bookings[i]);
    }
  }

  lemma EarliestUpcoming(bookings: seq<Booking>, now: int)
    requires Filter(bookings, UpcomingTest(now)) != []
    ensures |SortByKey(Filter(bookings, UpcomingTest(now)), StartKey)| > 0
    ensures var head := SortByKey(Filter(bookings, UpcomingTest(now)), StartKey)[0];
      head in bookings && Upcoming(now, head)
      && forall b :: b in bookings && Upcoming(now, b) ==> BookingStart(head).value <= BookingStart(b).value
  {
    var upcoming := Filter(bookings, UpcomingTest(now));
    SortedHeadIsLeast(upcoming, StartKey);
    var head := SortByKey(upcoming, StartKey)[0];
    assert head in bookings && UpcomingTest(now)(head) by {
      var i :| 0 <= i < |upcoming| && upcoming[i] == head;
    }
    forall b | b in bookings && Upcoming(now, b)
      ensures BookingStart(head).value <= BookingStart(b).value
    {
      var i :| 0 <= i < |bookings| && bookings[i] == b;
      assert UpcomingTest(now)(bookings[i]);
      assert StartKey(head) <= StartKey(b);
    }
  }

  /** Ties on the start go to the booking fetched first. */
  lemma FirstEarliest(bookings: seq<Booking>, now: int)
    requires Filter(bookings, UpcomingTest(now)) != []
    ensures SortByKey(Filter(bookings, UpcomingTest(now)), StartKey) != []
    ensures var head := SortByKey(Filter(bookings, UpcomingTest(now)), StartKey)[0];
      exists k ::
        && 0 <= k < |bookings|
        && bookings[k] == head
        && Upcoming(now, head)
        && (forall j :: 0 <= j < k && Upcoming(now, bookings[j]) ==>
              BookingStart(head).value < BookingStart(bookings[j]).value)
  {
    FirstOfLeast(bookings, UpcomingTest(now), StartKey);
    EarliestUpcoming(bookings, now);
    var head := SortByKey(Filter(bookings, UpcomingTest(now)), StartKey)[0];
    var k :| 0 <= k < |bookings| && bookings[k] == head
      && forall j :: 0 <= j < k && UpcomingTest(now)(bookings[j]) ==> StartKey(bookings[j]) > StartKey(bookings[k]);
    forall j | 0 <= j < k && Upcoming(now, bookings[j])
      ensures BookingStart(head).value < BookingStart(bookings[j]).value
    {
      assert UpcomingTest(now)(bookings[j]);
    }
  }

  // ---------------------------------------------------------------------------
  // Waiting reviews
  // ---------------------------------------------------------------------------

  function ReviewTest(now: int): Booking -> bool {
    b => MyBookings.CanReview(b, now)
  }

  /** Confirmed bookings whose class ended before `now` and that have no review, in order:
      exactly the bookings the bookings page offers a Review link on. */
  function PendingReviews(bookings: seq<Booking>, now: int): (pending: seq<Booking>)
    ensures IsSubsequence(pending, bookings)
    ensures forall i :: 0 <= i < |pending| ==>
      pending[i].status == StatusConfirmed && Before(BookingEnd(pending[i]), now) && pending[i].review.None?
    ensures forall b :: b in bookings && MyBookings.CanReview(b, now) ==> b in pending
  {
    FilterIsSubsequence(bookings, ReviewTest(now));
    Filter(bookings, ReviewTest(now))
  }

  /** The review cards shown: the first two waiting reviews. */
  function ShownReviews(pending: seq<Booking>): (shown: seq<Booking>)
    ensures |shown| == if |pending| < 2 then |pending| else 2
    ensures shown <= pending
  {
    if |pending| < 2 then pending else pending[..2]
  }

  /** The "view all" link appears when some waiting reviews are not shown. */
  predicate ShowsViewAll(pending: seq<Booking>) {
    |pending| > 2
  }

  /** The link to every waiting review appears exactly when the cards leave some out. */
  lemma ViewAllIffCardsTruncate(pending: seq<Booking>)
    ensures ShowsViewAll(pending) <==> ShownReviews(pending) != pending
  {
  }

  /** Every waiting review is a Completed booking listed under the 'finished' tab. */
  lemma PendingReviewsAreFinished(bookings: seq<Booking>, now: int, i: int)
    requires 0 <= i < |PendingReviews(bookings, now)|
    ensures MyBookings.StatusBadge(PendingReviews(bookings, now)[i], now) == MyBookings.Completed
    ensures PendingReviews(bookings, now)[i] in MyBookings.Filtered(bookings, "finished", now)
  {
    var b := PendingReviews(bookings, now)[i];
    assert b in bookings;
    assert MyBookings.InTab("finished", now, b);
    var k :| 0 <= k < |bookings| && bookings[k] == b;
  }

  // ---------------------------------------------------------------------------
  // Counters
  // ---------------------------------------------------------------------------

  function StatusTest(status: string): Booking -> bool {
    (b: Booking) => b.status == status
  }

  /** The three counters: all sessions, those awaiting payment, the confirmed ones. */
  datatype Stats = Stats(total: nat, needPayment: nat, confirmed: nat)

  function Counters(bookings: seq<Booking>): (stats: Stats)
    ensures stats.total == |bookings|
    ensures stats.needPayment + stats.confirmed <= stats.total
  {
    FilterDisjointBound(bookings, StatusTest(StatusPending), StatusTest(StatusConfirmed));
    Stats(|bookings|, |Filter(bookings, StatusTest(StatusPending))|, |Filter(bookings, StatusTest(StatusConfirmed))|)
  }

  /** Each counter links to a tab of the bookings page. 'Total Sessions' and 'Need Payment'
      count what their tab lists; 'Confirmed' counts every confirmed booking, while its tab
      lists only those whose class has not ended, so it may count more than the tab shows. */
  lemma CountersMatchTabs(bookings: seq<Booking>, now: int)
    ensures Counters(bookings).total == |MyBookings.Filtered(bookings, "all", now)|
    ensures Counters(bookings).needPayment == |MyBookings.Filtered(bookings, "pending", now)|
    ensures Counters(bookings).confirmed >= |MyBookings.Filtered(bookings, "confirmed", now)|
  {
    FilterKeepsAll(bookings, MyBookings.TabTest("all", now));
    FilterExtensional(bookings, StatusTest(StatusPending), MyBookings.TabTest("pending", now));
    FilterNarrows(bookings, MyBookings.TabTest("confirmed", now), StatusTest(StatusConfirmed));
  }

  /** A confirmed booking whose schedule has no valid end: in neither of the two tabs. */
  predicate ConfirmedWithoutEnd(b: Booking) {
    b.status == StatusConfirmed && BookingEnd(b).None?
  }

  /** The exact value of the 'Confirmed' counter: the bookings of the 'confirmed' tab, those
      of the 'finished' tab, and the confirmed bookings without a valid end, which neither
      tab lists. */
  lemma ConfirmedCounterValue(bookings: seq<Booking>, now: int)
    ensures Counters(bookings).confirmed
         == |MyBookings.Filtered(bookings, "confirmed", now)| + |MyBookings.Filtered(bookings, "finished", now)|
          + |Filter(bookings, ConfirmedWithoutEnd)|
  {
    MyBookings.ConfirmedAndFinishedSplit(bookings, now);
    FilterPartition(bookings, StatusTest(StatusConfirmed), MyBookings.ConfirmedWithEnd, ConfirmedWithoutEnd,
      (b: Booking) => BookingEnd(b).Some?);
  }
}
