/** The customer's own bookings: the newest-first ordering of a fetched page, the status tabs,
    the status badge, the actions offered on each booking, and the tab kept in the address. */
module MyBookings {
  import opened Wrappers
  import opened Seqs
  import opened Constants
  import opened Records

  // ---------------------------------------------------------------------------
  // Ordering of a fetched page
  // ---------------------------------------------------------------------------

  /** The sort key of the page: the negated start, so that ascending keys are descending
      starts. A booking without a valid start makes the source's comparator return NaN, which
      leaves the order unspecified; the model files it under key 0. */
  function NewestFirstKey(b: Booking): int {
    var start := BookingStart(b);
    if start.Some? then -start.value else 0
  }

  /** The fetched page (`data.data || []`), sorted in place by start, newest first. */
  method SortNewestFirst(items: array<Booking>)
    modifies items
    ensures items[..] == SortByKey(old(items[..]), NewestFirstKey)
  {
    SortInPlace(items, NewestFirstKey);
  }

  /** Any two bookings with valid starts are in descending order of start. */
  predicate StartsDescending(s: seq<Booking>) {
    forall i, j :: 0 <= i < j < |s| && BookingStart(s[i]).Some? && BookingStart(s[j]).Some? ==>
      BookingStart(s[i]).value >= BookingStart(s[j]).value
  }

  /** The sorted page holds the same bookings, newest first. */
  lemma NewestFirstOrder(items: seq<Booking>)
    ensures multiset(SortByKey(items, NewestFirstKey)) == multiset(items)
    ensures StartsDescending(SortByKey(items, NewestFirstKey))
  {
    SortByKeyCorrect(items, NewestFirstKey);
    var r := SortByKey(items, NewestFirstKey);
    forall i, j | 0 <= i < j < |r| && BookingStart(r[i]).Some? && BookingStart(r[j]).Some?
      ensures BookingStart(r[i]).value >= BookingStart(r[j]).value
    {
      assert NewestFirstKey(r[i]) <= NewestFirstKey(r[j]);
    }
  }

  /** `data.data || []`: a response without a list is an empty page. */
  function PageItems(data: Option<seq<Booking>>): (items: seq<Booking>)
    ensures data.None? ==> items == []
    ensures data.Some? ==> items == data.value
  {
    if data.Some? then data.value else []
  }

  // ---------------------------------------------------------------------------
  // Status tabs
  // ---------------------------------------------------------------------------

  /** The tabs the page offers. */
  const Tabs: seq<string> := ["all", "pending", "confirmed", "finished", "cancelled"]

  /** Whether booking `b` is listed under tab `tab` at instant `now`: 'pending' and 'cancelled'
      compare the status; 'confirmed' is a confirmed booking whose class has not ended,
      'finished' one whose class has; 'all' and any unknown tab list everything. */
  predicate InTab(tab: string, now: int, b: Booking) {
    if tab == "pending" then b.status == StatusPending
    else if tab == "confirmed" then b.status == StatusConfirmed && After(BookingEnd(b), now)
    else if tab == "finished" then b.status == StatusConfirmed && AtOrBefore(BookingEnd(b), now)
    else if tab == "cancelled" then b.status == StatusCancelled
    else true
  }

  function TabTest(tab: string, now: int): Booking -> bool {
    b => InTab(tab, now, b)
  }

  /** The bookings listed under a tab, in page order. */
  function Filtered(bookings: seq<Booking>, tab: string, now: int): (r: seq<Booking>)
    ensures IsSubsequence(r, bookings)
    ensures forall i :: 0 <= i < |r| ==> InTab(tab, now, r[i])
    ensures forall i :: 0 <= i < |bookings| && InTab(tab, now, bookings[i]) ==> bookings[i] in r
  {
    FilterIsSubsequence(bookings, TabTest(tab, now));
    Filter(bookings, TabTest(tab, now))
  }

  /** A tab the page does not know lists what 'all' lists: the whole page. */
  lemma UnknownTabListsAll(bookings: seq<Booking>, tab: string, now: int)
    requires tab !in Tabs[1..]
    ensures Filtered(bookings, tab, now) == bookings
  {
    FilterKeepsAll(bookings, TabTest(tab, now));
  }

  predicate ConfirmedWithEnd(b: Booking) {
    b.status == StatusConfirmed && BookingEnd(b).Some?
  }

  /** 'confirmed' and 'finished' split the confirmed bookings whose schedule has a valid end
      between them; a confirmed booking without one is in neither. */
  lemma ConfirmedAndFinishedSplit(bookings: seq<Booking>, now: int)
    ensures |Filtered(bookings, "confirmed", now)| + |Filtered(bookings, "finished", now)| == |Filter(bookings, ConfirmedWithEnd)|
    ensures multiset(Filtered(bookings, "confirmed", now)) + multiset(Filtered(bookings, "finished", now))
         == multiset(Filter(bookings, ConfirmedWithEnd))
  {
    FilterPartition(bookings, ConfirmedWithEnd, TabTest("confirmed", now), TabTest("finished", now),
      (b: Booking) => After(BookingEnd(b), now));
  }

  // ---------------------------------------------------------------------------
  // Badge and actions
  // ---------------------------------------------------------------------------

  datatype Badge = CancelledBadge | WaitingPayment | Completed | Scheduled | NoBadge

  /** The badge of a booking at `now`: cancelled and pending by status; a confirmed booking
      is Completed once its class ended strictly before `now` and Scheduled otherwise; any
      other status has none. */
  function StatusBadge(b: Booking, now: int): (badge: Badge)
    ensures badge == CancelledBadge <==> b.status == StatusCancelled
    ensures badge == WaitingPayment <==> b.status == StatusPending
    ensures badge == Completed <==> b.status == StatusConfirmed && Before(BookingEnd(b), now)
    ensures badge == Scheduled <==> b.status == StatusConfirmed && !Before(BookingEnd(b), now)
    ensures badge == NoBadge <==> b.status !in {StatusCancelled, StatusPending, StatusConfirmed}
  {
    if b.status == StatusCancelled then CancelledBadge
    else if b.status == StatusPending then WaitingPayment
    else if b.status == StatusConfirmed then (if Before(BookingEnd(b), now) then Completed else Scheduled)
    else NoBadge
  }

  /** The badge agrees with the tabs except at one instant: a booking listed under 'confirmed'
      is Scheduled, a Completed one is listed under 'finished', but a class ending exactly at
      `now` is listed under 'finished' while still badged Scheduled. */
  lemma BadgeAgreesWithTabs(b: Booking, now: int)
    ensures InTab("confirmed", now, b) ==> StatusBadge(b, now) == Scheduled
    ensures StatusBadge(b, now) == Completed ==> InTab("finished", now, b)
    ensures b.status == StatusConfirmed && BookingEnd(b) == Some(now) ==>
              InTab("finished", now, b) && StatusBadge(b, now) == Scheduled
  {
  }

  /** The Pay button: only a booking awaiting payment. */
  predicate CanPay(b: Booking) {
    b.status == StatusPending
  }

  /** The Review link: a confirmed booking whose class ended before `now` and that has no
      review yet. */
  predicate CanReview(b: Booking, now: int) {
    b.status == StatusConfirmed && Before(BookingEnd(b), now) && b.review.None?
  }

  /** The Cancel button: a booking not already cancelled whose class starts after `now`. */
  predicate CanCancel(b: Booking, now: int) {
    b.status != StatusCancelled && After(BookingStart(b), now)
  }

  /** The actions follow the badge: Pay only on Waiting Payment, Review only on Completed,
      never Cancel on a Cancelled booking, and never Pay and Review together. */
  lemma ActionsFollowBadge(b: Booking, now: int)
    ensures CanPay(b) <==> StatusBadge(b, now) == WaitingPayment
    ensures CanReview(b, now) ==> StatusBadge(b, now) == Completed
    ensures CanCancel(b, now) ==> StatusBadge(b, now) != CancelledBadge
    ensures !(CanPay(b) && CanReview(b, now))
  {
  }

  // ---------------------------------------------------------------------------
  // The tab kept in the address
  // ---------------------------------------------------------------------------

  /** The tab shown and the `filter` query parameter of the address. */
  class BookingsTabs {
    var filter: string
    var query: Option<string>
    var cancelId: Option<int>

    /** A non-empty `filter` parameter in the address is always the tab shown. */
    predicate Valid()
      reads this
    {
      query.Some? && query.value != "" ==> filter == query.value
    }

    /** Opening the page: the tab comes from the address, 'all' when it names none. */
    constructor(q: Option<string>)
      ensures Valid()
      ensures filter == if q.Some? && q.value != "" then q.value else "all"
      ensures query == q && cancelId == None
    {
      query := q;
      filter := if q.Some? && q.value != "" then q.value else "all";
      cancelId := None;
    }

    /** The address changed (back button, a link): a non-empty parameter selects its tab, an
        empty or missing one leaves the tab alone. */
    method AddressChanged(q: Option<string>)
      modifies this
      ensures Valid()
      ensures query == q && cancelId == old(cancelId)
      ensures filter == if q.Some? && q.value != "" then q.value else old(filter)
    {
      query := q;
      if q.Some? && q.value != "" {
        filter := q.value;
      }
    }

    /** Clicking a tab shows it and writes it into the address. */
    method ChangeTab(f: string)
      modifies this
      ensures Valid()
      ensures filter == f && query == Some(f) && cancelId == old(cancelId)
    {
      filter := f;
      query := Some(f);
    }

    /** The Cancel button of a booking opens the confirmation. */
    method AskCancel(id: int)
      modifies this
      ensures cancelId == Some(id) && filter == old(filter) && query == old(query)
    {
      cancelId := Some(id);
    }

    /** The confirmation's outcome closes it, whether the server accepted it or not. */
    method CancelFinished()
      modifies this
      ensures cancelId == None && filter == old(filter) && query == old(query)
    {
      cancelId := None;
    }
  }

  /** Clicking a tab and then reading the address back shows the same tab, and so does
      reloading the page from that address: the round trip through the query parameter is
      the identity for any tab name the page can read back (an empty one reloads as 'all'). */
  method TabRoundTrip(f: string) returns (shown: string, reloaded: string)
    requires f != ""
    ensures shown == f
    ensures reloaded == f
  {
    var page := new BookingsTabs(None);
    page.ChangeTab(f);
    page.AddressChanged(page.query);
    shown := page.filter;
    var reopened := new BookingsTabs(page.query);
    reloaded := reopened.filter;
  }
}
