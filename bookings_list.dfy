/** The administrators' booking list: search, status and class filters, the status colours and
    when a booking can be cancelled. */
module BookingsList {
  import opened Wrappers
  import opened Text
  import opened Seqs
  import opened Constants
  import opened Records

  /** The list's filter state; both selects start at 'all'. */
  datatype Criteria = Criteria(search: string, status: string, service: string)

  /** The search matches the customer's name, the class name or the booking code. */
  predicate MatchesSearch(b: Booking, term: string) {
    FieldMatches(if b.user.Some? then Some(b.user.value.name) else None, term)
    || FieldMatches(ServiceName(BookingService(b)), term)
    || FieldMatches(b.bookingCode, term)
  }

  predicate MatchesStatus(b: Booking, status: string) {
    status == All || b.status == status
  }

  predicate Keep(c: Criteria, b: Booking) {
    MatchesSearch(b, c.search) && MatchesStatus(b, c.status) && IdSelected(c.service, ServiceIdText(BookingService(b)))
  }

  /** The bookings shown: those that pass every filter, in the order fetched. */
  function Filtered(bookings: seq<Booking>, c: Criteria): (r: seq<Booking>)
    ensures IsSubsequence(r, bookings)
    ensures forall i :: 0 <= i < |r| ==> Keep(c, r[i])
    ensures forall i :: 0 <= i < |bookings| && Keep(c, bookings[i]) ==> bookings[i] in r
  {
    FilterIsSubsequence(bookings, b => Keep(c, b));
    Filter(bookings, b => Keep(c, b))
  }

  /** Choosing a status or a class instead of 'all' never lengthens the list: what is shown is
      a subsequence of what 'all' shows. */
  lemma NarrowingNeverEnlarges(bookings: seq<Booking>, search: string, status: string, service: string)
    ensures IsSubsequence(Filtered(bookings, Criteria(search, status, service)), Filtered(bookings, Criteria(search, All, service)))
    ensures IsSubsequence(Filtered(bookings, Criteria(search, status, service)), Filtered(bookings, Criteria(search, status, All)))
    ensures |Filtered(bookings, Criteria(search, status, service))| <= |Filtered(bookings, Criteria(search, All, All))|
  {
    var c := Criteria(search, status, service);
    FilterNarrows(bookings, b => Keep(c, b), b => Keep(Criteria(search, All, service), b));
    FilterNarrows(bookings, b => Keep(c, b), b => Keep(Criteria(search, status, All), b));
    FilterNarrows(bookings, b => Keep(c, b), b => Keep(Criteria(search, All, All), b));
  }

  const ConfirmedColor := "bg-emerald-100 text-emerald-600"
  const PendingColor := "bg-amber-100 text-amber-600"
  const CancelledColor := "bg-red-100 text-red-600"
  const OtherColor := "bg-gray-100 text-gray-600"

  /** The status badge colour of this list. */
  function StatusColor(status: string): (color: string)
    ensures status == StatusConfirmed ==> color == ConfirmedColor
    ensures status == StatusPending ==> color == PendingColor
    ensures status == StatusCancelled ==> color == CancelledColor
    ensures status !in {StatusConfirmed, StatusPending, StatusCancelled} ==> color == OtherColor
  {
    if status == StatusConfirmed then ConfirmedColor
    else if status == StatusPending then PendingColor
    else if status == StatusCancelled then CancelledColor
    else OtherColor
  }

  /** The three handled statuses get three different colours, none of them the default. */
  lemma StatusColorsDistinct(a: string, b: string)
    requires a in {StatusConfirmed, StatusPending, StatusCancelled}
    requires b in {StatusConfirmed, StatusPending, StatusCancelled}
    ensures StatusColor(a) != OtherColor
    ensures StatusColor(a) == StatusColor(b) <==> a == b
  {
  }

  /** The cancel button appears for every booking not already cancelled, that is on exactly
      the rows whose badge is not the cancelled one. */
  predicate CanCancel(b: Booking)
    ensures CanCancel(b) <==> StatusColor(b.status) != CancelledColor
  {
    b.status != StatusCancelled
  }
}
