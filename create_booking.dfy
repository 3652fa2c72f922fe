/** The booking page: which schedules it offers, depending on the address, the selection, and
    the guard on the confirm button. */
module CreateBooking {
  import opened Wrappers
  import opened Seqs
  import opened Records

  /** A query parameter is truthy when present and not empty. */
  predicate Given(param: Option<string>) {
    param.Some? && param.value != ""
  }

  /** What the page does with its address: go back to the class browser, load one schedule,
      or load the schedules of one service. */
  datatype Mode = BackToBrowse | OneSchedule(scheduleId: string) | ForService(serviceId: string)

  /** `schedule_id` wins over `service_id`; with neither the page leaves without loading. */
  function Dispatch(scheduleId: Option<string>, serviceId: Option<string>): (mode: Mode)
    ensures mode == BackToBrowse <==> !Given(scheduleId) && !Given(serviceId)
    ensures Given(scheduleId) ==> mode == OneSchedule(scheduleId.value)
    ensures !Given(scheduleId) && Given(serviceId) ==> mode == ForService(serviceId.value)
  {
    if !Given(scheduleId) && !Given(serviceId) then BackToBrowse
    else if Given(scheduleId) then OneSchedule(scheduleId.value)
    else ForService(serviceId.value)
  }

  /** A schedule that can still be booked at `now`: it starts later and has a free seat. */
  predicate Bookable(now: int, s: Schedule) {
    After(s.startTime, now) && s.remainingSlots.Some? && s.remainingSlots.value > 0
  }

  function BookableTest(now: int): Schedule -> bool {
    s => Bookable(now, s)
  }

  /** The service's schedules the page offers: the bookable ones, in order. */
  function UpcomingAvailable(schedules: seq<Schedule>, now: int): (offered: seq<Schedule>)
    ensures IsSubsequence(offered, schedules)
    ensures forall i :: 0 <= i < |offered| ==> Bookable(now, offered[i])
    ensures forall s :: s in schedules && Bookable(now, s) ==> s in offered
  {
    FilterIsSubsequence(schedules, BookableTest(now));
    Filter(schedules, BookableTest(now))
  }

  class BookingPage {
    var schedules: seq<Schedule>
    var selected: Option<Schedule>
    var submitting: bool

    /** The selection is always one of the schedules offered. */
    predicate Valid()
      reads this
    {
      selected.Some? ==> selected.value in schedules
    }

    constructor()
      ensures Valid()
      ensures schedules == [] && selected.None? && !submitting
    {
      schedules := [];
      selected := None;
      submitting := false;
    }

    /** The schedule named in the address: it alone is offered, already selected. */
    method LoadedOne(s: Schedule)
      modifies this
      ensures Valid()
      ensures schedules == [s] && selected == Some(s) && submitting == old(submitting)
    {
      schedules := [s];
      selected := Some(s);
    }

    /** The schedules of the service named in the address: only the bookable ones are offered. */
    method LoadedForService(all: seq<Schedule>, now: int)
      requires Valid() && selected.None?
      modifies this
      ensures Valid()
      ensures schedules == UpcomingAvailable(all, now) && selected.None? && submitting == old(submitting)
    {
      schedules := UpcomingAvailable(all, now);
    }

    /** Clicking one of the offered schedules selects it. */
    method Select(s: Schedule)
      requires s in schedules
      modifies this
      ensures Valid()
      ensures selected == Some(s) && schedules == old(schedules) && submitting == old(submitting)
      ensures forall t :: Highlighted(t) <==> t.id == s.id
    {
      selected := Some(s);
    }

    /** The confirm button is disabled with nothing selected or while a booking is sent. */
    predicate ConfirmDisabled()
      reads this
    {
      selected.None? || submitting
    }

    /** Pressing confirm: without a selection nothing is requested (the page reports an
        error); otherwise the booking of the selected schedule is requested. */
    method HandleBooking() returns (request: Option<int>)
      requires Valid()
      ensures request.None? <==> selected.None?
      ensures request.Some? ==> request.value == selected.value.id && selected.value in schedules
      ensures !ConfirmDisabled() ==> request.Some?
      ensures request.Some? ==> exists t :: t in schedules && Highlighted(t) && t.id == request.value
    {
      if selected.None? {
        return None;
      }
      request := Some(selected.value.id);
      assert Highlighted(selected.value);
    }

    /** A schedule card is highlighted when its id is the selection's. */
    predicate Highlighted(s: Schedule)
      reads this
      ensures selected.Some? && s == selected.value ==> Highlighted(s)
      ensures Highlighted(s) ==> selected.Some?
    {
      selected.Some? && selected.value.id == s.id
    }
  }

  /** Reached through a service, a confirmed request is always for a bookable schedule. */
  method BookFromService(all: seq<Schedule>, now: int, choice: Schedule) returns (request: Option<int>)
    requires choice in UpcomingAvailable(all, now)
    ensures request == Some(choice.id)
    ensures Bookable(now, choice)
  {
    var page := new BookingPage();
    page.LoadedForService(all, now);
    page.Select(choice);
    request := page.HandleBooking();
    var offered := UpcomingAvailable(all, now);
    var i :| 0 <= i < |offered| && offered[i] == choice;
  }
}
