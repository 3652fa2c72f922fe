/** The form that creates a class occurrence: the service and instructor choices, the end time
    derived from the start and the service's length, and the check of the start on submit.
    Instants are milliseconds; an empty date field is None. */
module CreateSchedule {
  import opened Wrappers
  import opened Text
  import opened Seqs
  import opened Records

  const MinuteMillis: int := 60000
  const DefaultCapacity: int := 10
  const DefaultLocation: string := "Born Angel Studio"

  // ---------------------------------------------------------------------------
  // Service choices
  // ---------------------------------------------------------------------------

  /** An entry of a select: the text shown and the id chosen. */
  datatype Choice = Choice(title: string, value: int)

  /** `s.duration ? ... : ...`: a missing or zero duration is falsy. */
  predicate HasDuration(s: Service) {
    s.duration.Some? && s.duration.value != 0
  }

  function ServiceTitle(s: Service): (title: string)
    ensures |title| > |s.name| <==> HasDuration(s)
    ensures s.name <= title
    ensures HasDuration(s) ==> title == s.name + " (" + IntToString(s.duration.value) + " mins)"
    ensures !HasDuration(s) ==> title == s.name
  {
    if HasDuration(s) then s.name + " (" + IntToString(s.duration.value) + " mins)" else s.name
  }

  /** The service select: one entry per service, in order, valued by its id; the title carries
      the length in minutes exactly when the service has a duration. */
  function ServiceChoices(services: seq<Service>): (choices: seq<Choice>)
    ensures |choices| == |services|
    ensures forall k :: 0 <= k < |services| ==> choices[k].value == services[k].id
    ensures forall k :: 0 <= k < |services| ==>
      services[k].name <= choices[k].title
      && (|choices[k].title| > |services[k].name| <==> HasDuration(services[k]))
    ensures forall k :: 0 <= k < |services| ==> choices[k].title == ServiceTitle(services[k])
  {
    Map(services, (s: Service) => Choice(ServiceTitle(s), s.id))
  }

  // ---------------------------------------------------------------------------
  // Instructor choices
  // ---------------------------------------------------------------------------

  /** A template-literal interpolation of an optional text: a missing one prints "undefined". */
  function Interpolate(t: Option<string>): string {
    if t.Some? then t.value else "undefined"
  }

  /** An instructor entry; the title is missing when the instructor has no account. */
  datatype InstructorChoice = InstructorChoice(title: Option<string>, value: int)

  /** `!formData.service_id`: no service chosen, or the falsy id 0. */
  predicate ServiceChosen(serviceId: Option<int>) {
    serviceId.Some? && serviceId.value != 0
  }

  function Teaches(serviceId: int): Instructor -> bool {
    (i: Instructor) => i.serviceId == Some(serviceId)
  }

  function AllChoice(i: Instructor): InstructorChoice {
    InstructorChoice(Some(Interpolate(InstructorName(Some(i))) + " - " + Interpolate(ServiceName(i.service))), i.id)
  }

  function NarrowChoice(i: Instructor): InstructorChoice {
    InstructorChoice(InstructorName(Some(i)), i.id)
  }

  /** The instructor select: with no service chosen, every instructor titled "name - service";
      with one chosen, only the instructors assigned to it, titled by name, in order. */
  function InstructorChoices(instructors: seq<Instructor>, serviceId: Option<int>): (choices: seq<InstructorChoice>)
    ensures !ServiceChosen(serviceId) ==> |choices| == |instructors|
    ensures !ServiceChosen(serviceId) ==> forall k :: 0 <= k < |instructors| ==> choices[k] == AllChoice(instructors[k])
    ensures ServiceChosen(serviceId) ==> |choices| <= |instructors|
    ensures ServiceChosen(serviceId) ==> forall c :: c in choices ==>
      exists i :: i in instructors && i.serviceId == serviceId && c == NarrowChoice(i)
    ensures ServiceChosen(serviceId) ==> forall i :: i in instructors && i.serviceId == serviceId ==>
      NarrowChoice(i) in choices
  {
    if !ServiceChosen(serviceId) then
      Map(instructors, AllChoice)
    else
      var teaching := Filter(instructors, Teaches(serviceId.value));
      var r := Map(teaching, NarrowChoice);
      assert forall c :: c in r ==> exists k :: 0 <= k < |teaching| && c == NarrowChoice(teaching[k]);
      assert forall i :: i in teaching ==> NarrowChoice(i) in r;
      r
  }

  /** Choosing a service only ever narrows the instructors offered: every instructor offered
      under a service is offered when none is chosen. */
  lemma ChoosingServiceNarrows(instructors: seq<Instructor>, serviceId: int, c: InstructorChoice)
    requires serviceId != 0
    requires c in InstructorChoices(instructors, Some(serviceId))
    ensures exists d :: d in InstructorChoices(instructors, None) && d.value == c.value
  {
    var i :| i in instructors && i.serviceId == Some(serviceId) && c == NarrowChoice(i);
    var k :| 0 <= k < |instructors| && instructors[k] == i;
    assert InstructorChoices(instructors, None)[k].value == c.value;
  }

  // ---------------------------------------------------------------------------
  // The form
  // ---------------------------------------------------------------------------

  /** `services.find(s => s.id === id)`: the first service with that id. */
  function FindService(services: seq<Service>, id: Option<int>): (found: Option<Service>)
    ensures found.Some? ==> found.value in services && Some(found.value.id) == id
    ensures found.None? <==> forall s :: s in services ==> Some(s.id) != id
    ensures found.Some? ==>
      exists k :: 0 <= k < |services| && services[k] == found.value
        && forall j :: 0 <= j < k ==> Some(services[j].id) != id
  {
    if services == [] then None
    else if Some(services[0].id) == id then Some(services[0])
    else
      var rest := FindService(services[1..], id);
      assert forall s :: s in services ==> s == services[0] || s in services[1..];
      if rest.Some? then
        var k :| 0 <= k < |services[1..]| && services[1..][k] == rest.value
          && forall j :: 0 <= j < k ==> Some(services[1..][j].id) != id;
        assert services[k + 1] == rest.value;
        assert forall j :: 0 <= j < k + 1 ==> Some(services[j].id) != id by {
          forall j | 0 <= j < k + 1 ensures Some(services[j].id) != id {
            if j > 0 { assert services[j] == services[1..][j - 1]; }
          }
        }
        rest
      else rest
  }

  /** The end of a class of `service` starting at `start`. Without `duration_minutes` the sum
      is NaN, and formatting that invalid date (`toISOString`) throws a RangeError: None. */
  function EndFor(start: int, service: Service): (end: Option<int>)
    ensures end.Some? <==> service.durationMinutes.Some?
    ensures end.Some? ==> end.value - start == service.durationMinutes.value * MinuteMillis
  {
    if service.durationMinutes.None? then None
    else Some(start + service.durationMinutes.value * MinuteMillis)
  }

  datatype SubmitOutcome = RejectedPastStart | Created

  class ScheduleForm {
    var services: seq<Service>
    var instructors: seq<Instructor>
    var serviceId: Option<int>
    var instructorId: Option<int>
    var startTime: Option<int>
    var endTime: Option<int>
    var capacity: int
    var location: string

    /** The form opens empty but for a capacity of 10 and the studio as location. */
    constructor(fetchedServices: seq<Service>, fetchedInstructors: seq<Instructor>)
      ensures services == fetchedServices && instructors == fetchedInstructors
      ensures serviceId.None? && instructorId.None? && startTime.None? && endTime.None?
      ensures capacity == DefaultCapacity && location == DefaultLocation
    {
      services := fetchedServices;
      instructors := fetchedInstructors;
      serviceId := None;
      instructorId := None;
      startTime := None;
      endTime := None;
      capacity := DefaultCapacity;
      location := DefaultLocation;
    }

    /** Choosing a service: the service is set and the instructor cleared; then, when the
        service is known and a start is set, the end becomes the start plus the service's
        length. `failed` is the RangeError of a service without `duration_minutes`: it is thrown
        after the service was set, so only the end stays as it was. */
    method ServiceChanged(value: int) returns (failed: bool)
      modifies this
      ensures serviceId == Some(value) && instructorId.None?
      ensures failed <==> (FindService(services, Some(value)).Some? && startTime.Some?
        && FindService(services, Some(value)).value.durationMinutes.None?)
      ensures FindService(services, Some(value)).Some? && startTime.Some? && !failed ==>
        endTime == EndFor(startTime.value, FindService(services, Some(value)).value)
      ensures FindService(services, Some(value)).None? || startTime.None? || failed ==> endTime == old(endTime)
      ensures services == old(services) && instructors == old(instructors) && startTime == old(startTime)
      ensures capacity == old(capacity) && location == old(location)
    {
      var service := FindService(services, Some(value));
      serviceId := Some(value);
      instructorId := None;
      failed := false;
      if service.Some? && startTime.Some? {
        var end := EndFor(startTime.value, service.value);
        if end.None? {
          failed := true;
        } else {
          endTime := end;
        }
      }
    }

    method InstructorChanged(value: int)
      modifies this
      ensures instructorId == Some(value)
      ensures services == old(services) && instructors == old(instructors) && serviceId == old(serviceId)
      ensures startTime == old(startTime) && endTime == old(endTime)
      ensures capacity == old(capacity) && location == old(location)
    {
      instructorId := Some(value);
    }

    /** Changing the start: with a known service and a start set, the end follows the start;
        otherwise only the start changes. `failed` is the RangeError of a service without
        `duration_minutes`: it is thrown before the form is updated, so nothing changes, not
        even the start. */
    method StartTimeChanged(start: Option<int>) returns (failed: bool)
      modifies this
      ensures failed <==> (FindService(services, serviceId).Some? && start.Some?
        && FindService(services, serviceId).value.durationMinutes.None?)
      ensures !failed ==> startTime == start
      ensures failed ==> startTime == old(startTime)
      ensures FindService(services, serviceId).Some? && start.Some? && !failed ==>
        endTime == EndFor(start.value, FindService(services, serviceId).value)
      ensures FindService(services, serviceId).None? || start.None? || failed ==> endTime == old(endTime)
      ensures services == old(services) && instructors == old(instructors)
      ensures serviceId == old(serviceId) && instructorId == old(instructorId)
      ensures capacity == old(capacity) && location == old(location)
    {
      var service := FindService(services, serviceId);
      failed := false;
      if service.Some? && start.Some? {
        var end := EndFor(start.value, service.value);
        if end.None? {
          failed := true;
        } else {
          startTime := start;
          endTime := end;
        }
      } else {
        startTime := start;
      }
    }

    /** The end, capacity and location fields are edited directly. */
    method FieldsChanged(end: Option<int>, newCapacity: int, newLocation: string)
      modifies this
      ensures endTime == end && capacity == newCapacity && location == newLocation
      ensures services == old(services) && instructors == old(instructors)
      ensures serviceId == old(serviceId) && instructorId == old(instructorId) && startTime == old(startTime)
    {
      endTime := end;
      capacity := newCapacity;
      location := newLocation;
    }

    /** Submitting at `now`: a start before `now` is refused before anything is sent; an
        empty start is an invalid date, which compares false, so it is not refused here. */
    method Submit(now: int) returns (outcome: SubmitOutcome)
      ensures outcome == RejectedPastStart <==> startTime.Some? && startTime.value < now
      ensures startTime.None? ==> outcome == Created
    {
      if Before(startTime, now) {
        return RejectedPastStart;
      }
      return Created;
    }
  }

  /** Choosing a known service and then a start yields an end exactly one class length after
      the start, whatever the end field held before; a service without `duration_minutes`
      makes the start change fail instead, leaving the end as it was. */
  method ServiceThenStart(form: ScheduleForm, value: int, start: int) returns (end: Option<int>, failed: bool)
    requires FindService(form.services, Some(value)).Some?
    modifies form
    ensures form.services == old(form.services)
    ensures var minutes := FindService(form.services, Some(value)).value.durationMinutes;
      && (failed <==> minutes.None?)
      && (minutes.Some? ==> end == Some(start + minutes.value * MinuteMillis))
  {
    ghost var found := FindService(form.services, Some(value));
    var _ := form.ServiceChanged(value);
    assert FindService(form.services, form.serviceId) == found;
    failed := form.StartTimeChanged(Some(start));
    end := form.endTime;
  }
}
