/** The customer's class browser: the class and date filters, the four sort orders, and the
    reset button. Instants are milliseconds; `startOfToday` is local midnight of the current
    day, taken as a parameter. */
module BrowseClasses {
  import opened Wrappers
  import opened Text
  import opened Seqs
  import opened Records

  const Day: int := 24 * 60 * 60 * 1000
  const Week: int := 7 * Day

  // ---------------------------------------------------------------------------
  // Filters
  // ---------------------------------------------------------------------------

  /** The class filter: 'all', or the schedule's `service_id` as text. */
  predicate InService(selected: string, s: Schedule) {
    IdSelected(selected, Some(IntToString(s.serviceId)))
  }

  /** `start` lies in the closed interval [lo, hi]; an invalid start lies in none. */
  predicate Within(start: Option<int>, lo: int, hi: int) {
    AtOrAfter(start, lo) && AtOrBefore(start, hi)
  }

  /** The date filter: 'today' runs from midnight to 23:59:59.999, 'this-week' from midnight to
      the same instant seven days on, 'next-week' the seven days after that, both ends
      included; 'all' and any other value keep everything, past classes included. */
  predicate InDateRange(dateFilter: string, startOfToday: int, s: Schedule)
    ensures dateFilter == "today" ==> (InDateRange(dateFilter, startOfToday, s) <==>
      s.startTime.Some? && startOfToday <= s.startTime.value < startOfToday + Day)
    ensures dateFilter == "this-week" ==> (InDateRange(dateFilter, startOfToday, s) <==>
      s.startTime.Some? && startOfToday <= s.startTime.value <= startOfToday + Week)
    ensures dateFilter == "next-week" ==> (InDateRange(dateFilter, startOfToday, s) <==>
      s.startTime.Some? && startOfToday + Week <= s.startTime.value <= startOfToday + 2 * Week)
    ensures dateFilter !in {"today", "this-week", "next-week"} ==> InDateRange(dateFilter, startOfToday, s)
  {
    if dateFilter == "today" then Within(s.startTime, startOfToday, startOfToday + Day - 1)
    else if dateFilter == "this-week" then Within(s.startTime, startOfToday, startOfToday + Week)
    else if dateFilter == "next-week" then Within(s.startTime, startOfToday + Week, startOfToday + 2 * Week)
    else true
  }

  predicate Shown(selected: string, dateFilter: string, startOfToday: int, s: Schedule)
    ensures selected == "all" ==> (Shown(selected, dateFilter, startOfToday, s) <==> InDateRange(dateFilter, startOfToday, s))
    ensures Shown(selected, dateFilter, startOfToday, s) ==> InDateRange(dateFilter, startOfToday, s)
  {
    InService(selected, s) && InDateRange(dateFilter, startOfToday, s)
  }

  function ShownTest(selected: string, dateFilter: string, startOfToday: int): Schedule -> bool {
    s => Shown(selected, dateFilter, startOfToday, s)
  }

  /** Choosing a class by its numeric id shows exactly that class's schedules in the date
      range: comparing `service_id.toString()` with the choice is comparing the ids. */
  lemma ShownById(n: nat, dateFilter: string, startOfToday: int, s: Schedule)
    requires s.serviceId >= 0
    ensures Shown(NatToString(n), dateFilter, startOfToday, s) <==>
      s.serviceId == n && InDateRange(dateFilter, startOfToday, s)
  {
    NatToStringInjective(s.serviceId, n);
    var t := NatToString(n);
    assert t != "all" by {
      assert IsDigit(t[0]);
    }
  }

  /** A class is listed exactly when it was fetched and passes both filters, whatever the order. */
  lemma ListedExactlyWhenShown(schedules: seq<Schedule>, selected: string, dateFilter: string, startOfToday: int, sortOrder: string)
    ensures forall s :: s in Listing(schedules, selected, dateFilter, startOfToday, sortOrder) <==>
      s in schedules && Shown(selected, dateFilter, startOfToday, s)
  {
    var r := Listing(schedules, selected, dateFilter, startOfToday, sortOrder);
    var f := Filter(schedules, ShownTest(selected, dateFilter, startOfToday));
    forall s ensures s in r <==> s in f {
      assert s in r <==> s in multiset(r);
      assert s in f <==> s in multiset(f);
    }
  }

  /** Today's classes are among this week's. */
  lemma TodayWithinThisWeek(startOfToday: int, s: Schedule)
    ensures InDateRange("today", startOfToday, s) ==> InDateRange("this-week", startOfToday, s)
  {
  }

  /** The two week ranges share exactly one instant: a class starting seven days after
      midnight is in both. */
  lemma WeeksOverlapAtOneInstant(startOfToday: int, s: Schedule)
    ensures InDateRange("this-week", startOfToday, s) && InDateRange("next-week", startOfToday, s)
        <==> s.startTime == Some(startOfToday + Week)
  {
  }

  /** A date filter other than the three ranges keeps every schedule, even one that started
      before today. */
  lemma OtherDateFilterKeepsAll(dateFilter: string, startOfToday: int, s: Schedule)
    requires dateFilter !in {"today", "this-week", "next-week"}
    ensures InDateRange(dateFilter, startOfToday, s)
  {
  }

  // ---------------------------------------------------------------------------
  // Sorting
  // ---------------------------------------------------------------------------

  /** The price the price orders read: `schedule.service?.price`. */
  function PriceOf(s: Schedule): Option<int> {
    if s.service.Some? then s.service.value.price else None
  }

  /** The comparator of each order, as a sort key: start or price, negated for the
      descending orders, and one key for all schedules under an unknown order (the comparator
      returns 0). A missing start or price makes the source's comparator return NaN; the
      model files it under key 0. */
  function OrderKey(sortOrder: string): Schedule -> int {
    (s: Schedule) =>
      var start := s.startTime.GetOr(0);
      var price := PriceOf(s).GetOr(0);
      if sortOrder == "soonest" then start
      else if sortOrder == "latest" then -start
      else if sortOrder == "price-low" then price
      else if sortOrder == "price-high" then -price
      else 0
  }

  /** The list shown: the schedules passing both filters, stably sorted by the chosen order. */
  function Listing(schedules: seq<Schedule>, selected: string, dateFilter: string, startOfToday: int, sortOrder: string): (r: seq<Schedule>)
    ensures multiset(r) == multiset(Filter(schedules, ShownTest(selected, dateFilter, startOfToday)))
    ensures SortedBy(r, OrderKey(sortOrder))
  {
    SortByKeyCorrect(Filter(schedules, ShownTest(selected, dateFilter, startOfToday)), OrderKey(sortOrder));
    SortByKey(Filter(schedules, ShownTest(selected, dateFilter, startOfToday)), OrderKey(sortOrder))
  }

  /** The sort is stable: classes that share a sort key keep their fetched order. */
  lemma ListingStable(schedules: seq<Schedule>, selected: string, dateFilter: string, startOfToday: int, sortOrder: string)
    ensures forall k ::
      Filter(Listing(schedules, selected, dateFilter, startOfToday, sortOrder), KeyIs(OrderKey(sortOrder), k))
      == Filter(Filter(schedules, ShownTest(selected, dateFilter, startOfToday)), KeyIs(OrderKey(sortOrder), k))
  {
    forall k ensures
      Filter(Listing(schedules, selected, dateFilter, startOfToday, sortOrder), KeyIs(OrderKey(sortOrder), k))
      == Filter(Filter(schedules, ShownTest(selected, dateFilter, startOfToday)), KeyIs(OrderKey(sortOrder), k))
    {
      SortByKeyStable(Filter(schedules, ShownTest(selected, dateFilter, startOfToday)), OrderKey(sortOrder), k);
    }
  }

  /** Under 'soonest' any two classes with valid starts are listed earliest first, under
      'latest' latest first. */
  lemma StartOrders(schedules: seq<Schedule>, selected: string, dateFilter: string, startOfToday: int)
    ensures var r := Listing(schedules, selected, dateFilter, startOfToday, "soonest");
      forall i, j :: 0 <= i < j < |r| && r[i].startTime.Some? && r[j].startTime.Some? ==>
        r[i].startTime.value <= r[j].startTime.value
    ensures var r := Listing(schedules, selected, dateFilter, startOfToday, "latest");
      forall i, j :: 0 <= i < j < |r| && r[i].startTime.Some? && r[j].startTime.Some? ==>
        r[i].startTime.value >= r[j].startTime.value
  {
    var r := Listing(schedules, selected, dateFilter, startOfToday, "soonest");
    forall i, j | 0 <= i < j < |r| && r[i].startTime.Some? && r[j].startTime.Some?
      ensures r[i].startTime.value <= r[j].startTime.value
    {
      assert OrderKey("soonest")(r[i]) <= OrderKey("soonest")(r[j]);
    }
    var q := Listing(schedules, selected, dateFilter, startOfToday, "latest");
    forall i, j | 0 <= i < j < |q| && q[i].startTime.Some? && q[j].startTime.Some?
      ensures q[i].startTime.value >= q[j].startTime.value
    {
      assert OrderKey("latest")(q[i]) <= OrderKey("latest")(q[j]);
    }
  }

  /** Under 'price-low' any two classes with prices are listed cheapest first, under
      'price-high' dearest first. */
  lemma PriceOrders(schedules: seq<Schedule>, selected: string, dateFilter: string, startOfToday: int)
    ensures var r := Listing(schedules, selected, dateFilter, startOfToday, "price-low");
      forall i, j :: 0 <= i < j < |r| && PriceOf(r[i]).Some? && PriceOf(r[j]).Some? ==>
        PriceOf(r[i]).value <= PriceOf(r[j]).value
    ensures var r := Listing(schedules, selected, dateFilter, startOfToday, "price-high");
      forall i, j :: 0 <= i < j < |r| && PriceOf(r[i]).Some? && PriceOf(r[j]).Some? ==>
        PriceOf(r[i]).value >= PriceOf(r[j]).value
  {
    var r := Listing(schedules, selected, dateFilter, startOfToday, "price-low");
    forall i, j | 0 <= i < j < |r| && PriceOf(r[i]).Some? && PriceOf(r[j]).Some?
      ensures PriceOf(r[i]).value <= PriceOf(r[j]).value
    {
      assert OrderKey("price-low")(r[i]) <= OrderKey("price-low")(r[j]);
    }
    var q := Listing(schedules, selected, dateFilter, startOfToday, "price-high");
    forall i, j | 0 <= i < j < |q| && PriceOf(q[i]).Some? && PriceOf(q[j]).Some?
      ensures PriceOf(q[i]).value >= PriceOf(q[j]).value
    {
      assert OrderKey("price-high")(q[i]) <= OrderKey("price-high")(q[j]);
    }
  }

  /** An unknown sort order leaves the filtered schedules in their fetched order. */
  lemma UnknownOrderKeepsOrder(schedules: seq<Schedule>, selected: string, dateFilter: string, startOfToday: int, sortOrder: string)
    requires sortOrder !in {"soonest", "latest", "price-low", "price-high"}
    ensures Listing(schedules, selected, dateFilter, startOfToday, sortOrder)
         == Filter(schedules, ShownTest(selected, dateFilter, startOfToday))
  {
    var f := Filter(schedules, ShownTest(selected, dateFilter, startOfToday));
    var key := OrderKey(sortOrder);
    var r := SortByKey(f, key);
    SortByKeyCorrect(f, key);
    SortByKeyStable(f, key, 0);
    forall x | x in r ensures KeyIs(key, 0)(x) { }
    FilterKeepsAll(r, KeyIs(key, 0));
    FilterKeepsAll(f, KeyIs(key, 0));
  }

  // ---------------------------------------------------------------------------
  // Filter state
  // ---------------------------------------------------------------------------

  /** The three choices of the filter bar. */
  class BrowseFilters {
    var selectedServiceId: string
    var dateFilter: string
    var sortOrder: string

    /** Every class, every date, soonest first. */
    predicate IsDefault()
      reads this
    {
      selectedServiceId == "all" && dateFilter == "all" && sortOrder == "soonest"
    }

    constructor()
      ensures IsDefault()
    {
      selectedServiceId := "all";
      dateFilter := "all";
      sortOrder := "soonest";
    }

    method Choose(service: string, date: string, order: string)
      modifies this
      ensures selectedServiceId == service && dateFilter == date && sortOrder == order
    {
      selectedServiceId := service;
      dateFilter := date;
      sortOrder := order;
    }

    /** The reset button of the empty state restores the opening choices. */
    method Reset()
      modifies this
      ensures IsDefault()
    {
      selectedServiceId := "all";
      dateFilter := "all";
      sortOrder := "soonest";
    }
  }

  /** Under the opening choices every fetched schedule is listed, soonest first. */
  lemma DefaultListsEverything(schedules: seq<Schedule>, startOfToday: int)
    ensures multiset(Listing(schedules, "all", "all", startOfToday, "soonest")) == multiset(schedules)
  {
    FilterKeepsAll(schedules, ShownTest("all", "all", startOfToday));
  }
}
