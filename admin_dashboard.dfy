/** The administrators' dashboard: which statistic cards and panels each administrator sees. */
module AdminDashboard {
  import opened Wrappers
  import opened Seqs
  import opened Records
  import opened Layouts

  /** The statistic cards. */
  datatype StatCard = TotalRevenue | TotalBookings | ActiveUsers | UpcomingClasses {
    /** Cards for the super administrator alone. */
    predicate superOnly() {
      this == TotalRevenue
    }

    function title(): string {
      match this
      case TotalRevenue => "Total Revenue"
      case TotalBookings => "Total Bookings"
      case ActiveUsers => "Active Users"
      case UpcomingClasses => "Upcoming Classes"
    }
  }

  /** The cards in the order they are laid out. */
  const AllCards: seq<StatCard> := [TotalRevenue, TotalBookings, ActiveUsers, UpcomingClasses]

  function CardTest(superAdmin: bool): StatCard -> bool {
    (c: StatCard) => !c.superOnly() || superAdmin
  }

  /** The cards the viewer sees: every card for the super administrator; the others lose the
      revenue card and keep the rest in order. */
  function VisibleCards(user: Option<Person>): (cards: seq<StatCard>)
    ensures ViewerIsSuperAdmin(user) ==> cards == AllCards
    ensures !ViewerIsSuperAdmin(user) ==> cards == AllCards[1..]
    ensures |cards| == if ViewerIsSuperAdmin(user) then 4 else 3
    ensures forall c :: c in cards ==> c in AllCards && (!c.superOnly() || ViewerIsSuperAdmin(user))
  {
    CardsFiltered(ViewerIsSuperAdmin(user));
    Filter(AllCards, CardTest(ViewerIsSuperAdmin(user)))
  }

  /** `.filter(card => !card.superOnly || isSuperAdmin)` over the four cards. */
  lemma CardsFiltered(superAdmin: bool)
    ensures Filter(AllCards, CardTest(superAdmin)) == if superAdmin then AllCards else AllCards[1..]
  {
    var test := CardTest(superAdmin);
    var tail := AllCards[1..];
    assert forall c :: c in tail ==> test(c);
    FilterKeepsAll(tail, test);
    assert AllCards == [AllCards[0]] + tail;
  }

  /** The statistics grid has one column per visible card on wide screens. */
  function GridColumns(user: Option<Person>): (columns: nat)
    ensures columns == |VisibleCards(user)|
  {
    if ViewerIsSuperAdmin(user) then 4 else 3
  }

  /** The Best Performers panel is drawn for the super administrator only. */
  predicate ShowsBestPerformers(user: Option<Person>) {
    ViewerIsSuperAdmin(user)
  }

  /** The revenue card and the Best Performers panel go together: the viewer sees both or
      neither. */
  lemma RevenueGoesWithBestPerformers(user: Option<Person>)
    ensures TotalRevenue in VisibleCards(user) <==> ShowsBestPerformers(user)
  {
    if !ViewerIsSuperAdmin(user) {
      assert VisibleCards(user) == AllCards[1..];
    }
  }
}
