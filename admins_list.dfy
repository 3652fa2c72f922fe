/** The super administrator's list of administrator accounts. */
module AdminsList {
  import opened Wrappers
  import opened Text
  import opened Seqs
  import opened Constants
  import opened Records

  /** The account list as fetched: a paginated envelope with a `data` list, or a bare list. */
  datatype UserListing = Envelope(data: seq<Person>) | Bare(people: seq<Person>)

  /** `allUsers.data || allUsers`. */
  function Entries(listing: UserListing): seq<Person> {
    match listing
    case Envelope(data) => data
    case Bare(people) => people
  }

  predicate IsAdministrator(p: Person) {
    p.role == RoleAdmin || p.role == RoleSuperAdmin
  }

  /** The fetched accounts narrowed to the two administrator roles, in the order fetched. */
  function Administrators(listing: UserListing): (admins: seq<Person>)
    ensures IsSubsequence(admins, Entries(listing))
    ensures forall i :: 0 <= i < |admins| ==> IsAdministrator(admins[i])
    ensures forall p :: p in Entries(listing) && IsAdministrator(p) ==> p in admins
  {
    FilterIsSubsequence(Entries(listing), IsAdministrator);
    Filter(Entries(listing), IsAdministrator)
  }

  /** The list without the accounts carrying `id`. */
  function WithoutId(admins: seq<Person>, id: int): (rest: seq<Person>)
    ensures IsSubsequence(rest, admins)
    ensures forall i :: 0 <= i < |rest| ==> rest[i].id != id
    ensures forall p :: p in admins && p.id != id ==> p in rest
  {
    FilterIsSubsequence(admins, (p: Person) => p.id != id);
    Filter(admins, (p: Person) => p.id != id)
  }

  /** The heading of the empty list: a search that found nothing, or no account at all. */
  function EmptyTitle(searchTerm: string): (title: string)
    ensures searchTerm != "" ==> title == "No admins found"
    ensures searchTerm == "" ==> title == "No admins yet"
  {
    if searchTerm != "" then "No admins found" else "No admins yet"
  }

  /** The link to create an account is offered in the empty state only when nothing is
      searched for. */
  predicate OffersCreate(searchTerm: string)
    ensures OffersCreate(searchTerm) <==> EmptyTitle(searchTerm) == "No admins yet"
  {
    searchTerm == ""
  }

  /** The role badge. */
  function RoleBadge(role: string): (badge: string)
    ensures badge == "Super Admin" <==> role == RoleSuperAdmin
    ensures badge != "Super Admin" ==> badge == "Admin"
  {
    if role == RoleSuperAdmin then "Super Admin" else "Admin"
  }

  /** The page's state: the administrators loaded, the search, and the account awaiting the
      delete confirmation. */
  class AdminsPage {
    var admins: seq<Person>
    var searchTerm: string
    var deleteId: Option<int>

    /** Only administrator accounts are ever listed. */
    predicate Valid()
      reads this
    {
      forall i :: 0 <= i < |admins| ==> IsAdministrator(admins[i])
    }

    constructor()
      ensures Valid()
      ensures admins == [] && searchTerm == "" && deleteId == None
    {
      admins := [];
      searchTerm := "";
      deleteId := None;
    }

    /** The accounts listed for the current search. */
    function Shown(): (shown: seq<Person>)
      reads this
      ensures IsSubsequence(shown, admins)
      ensures forall i :: 0 <= i < |shown| ==> PersonMatches(searchTerm, shown[i])
      ensures forall i :: 0 <= i < |admins| && PersonMatches(searchTerm, admins[i]) ==> admins[i] in shown
    {
      SearchPeople(admins, searchTerm)
    }

    /** A completed fetch. */
    method Loaded(listing: UserListing)
      modifies this
      ensures admins == Administrators(listing)
      ensures searchTerm == old(searchTerm) && deleteId == old(deleteId)
      ensures Valid()
    {
      admins := Administrators(listing);
    }

    /** The delete button of an account opens the confirmation. */
    method AskDelete(id: int)
      modifies this
      ensures deleteId == Some(id)
      ensures admins == old(admins) && searchTerm == old(searchTerm)
    {
      deleteId := Some(id);
    }

    /** The confirmation's outcome, `deleted` being whether the server accepted it: on success
        exactly the accounts with the chosen id leave the list and the rest keep their order;
        either way the confirmation closes. */
    method HandleDelete(deleted: bool)
      requires Valid()
      modifies this
      ensures deleted && old(deleteId).Some? ==> admins == WithoutId(old(admins), old(deleteId).value)
      ensures !deleted || old(deleteId).None? ==> admins == old(admins)
      ensures deleteId == None && searchTerm == old(searchTerm)
      ensures Valid()
    {
      if deleted && deleteId.Some? {
        admins := WithoutId(admins, deleteId.value);
      }
      deleteId := None;
    }
  }
}
