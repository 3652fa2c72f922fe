/** The administrators' list of customer accounts and its delete confirmation. */
module UsersList {
  import opened Wrappers
  import opened Records
  import opened Seqs

  /** The page's state: the customers of the current page, the search, and the delete
      confirmation with the account it is about. */
  class UsersPage {
    var users: seq<Person>
    var searchTerm: string
    var showDeleteModal: bool
    var userToDelete: Option<Person>

    constructor()
      ensures users == [] && searchTerm == "" && !showDeleteModal && userToDelete.None?
    {
      users := [];
      searchTerm := "";
      showDeleteModal := false;
      userToDelete := None;
    }

    /** The accounts listed for the current search. */
    function Shown(): (shown: seq<Person>)
      reads this
      ensures |shown| <= |users|
      ensures IsSubsequence(shown, users)
      ensures forall i :: 0 <= i < |shown| ==> PersonMatches(searchTerm, shown[i])
      ensures forall i :: 0 <= i < |users| && PersonMatches(searchTerm, users[i]) ==> users[i] in shown
    {
      SearchPeople(users, searchTerm)
    }

    /** The delete button of an account selects it and opens the confirmation. */
    method ConfirmDelete(user: Person)
      modifies this
      ensures userToDelete == Some(user) && showDeleteModal
      ensures users == old(users) && searchTerm == old(searchTerm)
    {
      userToDelete := Some(user);
      showDeleteModal := true;
    }

    /** The confirmation's delete button, `deleted` being whether the server accepted it.
        Without a selection nothing happens; on success the confirmation closes and the
        selection is cleared; on failure both stay as they were. */
    method HandleDelete(deleted: bool) returns (requested: Option<int>)
      modifies this
      ensures old(userToDelete).None? ==> requested.None? && showDeleteModal == old(showDeleteModal) && userToDelete.None?
      ensures old(userToDelete).Some? ==> requested == Some(old(userToDelete).value.id)
      ensures old(userToDelete).Some? && deleted ==> !showDeleteModal && userToDelete.None?
      ensures old(userToDelete).Some? && !deleted ==> showDeleteModal == old(showDeleteModal) && userToDelete == old(userToDelete)
      ensures users == old(users) && searchTerm == old(searchTerm)
    {
      if userToDelete.None? {
        return None;
      }
      requested := Some(userToDelete.value.id);
      if deleted {
        showDeleteModal := false;
        userToDelete := None;
      }
    }

    /** The confirmation's cancel button hides it but keeps the selection. */
    method Cancel()
      modifies this
      ensures !showDeleteModal && userToDelete == old(userToDelete)
      ensures users == old(users) && searchTerm == old(searchTerm)
    {
      showDeleteModal := false;
    }
  }
}
