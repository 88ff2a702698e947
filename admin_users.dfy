/** `client/src/pages/admin/AdminUsers.tsx`: the user search and the guarded delete. */
module AdminUsers {
  import opened Types
  import opened Seqs
  import opened Text

  /** Name or email contains the term, ignoring case; "" matches all. */
  predicate UserMatches(u: User, searchTerm: string) {
    searchTerm == "" || MatchesIgnoringCase(u.name, searchTerm) || MatchesIgnoringCase(u.email, searchTerm)
  }

  function MatcherOf(searchTerm: string): User -> bool {
    (u: User) => UserMatches(u, searchTerm)
  }

  /** `filteredUsers`: exactly the matching users. */
  function FilteredUsers(users: seq<User>, searchTerm: string): (r: seq<User>)
    ensures forall x :: x in r <==> x in users && UserMatches(x, searchTerm)
  {
    Filter(users, MatcherOf(searchTerm))
  }

  /** The empty search lists everyone; any search keeps the order. */
  lemma AllShownByDefault(users: seq<User>, searchTerm: string)
    ensures FilteredUsers(users, "") == users
    ensures IsSubsequence(FilteredUsers(users, searchTerm), users)
  {
    FilterKeepsAll(users, MatcherOf(""));
    FilterIsSubsequence(users, MatcherOf(searchTerm));
  }

  /** The delete button is disabled for administrators. */
  predicate DeleteEnabled(u: User) {
    !u.isAdmin
  }

  function UserId(u: User): string {
    u.id
  }

  /** `handleDelete` on a row's button: nothing happens for an administrator (the button is
      disabled), a declined confirmation or a failed call; otherwise the users with that id
      leave the list. */
  function AfterDelete(users: seq<User>, target: User, confirmed: bool, apiOk: bool): (r: seq<User>)
    ensures DeleteEnabled(target) && confirmed && apiOk ==> forall x :: x in r <==> x in users && x.id != target.id
    ensures !(DeleteEnabled(target) && confirmed && apiOk) ==> r == users
  {
    if DeleteEnabled(target) && confirmed && apiOk then WithoutKey(users, UserId, target.id) else users
  }

  /** With unique ids, deleting from a row never removes an administrator. */
  lemma AdminsSurviveDelete(users: seq<User>, target: User, confirmed: bool, apiOk: bool)
    requires target in users
    requires forall i, j :: 0 <= i < j < |users| ==> users[i].id != users[j].id
    ensures forall x :: x in users && x.isAdmin ==> x in AfterDelete(users, target, confirmed, apiOk)
  {
  }
}
