/** The users page (src/modules/users/UsersPage.tsx): search and status
    filter over the user list, the first ten matches as rows, the
    block/unblock menu entry and the details drawer. */
module UsersPage {
  import opened Wrappers
  import opened Types
  import opened Seqs
  import opened Text

  /** Name and e-mail are compared lower-cased; the phone number is
      searched for the query exactly as typed. */
  predicate MatchesSearch(u: User, query: string)
  {
    Includes(ToLower(u.name), ToLower(query))
    || Includes(ToLower(u.email), ToLower(query))
    || Includes(u.phone, query)
  }

  /** "all" lets every status through; any other filter value must equal
      the status's own name. */
  predicate MatchesStatus(u: User, statusFilter: string)
  {
    statusFilter == "all" || UserStatusName(u.status) == statusFilter
  }

  /** The filter callback. */
  function UserMatches(query: string, statusFilter: string): User -> bool
  {
    u => MatchesSearch(u, query) && MatchesStatus(u, statusFilter)
  }

  /** filteredUsers */
  function FilterUsers(users: seq<User>, query: string, statusFilter: string): (r: seq<User>)
    ensures forall u :: u in r <==> u in users && MatchesSearch(u, query) && MatchesStatus(u, statusFilter)
    ensures |r| <= |users|
  {
    Filter(users, UserMatches(query, statusFilter))
  }

  /** The matches keep the order of the user list. */
  lemma FilterUsersIsSubsequence(users: seq<User>, query: string, statusFilter: string)
    ensures IsSubsequence(FilterUsers(users, query, statusFilter), users)
  {
    FilterIsSubsequence(users, UserMatches(query, statusFilter));
  }

  /** An empty search under "All Status" lists every user, in order. */
  lemma EmptySearchListsEveryone(users: seq<User>)
    ensures FilterUsers(users, "", "all") == users
  {
    forall i | 0 <= i < |users|
      ensures UserMatches("", "all")(users[i])
    {
      IncludesEmpty(ToLower(users[i].name));
    }
    FilterKeepsAll(users, UserMatches("", "all"));
  }

  /** A status filter keeps exactly the users with that status. */
  lemma StatusFilterIsExact(users: seq<User>, query: string, status: UserStatus, u: User)
    ensures u in FilterUsers(users, query, UserStatusName(status)) <==>
      u in users && MatchesSearch(u, query) && u.status == status
  {
    StatusNamesDistinct();
  }

  /** A filter value that is neither "all" nor a status name (the names
      are lower-case, so "Active" is one) lists nobody. */
  lemma UnknownStatusFilterListsNobody(users: seq<User>, query: string, statusFilter: string)
    requires statusFilter != "all"
    requires forall s: UserStatus :: UserStatusName(s) != statusFilter
    ensures FilterUsers(users, query, statusFilter) == []
  {
    FilterDropsAll(users, UserMatches(query, statusFilter));
  }

  /** Two queries that lower-case alike find the same users by name and
      e-mail; only the phone comparison can tell them apart. */
  lemma SearchIgnoresCaseExceptPhone(u: User, q1: string, q2: string)
    requires ToLower(q1) == ToLower(q2)
    requires Includes(u.phone, q1) == Includes(u.phone, q2)
    ensures MatchesSearch(u, q1) == MatchesSearch(u, q2)
  {
  }

  /** The phone comparison is case-sensitive: a user whose only text is the
      phone "x" is found by "x" but not by "X". */
  lemma PhoneSearchIsCaseSensitive(u: User, upper: string, lower: string)
    requires u.name == "" && u.email == "" && u.phone == "x"
    requires upper == "X" && lower == "x"
    ensures ToLower(upper) == ToLower(lower)
    ensures MatchesSearch(u, lower) && !MatchesSearch(u, upper)
  {
    assert StartsWith(u.phone, lower);
    assert !Includes("", "x");
    assert ToLower(upper) == [LowerChar('X')];
  }

  /** The rendered rows: the first ten matches. */
  function RenderedUsers(users: seq<User>, query: string, statusFilter: string): (r: seq<User>)
    ensures |r| <= 10 && |r| <= |FilterUsers(users, query, statusFilter)|
    ensures r == FilterUsers(users, query, statusFilter)[..|r|]
    ensures |FilterUsers(users, query, statusFilter)| <= 10 ==> r == FilterUsers(users, query, statusFilter)
    ensures |FilterUsers(users, query, statusFilter)| >= 10 ==> |r| == 10
  {
    Take(FilterUsers(users, query, statusFilter), 10)
  }

  /** The row menu offers "Unblock User" for a blocked user and "Block
      User" for an active or pending one. */
  function BlockMenuLabel(u: User): (caption: string)
    ensures caption == "Unblock User" <==> u.status == Blocked
    ensures caption == "Block User" <==> u.status != Blocked
  {
    if u.status == Blocked then "Unblock User" else "Block User"
  }

  /** The toast handleBlockUser shows: "Unblocked" or "Blocked", then the
      user's name. */
  function BlockToast(u: User): (msg: string)
    ensures |msg| > |u.name| && msg[|msg| - |u.name|..] == u.name
    ensures msg[..|msg| - |u.name|] == (if u.status == Blocked then "Unblocked " else "Blocked ")
    ensures msg[0] == 'U' <==> u.status == Blocked
  {
    if u.status == Blocked then "Unblocked " + u.name else "Blocked " + u.name
  }

  class UsersPage {
    const users: seq<User>
    var searchQuery: string
    var statusFilter: string
    var selectedUser: Option<User>

    /** The page lists the matches of the current query and filter. */
    function FilteredUsers(): seq<User>
      reads this
    {
      FilterUsers(users, searchQuery, statusFilter)
    }

    /** The details drawer is open while a user is selected. */
    predicate DrawerOpen()
      reads this
    {
      selectedUser.Some?
    }

    /** A fresh page: empty search, "All Status", drawer closed; every user
        is listed. */
    constructor (mockUsers: seq<User>)
      ensures users == mockUsers
      ensures searchQuery == "" && statusFilter == "all" && selectedUser.None?
      ensures FilteredUsers() == mockUsers
    {
      users := mockUsers;
      searchQuery, statusFilter, selectedUser := "", "all", None;
      new;
      EmptySearchListsEveryone(mockUsers);
    }

    method SetSearchQuery(query: string)
      modifies this
      ensures searchQuery == query
      ensures statusFilter == old(statusFilter) && selectedUser == old(selectedUser)
    {
      searchQuery := query;
    }

    method SetStatusFilter(filter: string)
      modifies this
      ensures statusFilter == filter
      ensures searchQuery == old(searchQuery) && selectedUser == old(selectedUser)
    {
      statusFilter := filter;
    }

    /** "View Details" opens the drawer on the user. */
    method ViewDetails(u: User)
      modifies this
      ensures selectedUser == Some(u) && DrawerOpen()
      ensures searchQuery == old(searchQuery) && statusFilter == old(statusFilter)
    {
      selectedUser := Some(u);
    }

    /** Closing the drawer clears the selection. */
    method CloseDetails()
      modifies this
      ensures selectedUser.None? && !DrawerOpen()
      ensures searchQuery == old(searchQuery) && statusFilter == old(statusFilter)
    {
      selectedUser := None;
    }

    /** handleBlockUser only reports; it changes no user and no page state. */
    method HandleBlockUser(u: User) returns (toast: string)
      ensures toast == BlockToast(u)
    {
      toast := BlockToast(u);
    }
  }
}
