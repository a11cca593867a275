/** The users page: one page of users fetched from the server, a
    client-side search over it, status badges and counts, and the ban,
    wallet and balance modals whose forms guard what is sent. */
module UserManagement {
  import opened Common
  import opened Text
  import opened ApiService

  datatype User = User(id: int, username: string, fullName: string, email: string, walletAddress: string,
                       isActive: bool, isAccountActivated: bool, isBanned: bool)

  // ---------------------------------------------------------------------
  // Search

  /** A user matches when the lower-cased username, full name or e-mail
      contains the lower-cased query. */
  predicate Matches(u: User, query: string) {
    ContainsIgnoringCase(u.username, query) || ContainsIgnoringCase(u.fullName, query)
    || ContainsIgnoringCase(u.email, query)
  }

  /** `handleSearch`: a query that is blank after trimming shows every
      loaded user; otherwise the matching users, in their order. The query
      itself is matched untrimmed. */
  function SearchUsers(users: seq<User>, query: string): (r: seq<User>)
    ensures IsBlank(query) ==> r == users
    ensures !IsBlank(query) ==> forall u :: u in r <==> u in users && Matches(u, query)
    ensures IsSubsequence(r, users)
  {
    if IsBlank(query) then
      SubsequenceRefl(users);
      users
    else
      FilterIsSubsequence(users, u => Matches(u, query));
      Filter(users, u => Matches(u, query))
  }

  /** Searching a single user keeps them exactly when the query is blank or
      they match it. */
  lemma SearchOne(u: User, query: string)
    ensures SearchUsers([u], query) == if IsBlank(query) || Matches(u, query) then [u] else []
  {
  }

  /** A field that lacks a character which lower-casing leaves alone (white
      space, digits, punctuation) does not contain, in any case, a query
      that starts with that character. */
  lemma MissingFirstCharNotContained(field: string, query: string)
    requires |query| > 0 && query[0] !in field && !('A' <= query[0] <= 'Z') && !('a' <= query[0] <= 'z')
    ensures !ContainsIgnoringCase(field, query)
  {
  }

  /** The query is matched as typed, not trimmed: a query that starts with
      white space and is not blank finds no user none of whose fields holds
      that white-space character, however well its trimmed text would match
      them. */
  lemma UntrimmedQueryFindsNothing(users: seq<User>, query: string)
    requires |query| > 0 && IsSpace(query[0]) && !IsBlank(query)
    requires forall i :: 0 <= i < |users| ==>
               query[0] !in users[i].username && query[0] !in users[i].fullName && query[0] !in users[i].email
    ensures SearchUsers(users, query) == []
  {
    forall i | 0 <= i < |users| ensures !Matches(users[i], query) {
      MissingFirstCharNotContained(users[i].username, query);
      MissingFirstCharNotContained(users[i].fullName, query);
      MissingFirstCharNotContained(users[i].email, query);
    }
    FilterNone(users, u => Matches(u, query));
  }

  // ---------------------------------------------------------------------
  // Badges and counts

  datatype UserStatus = Banned | Inactive | PendingActivation | Active

  /** `getStatusBadge`: banned beats inactive, which beats not yet
      activated; only a user who is none of these is Active. */
  function StatusBadge(u: User): (s: UserStatus)
    ensures s == Banned <==> u.isBanned
    ensures s == Inactive <==> !u.isBanned && !u.isActive
    ensures s == PendingActivation <==> !u.isBanned && u.isActive && !u.isAccountActivated
    ensures s == Active <==> !u.isBanned && u.isActive && u.isAccountActivated
  {
    if u.isBanned then Banned
    else if !u.isActive then Inactive
    else if !u.isAccountActivated then PendingActivation
    else Active
  }

  predicate CountsAsActive(u: User) { u.isActive && u.isAccountActivated }

  predicate CountsAsPending(u: User) { !u.isAccountActivated }

  /** The "Active Users", "Pending Activation" and "Banned Users" cards. */
  function ActiveCount(users: seq<User>): nat { Count(users, CountsAsActive) }

  function PendingCount(users: seq<User>): nat { Count(users, CountsAsPending) }

  function BannedCount(users: seq<User>): nat { Count(users, (u: User) => u.isBanned) }

  /** No user is counted both active and pending activation, so the two
      cards never add up to more than the users loaded. */
  lemma {:induction false} ActivePlusPendingAtMostTotal(users: seq<User>)
    ensures ActiveCount(users) + PendingCount(users) <= |users|
  {
    if users != [] {
      ActivePlusPendingAtMostTotal(users[1..]);
    }
  }

  /** The cards and the badges disagree on banned users: a banned user who
      is active and activated is counted as active but badged Banned. */
  lemma BannedUserCountsAsActive()
    ensures var u := User(7, "b", "B", "b@x", "", true, true, true);
      ActiveCount([u]) == 1 && StatusBadge(u) == Banned
  {
  }

  // ---------------------------------------------------------------------
  // Modal forms

  /** The ban form: a blank reason is refused; otherwise the trimmed reason
      is submitted with the typed number of days, or with none when the ban
      is permanent. */
  function BanSubmission(reason: string, days: Option<int>, isPermanent: bool): (r: Option<(string, Option<int>)>)
    ensures r.None? <==> IsBlank(reason)
    ensures r.Some? ==> r.value.0 == Trim(reason) && r.value.0 != ""
    ensures r.Some? ==> r.value.1 == (if isPermanent then None else days)
  {
    if IsBlank(reason) then None else Some((Trim(reason), if isPermanent then None else days))
  }

  /** A permanent ban reaches the server with the reason only; a timed ban
      of 0 days is sent the same way. */
  lemma PermanentBanSendsNoDays(userId: int, reason: string, days: Option<int>)
    requires !IsBlank(reason)
    ensures var s := BanSubmission(reason, days, true).value;
      BanUserRequest(userId, s.0, s.1).query == [("reason", Str(Trim(reason)))]
    ensures var s := BanSubmission(reason, Some(0), false).value;
      BanUserRequest(userId, s.0, s.1).query == [("reason", Str(Trim(reason)))]
  {
  }

  /** The wallet form: a blank address is refused; otherwise the trimmed
      address is submitted, with the trimmed reason or, when that is empty,
      no reason. */
  function WalletSubmission(address: string, reason: string): (r: Option<(string, Option<string>)>)
    ensures r.None? <==> IsBlank(address)
    ensures r.Some? ==> r.value.0 == Trim(address) && r.value.0 != ""
    ensures r.Some? ==> (r.value.1.None? <==> IsBlank(reason))
    ensures r.Some? && r.value.1.Some? ==> r.value.1.value == Trim(reason)
  {
    if IsBlank(address) then None
    else Some((Trim(address), if Trim(reason) == "" then None else Some(Trim(reason))))
  }

  /** The balance form: an unparsable or negative amount is refused. The
      parsed number is an input (None for NaN). */
  function BalanceSubmission(parsed: Option<real>, reason: string): (r: Option<(real, Option<string>)>)
    ensures r.None? <==> parsed.None? || parsed.value < 0.0
    ensures r.Some? ==> r.value.0 == parsed.value && r.value.0 >= 0.0
    ensures r.Some? ==> (r.value.1.None? <==> IsBlank(reason))
  {
    if parsed.None? || parsed.value < 0.0 then None
    else Some((parsed.value, if Trim(reason) == "" then None else Some(Trim(reason))))
  }

  // ---------------------------------------------------------------------
  // Page state

  class UserPage {
    var users: seq<User>
    var filteredUsers: seq<User>
    var loading: bool
    var searchQuery: string
    var pagination: Pagination
    var showBanModal: bool
    var showWalletModal: bool
    var showBalanceModal: bool

    constructor()
      ensures users == [] && filteredUsers == [] && loading && searchQuery == ""
      ensures pagination == Pagination(0, 0, 0, 20)
      ensures !showBanModal && !showWalletModal && !showBalanceModal
    {
      users := [];
      filteredUsers := [];
      loading := true;
      searchQuery := "";
      pagination := Pagination(0, 0, 0, 20);
      showBanModal := false;
      showWalletModal := false;
      showBalanceModal := false;
    }

    /** The list part of the state, for "nothing else changes". */
    function ListState(): (seq<User>, seq<User>, string, Pagination)
      reads this
    {
      (users, filteredUsers, searchQuery, pagination)
    }

    function Modals(): (bool, bool, bool)
      reads this
    {
      (showBanModal, showWalletModal, showBalanceModal)
    }

    /** The start of `fetchUsers`: the current page at the current size. */
    method FetchUsers() returns (r: Request)
      modifies this
      ensures r == AllUsersRequest(Some(pagination.currentPage), Some(pagination.size), None) && loading
      ensures ListState() == old(ListState()) && Modals() == old(Modals())
    {
      loading := true;
      r := AllUsersRequest(Some(pagination.currentPage), Some(pagination.size), None);
    }

    /** The outcome of `fetchUsers`: on success both the users and the shown
        users become the page content (the search is not re-applied) and
        the pagination comes from the response; on failure nothing but the
        loading flag changes. */
    method FetchUsersDone(outcome: Outcome<PageResponse<User>>)
      modifies this
      ensures outcome.Success? ==> users == outcome.data.content && filteredUsers == outcome.data.content
                                   && pagination == PaginationOf(outcome.data)
      ensures outcome.Failure? ==> users == old(users) && filteredUsers == old(filteredUsers) && pagination == old(pagination)
      ensures !loading && searchQuery == old(searchQuery) && Modals() == old(Modals())
    {
      if outcome.Success? {
        users := outcome.data.content;
        filteredUsers := outcome.data.content;
        pagination := PaginationOf(outcome.data);
      }
      loading := false;
    }

    /** A page change sets only the current page; the effect watching it
        then fetches, when the page actually changed. */
    method HandlePageChange(page: int) returns (r: Option<Request>)
      modifies this
      ensures pagination == old(pagination).(currentPage := page)
      ensures users == old(users) && filteredUsers == old(filteredUsers) && searchQuery == old(searchQuery)
      ensures Modals() == old(Modals())
      ensures page == old(pagination.currentPage) ==> r == None && loading == old(loading)
      ensures page != old(pagination.currentPage) ==> r == Some(AllUsersRequest(Some(page), Some(pagination.size), None)) && loading
    {
      var changed := page != pagination.currentPage;
      pagination := pagination.(currentPage := page);
      if changed {
        var req := FetchUsers();
        r := Some(req);
      } else {
        r := None;
      }
    }

    method HandleSearch(query: string)
      modifies this
      ensures searchQuery == query && filteredUsers == SearchUsers(users, query)
      ensures users == old(users) && pagination == old(pagination) && loading == old(loading)
      ensures showBanModal == old(showBanModal) && showWalletModal == old(showWalletModal) && showBalanceModal == old(showBalanceModal)
    {
      var shown := SearchUsers(users, query);
      searchQuery := query;
      filteredUsers := shown;
    }

    /** Activate, deactivate or unban: send the call and, only on success,
        fetch the current page again. */
    method SimpleAction(call: Request, outcome: Outcome<()>) returns (refetch: Option<Request>)
      modifies this
      ensures outcome.Success? ==> refetch == Some(AllUsersRequest(Some(pagination.currentPage), Some(pagination.size), None)) && loading
      ensures outcome.Failure? ==> refetch == None && loading == old(loading)
      ensures ListState() == old(ListState()) && Modals() == old(Modals())
    {
      if outcome.Success? {
        var r := FetchUsers();
        refetch := Some(r);
      } else {
        refetch := None;
      }
    }

    method HandleActivateUser(userId: int, outcome: Outcome<()>) returns (call: Request, refetch: Option<Request>)
      modifies this
      ensures call == Plain(ActivateUser(userId))
      ensures outcome.Success? ==> refetch == Some(AllUsersRequest(Some(pagination.currentPage), Some(pagination.size), None)) && loading
      ensures outcome.Failure? ==> refetch == None && loading == old(loading)
      ensures ListState() == old(ListState()) && Modals() == old(Modals())
    {
      call := Plain(ActivateUser(userId));
      refetch := SimpleAction(call, outcome);
    }

    method HandleDeactivateUser(userId: int, outcome: Outcome<()>) returns (call: Request, refetch: Option<Request>)
      modifies this
      ensures call == Plain(DeactivateUser(userId))
      ensures outcome.Success? ==> refetch == Some(AllUsersRequest(Some(pagination.currentPage), Some(pagination.size), None)) && loading
      ensures outcome.Failure? ==> refetch == None && loading == old(loading)
      ensures ListState() == old(ListState()) && Modals() == old(Modals())
    {
      call := Plain(DeactivateUser(userId));
      refetch := SimpleAction(call, outcome);
    }

    method HandleUnbanUser(userId: int, outcome: Outcome<()>) returns (call: Request, refetch: Option<Request>)
      modifies this
      ensures call == Plain(UnbanUser(userId))
      ensures outcome.Success? ==> refetch == Some(AllUsersRequest(Some(pagination.currentPage), Some(pagination.size), None)) && loading
      ensures outcome.Failure? ==> refetch == None && loading == old(loading)
      ensures ListState() == old(ListState()) && Modals() == old(Modals())
    {
      call := Plain(UnbanUser(userId));
      refetch := SimpleAction(call, outcome);
    }

    /** `handleBanUser`: the ban is sent as the form submitted it; success
        closes the modal and re-fetches, failure keeps the modal open. */
    method HandleBanUser(userId: int, reason: string, days: Option<int>, outcome: Outcome<()>) returns (call: Request, refetch: Option<Request>)
      modifies this
      ensures call == BanUserRequest(userId, reason, days)
      ensures outcome.Success? ==> (!showBanModal && loading
        && refetch == Some(AllUsersRequest(Some(pagination.currentPage), Some(pagination.size), None)))
      ensures outcome.Failure? ==> refetch == None && showBanModal == old(showBanModal) && loading == old(loading)
      ensures showWalletModal == old(showWalletModal) && showBalanceModal == old(showBalanceModal)
      ensures ListState() == old(ListState())
    {
      call := BanUserRequest(userId, reason, days);
      if outcome.Success? {
        showBanModal := false;
      }
      refetch := SimpleAction(call, outcome);
    }

    method HandleUpdateWallet(userId: int, walletAddress: string, reason: Option<string>, outcome: Outcome<()>) returns (call: Request, refetch: Option<Request>)
      modifies this
      ensures call == Plain(UpdateUserWallet(userId, walletAddress, reason))
      ensures outcome.Success? ==> (!showWalletModal && loading
        && refetch == Some(AllUsersRequest(Some(pagination.currentPage), Some(pagination.size), None)))
      ensures outcome.Failure? ==> refetch == None && showWalletModal == old(showWalletModal) && loading == old(loading)
      ensures showBanModal == old(showBanModal) && showBalanceModal == old(showBalanceModal)
      ensures ListState() == old(ListState())
    {
      call := Plain(UpdateUserWallet(userId, walletAddress, reason));
      if outcome.Success? {
        showWalletModal := false;
      }
      refetch := SimpleAction(call, outcome);
    }

    /** `handleUpdateBalance`: the reason the form collected is not sent. */
    method HandleUpdateBalance(userId: int, newBalance: real, reason: Option<string>, outcome: Outcome<()>) returns (call: Request, refetch: Option<Request>)
      modifies this
      ensures call == Plain(UpdateUserBalance(userId, newBalance))
      ensures outcome.Success? ==> (!showBalanceModal && loading
        && refetch == Some(AllUsersRequest(Some(pagination.currentPage), Some(pagination.size), None)))
      ensures outcome.Failure? ==> refetch == None && showBalanceModal == old(showBalanceModal) && loading == old(loading)
      ensures showBanModal == old(showBanModal) && showWalletModal == old(showWalletModal)
      ensures ListState() == old(ListState())
    {
      call := Plain(UpdateUserBalance(userId, newBalance));
      if outcome.Success? {
        showBalanceModal := false;
      }
      refetch := SimpleAction(call, outcome);
    }
  }
}
