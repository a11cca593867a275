/** The REST client every page goes through: the requests it issues (an
    endpoint plus the ordered query parameters it appends), the
    Authorization header its request interceptor attaches, and the session
    teardown its response interceptor performs on 401 and on a banned 403.
    The network itself is not modelled: each page receives the outcome of a
    request as a parameter. */
module ApiService {
  import opened Common

  /** A value handed to `URLSearchParams.append` or placed in a query. */
  datatype ParamValue = Undefined | Null | Str(s: string) | Number(n: int)

  type Param = (string, ParamValue)

  /** The query string of a request, as its ordered key/value pairs. */
  type Query = seq<Param>

  /** The endpoints the modelled pages call, with the body fields they send. */
  datatype Endpoint =
    | FilteredDeposits
    | FilteredWithdrawals
    | ConfirmDeposit(depositId: int)
    | RejectDeposit(depositId: int)
    | ApproveWithdrawal(withdrawalId: int)
    | RejectWithdrawal(withdrawalId: int)
    | AllUsers
    | ActivateUser(userId: int)
    | DeactivateUser(userId: int)
    | BanUser(userId: int)
    | UnbanUser(userId: int)
    | UpdateUserWallet(userId: int, walletAddress: string, reason: Option<string>)
    | UpdateUserBalance(userId: int, newBalance: real)
    | CommunityMessages
    | PinMessage(messageId: int)
    | UnpinMessage(messageId: int)
    | EditMessage(messageId: int, content: string)
    | DeleteMessage(messageId: int)
    | DeleteAllMessages
    | SendChatMessage(content: string)
    | UpdateTicketStatus(ticketId: int)
    | ReferralTreeByUsername(username: string)
    | UpdateDepositAddress(address: string)
    | UpdateMinDepositAmount(minAmount: real)
    | BroadcastNotification

  datatype Request = Request(endpoint: Endpoint, query: Query)

  // ---------------------------------------------------------------------
  // Filtered list queries

  /** `URLSearchParams` receives an entry only when its value is neither
      undefined, null nor the empty string. */
  predicate Sendable(p: Param) {
    p.1 != Undefined && p.1 != Null && p.1 != Str("")
  }

  /** The parameters a filtered list request sends for the entries of its
      argument object: exactly the sendable ones, in their original order. */
  function SentParams(entries: seq<Param>): (q: Query)
    ensures IsSubsequence(q, entries)
    ensures forall p :: p in q <==> p in entries && Sendable(p)
  {
    FilterIsSubsequence(entries, Sendable);
    Filter(entries, Sendable)
  }

  /** The `forEach` over `Object.entries(filters)` that appends every
      sendable entry to the query buffer. */
  method BuildFilteredQuery(entries: seq<Param>) returns (params: Query)
    ensures params == SentParams(entries)
  {
    params := [];
    var i := 0;
    while i < |entries|
      invariant 0 <= i <= |entries|
      invariant params == Filter(entries[..i], Sendable)
    {
      var (key, value) := entries[i];
      FilterAppend(entries[..i], [entries[i]], Sendable);
      assert entries[..i + 1] == entries[..i] + [entries[i]];
      assert [entries[i]][1..] == [];
      assert Filter([entries[i]], Sendable) == if Sendable(entries[i]) then [entries[i]] else [];
      if value != Undefined && value != Null && value != Str("") {
        params := params + [(key, value)];
      }
      i := i + 1;
    }
    assert entries[..i] == entries;
  }

  method GetFilteredDeposits(entries: seq<Param>) returns (r: Request)
    ensures r == Request(FilteredDeposits, SentParams(entries))
  {
    var q := BuildFilteredQuery(entries);
    r := Request(FilteredDeposits, q);
  }

  method GetFilteredWithdrawals(entries: seq<Param>) returns (r: Request)
    ensures r == Request(FilteredWithdrawals, SentParams(entries))
  {
    var q := BuildFilteredQuery(entries);
    r := Request(FilteredWithdrawals, q);
  }

  /** Entries whose values are all empty strings add nothing to the query:
      the request is the one the remaining entries alone would give. */
  lemma {:induction false} EmptyValuesAddNothing(empties: seq<Param>, rest: seq<Param>)
    requires forall i :: 0 <= i < |empties| ==> empties[i].1 == Str("")
    ensures SentParams(empties + rest) == SentParams(rest)
  {
    FilterAppend(empties, rest, Sendable);
    FilterNone(empties, Sendable);
  }

  /** Entries with non-empty string or numeric values are all sent, as given. */
  lemma {:induction false} FilledValuesAllSent(entries: seq<Param>)
    requires forall i :: 0 <= i < |entries| ==> entries[i].1.Number? || (entries[i].1.Str? && entries[i].1.s != "")
    ensures SentParams(entries) == entries
  {
    FilterAll(entries, Sendable);
  }

  // ---------------------------------------------------------------------
  // Parameterised mutations

  /** `banUser`: the reason is always sent, the number of days only when
      it is truthy (present and not 0). */
  function BanUserRequest(userId: int, reason: string, days: Option<int>): (r: Request)
    ensures r.endpoint == BanUser(userId)
    ensures 1 <= |r.query| <= 2 && r.query[0] == ("reason", Str(reason))
    ensures |r.query| == 2 <==> days.Some? && days.value != 0
    ensures |r.query| == 2 ==> r.query[1] == ("days", Number(days.value))
  {
    var base := [("reason", Str(reason))];
    if days.Some? && days.value != 0 then Request(BanUser(userId), base + [("days", Number(days.value))])
    else Request(BanUser(userId), base)
  }

  /** The optional `?notes=` suffix of confirm/reject: present iff the notes
      are truthy. */
  function NotesQuery(notes: Option<string>): (q: Query)
    ensures q == [] <==> !Truthy(notes)
    ensures q != [] ==> q == [("notes", Str(notes.value))]
  {
    if Truthy(notes) then [("notes", Str(notes.value))] else []
  }

  function ConfirmDepositRequest(depositId: int, notes: Option<string>): (r: Request)
    ensures r.endpoint == ConfirmDeposit(depositId) && r.query == NotesQuery(notes)
  {
    Request(ConfirmDeposit(depositId), NotesQuery(notes))
  }

  function RejectDepositRequest(depositId: int, notes: Option<string>): (r: Request)
    ensures r.endpoint == RejectDeposit(depositId) && r.query == NotesQuery(notes)
  {
    Request(RejectDeposit(depositId), NotesQuery(notes))
  }

  function RejectWithdrawalRequest(withdrawalId: int, notes: Option<string>): (r: Request)
    ensures r.endpoint == RejectWithdrawal(withdrawalId) && r.query == NotesQuery(notes)
  {
    Request(RejectWithdrawal(withdrawalId), NotesQuery(notes))
  }

  /** `approveWithdrawal`: notes and transaction hash are each appended only
      when truthy, notes first. */
  function ApproveWithdrawalRequest(withdrawalId: int, notes: Option<string>, transactionHash: Option<string>): (r: Request)
    ensures r.endpoint == ApproveWithdrawal(withdrawalId)
    ensures (exists i :: 0 <= i < |r.query| && r.query[i].0 == "notes") <==> Truthy(notes)
    ensures (exists i :: 0 <= i < |r.query| && r.query[i].0 == "transactionHash") <==> Truthy(transactionHash)
    ensures Truthy(notes) ==> r.query[0] == ("notes", Str(notes.value))
    ensures Truthy(transactionHash) ==> r.query[|r.query| - 1] == ("transactionHash", Str(transactionHash.value))
    ensures |r.query| <= 2
  {
    var n := if Truthy(notes) then [("notes", Str(notes.value))] else [];
    var h := if Truthy(transactionHash) then [("transactionHash", Str(transactionHash.value))] else [];
    var q := n + h;
    assert Truthy(notes) ==> q[0].0 == "notes";
    assert Truthy(transactionHash) ==> q[|q| - 1].0 == "transactionHash";
    assert !Truthy(notes) ==> forall i :: 0 <= i < |q| ==> q[i].0 == "transactionHash";
    assert !Truthy(transactionHash) ==> forall i :: 0 <= i < |q| ==> q[i].0 == "notes";
    Request(ApproveWithdrawal(withdrawalId), q)
  }

  /** `page=...&size=...` of the plain paginated list endpoints. */
  function PageQuery(page: int, size: int): (q: Query)
    ensures q == [("page", Number(page)), ("size", Number(size))]
  {
    [("page", Number(page)), ("size", Number(size))]
  }

  /** `getAllUsers(page = 0, size = 20, sort = 'createdAt,desc')`: an
      argument left undefined takes its default. */
  function AllUsersRequest(page: Option<int>, size: Option<int>, sort: Option<string>): (r: Request)
    ensures r.endpoint == AllUsers && |r.query| == 3
    ensures r.query[0] == ("page", Number(if page.Some? then page.value else 0))
    ensures r.query[1] == ("size", Number(if size.Some? then size.value else 20))
    ensures r.query[2] == ("sort", Str(if sort.Some? then sort.value else "createdAt,desc"))
  {
    var p := if page.Some? then page.value else 0;
    var s := if size.Some? then size.value else 20;
    var o := if sort.Some? then sort.value else "createdAt,desc";
    Request(AllUsers, PageQuery(p, s) + [("sort", Str(o))])
  }

  lemma AllUsersDefaults()
    ensures AllUsersRequest(None, None, None).query
      == [("page", Number(0)), ("size", Number(20)), ("sort", Str("createdAt,desc"))]
  {
  }

  /** `getCommunityMessages(page = 0, size = 50)`. */
  function CommunityMessagesRequest(page: Option<int>, size: Option<int>): (r: Request)
    ensures r.endpoint == CommunityMessages
    ensures r.query == PageQuery(if page.Some? then page.value else 0, if size.Some? then size.value else 50)
  {
    Request(CommunityMessages, PageQuery(if page.Some? then page.value else 0, if size.Some? then size.value else 50))
  }

  /** `sendNotificationToAllUsers(title, message, type = 'ADMIN_MESSAGE')`:
      the three values are always sent, in this order. */
  function BroadcastRequest(title: string, message: string, notificationType: Option<string>): (r: Request)
    ensures r.endpoint == BroadcastNotification
    ensures r.query == [("title", Str(title)), ("message", Str(message)),
                        ("type", Str(if notificationType.Some? then notificationType.value else "ADMIN_MESSAGE"))]
  {
    var t := if notificationType.Some? then notificationType.value else "ADMIN_MESSAGE";
    Request(BroadcastNotification, [("title", Str(title)), ("message", Str(message)), ("type", Str(t))])
  }

  /** `updateTicketStatus(id, status)`: the status travels in the query. */
  function UpdateTicketStatusRequest(ticketId: int, status: string): (r: Request)
    ensures r.endpoint == UpdateTicketStatus(ticketId) && r.query == [("status", Str(status))]
  {
    Request(UpdateTicketStatus(ticketId), [("status", Str(status))])
  }

  /** A request without query parameters. */
  function Plain(e: Endpoint): (r: Request)
    ensures r.endpoint == e && r.query == []
  {
    Request(e, [])
  }

  // ---------------------------------------------------------------------
  // Interceptors

  /** The Authorization header a request goes out with: the request
      interceptor sets it from the stored token when that is truthy;
      otherwise the client's default header (if any) applies. */
  function RequestAuthorization(storedToken: Option<string>, defaultAuthorization: Option<string>): (h: Option<string>)
    ensures Truthy(storedToken) ==> h == Some("Bearer " + storedToken.value)
    ensures !Truthy(storedToken) ==> h == defaultAuthorization
  {
    if Truthy(storedToken) then Some("Bearer " + storedToken.value) else defaultAuthorization
  }

  /** With no default header installed, a request carries an Authorization
      header iff a (non-empty) token is stored. */
  lemma HeaderIffStoredToken(storedToken: Option<string>)
    ensures RequestAuthorization(storedToken, None).Some? <==> Truthy(storedToken)
  {
  }

  /** What the response interceptor does about the session: nothing, or
      remove the stored token and go to the login page, first showing the
      ban alert when there is one. */
  datatype SessionAction = KeepSession | EndSession(alert: Option<string>)

  predicate IsBanned(err: HttpError) {
    err.status == Some(403) && err.body.JsonBody? && err.body.error == Some("USER_BANNED")
  }

  /** The alert text of a ban, with a placeholder when no reason is given. */
  function BanMessage(banReason: Option<string>): (m: string)
    ensures Truthy(banReason) ==> m == "تم حظر حسابك. السبب: " + banReason.value
    ensures !Truthy(banReason) ==> m == "تم حظر حسابك. السبب: غير محدد"
  {
    "تم حظر حسابك. السبب: " + (if Truthy(banReason) then banReason.value else "غير محدد")
  }

  function ErrorDecision(err: HttpError): (a: SessionAction)
    ensures a.EndSession? <==> err.status == Some(401) || IsBanned(err)
    ensures a.EndSession? && a.alert.Some? <==> IsBanned(err) && err.status != Some(401)
    ensures IsBanned(err) ==> a == EndSession(Some(BanMessage(err.body.banReason)))
  {
    if err.status == Some(401) then EndSession(None)
    else if IsBanned(err) then EndSession(Some(BanMessage(err.body.banReason)))
    else KeepSession
  }

  /** Any 403 other than a ban, and every other status or a missing
      response, leaves the session alone. */
  lemma OtherErrorsKeepSession(err: HttpError)
    requires err.status != Some(401) && !IsBanned(err)
    ensures ErrorDecision(err) == KeepSession
  {
  }

  /** The client instance: the token kept in browser storage under
      `auth_token` and the default Authorization header of the axios
      instance. */
  class ApiClient {
    var storedToken: Option<string>
    var defaultAuthorization: Option<string>

    constructor(saved: Option<string>)
      ensures storedToken == saved && defaultAuthorization == None
    {
      storedToken := saved;
      defaultAuthorization := None;
    }

    /** `setToken`: install the default header for a truthy token, delete it
        for the empty one. Storage is not touched. */
    method SetToken(token: string)
      modifies this
      ensures token != "" ==> defaultAuthorization == Some("Bearer " + token)
      ensures token == "" ==> defaultAuthorization == None
      ensures storedToken == old(storedToken)
    {
      if token != "" {
        defaultAuthorization := Some("Bearer " + token);
      } else {
        defaultAuthorization := None;
      }
    }

    /** Writing or removing `auth_token` in storage. */
    method Store(token: Option<string>)
      modifies this
      ensures storedToken == token && defaultAuthorization == old(defaultAuthorization)
    {
      storedToken := token;
    }

    /** The request interceptor: the header the next request carries. */
    method Authorization() returns (h: Option<string>)
      ensures h == RequestAuthorization(storedToken, defaultAuthorization)
    {
      if storedToken.Some? && storedToken.value != "" {
        h := Some("Bearer " + storedToken.value);
      } else {
        h := defaultAuthorization;
      }
    }

    /** The response interceptor's error path: decide the session action,
        remove the stored token when the session ends, and reject with the
        very same error. */
    method OnResponseError(err: HttpError) returns (action: SessionAction, rejected: HttpError)
      modifies this
      ensures action == ErrorDecision(err) && rejected == err
      ensures storedToken == (if action.EndSession? then None else old(storedToken))
      ensures defaultAuthorization == old(defaultAuthorization)
    {
      action := ErrorDecision(err);
      if action.EndSession? {
        storedToken := None;
      }
      rejected := err;
    }
  }
}
