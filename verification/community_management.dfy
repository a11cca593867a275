/** The community page: one page of chat messages (50 per page), a
    client-side search over it, the pinned/reaction/admin cards, the admin
    message box and the per-message pin, edit and delete actions, each of
    which fetches the page again once the server accepts it. */
module CommunityManagement {
  import opened Common
  import opened Text
  import opened ApiService

  datatype ChatMessage = ChatMessage(id: int, username: string, content: string, createdAt: string,
                                     isPinned: bool, isAdminMessage: bool, likesCount: int, dislikesCount: int)

  const PageSize: int := 50

  // ---------------------------------------------------------------------
  // Search

  /** A message matches when its lower-cased author or text contains the
      lower-cased query. */
  predicate MessageMatches(m: ChatMessage, query: string) {
    ContainsIgnoringCase(m.username, query) || ContainsIgnoringCase(m.content, query)
  }

  /** `handleSearch`: a blank query shows every loaded message; otherwise
      the matching messages in their order. */
  function SearchMessages(messages: seq<ChatMessage>, query: string): (r: seq<ChatMessage>)
    ensures IsBlank(query) ==> r == messages
    ensures !IsBlank(query) ==> forall m :: m in r <==> m in messages && MessageMatches(m, query)
    ensures |r| <= |messages| && IsSubsequence(r, messages)
  {
    if IsBlank(query) then
      SubsequenceRefl(messages);
      messages
    else
      FilterIsSubsequence(messages, m => MessageMatches(m, query));
      Filter(messages, m => MessageMatches(m, query))
  }

  /** The empty query is blank, so it restores the whole list; and every
      message contains the empty text, so matching never drops a message
      for an empty query either. */
  lemma EmptyQueryShowsAll(messages: seq<ChatMessage>)
    ensures SearchMessages(messages, "") == messages
    ensures forall m :: MessageMatches(m, "")
  {
    forall m: ChatMessage ensures MessageMatches(m, "") {
      EmptyContained(Lower(m.username));
    }
  }

  // ---------------------------------------------------------------------
  // Cards

  function PinnedMessages(messages: seq<ChatMessage>): (r: seq<ChatMessage>)
    ensures forall m :: m in r <==> m in messages && m.isPinned
    ensures |r| <= |messages|
  {
    Filter(messages, (m: ChatMessage) => m.isPinned)
  }

  function AdminMessageCount(messages: seq<ChatMessage>): (n: nat)
    ensures n <= |messages|
  {
    Count(messages, (m: ChatMessage) => m.isAdminMessage)
  }

  /** `totalReactions`: likes plus dislikes over the loaded messages. */
  function TotalReactions(messages: seq<ChatMessage>): int {
    if messages == [] then 0
    else messages[0].likesCount + messages[0].dislikesCount + TotalReactions(messages[1..])
  }

  /** The total adds up over any split of the list, so it does not depend on
      how the page is cut ... */
  lemma {:induction false} TotalReactionsAppend(a: seq<ChatMessage>, b: seq<ChatMessage>)
    ensures TotalReactions(a + b) == TotalReactions(a) + TotalReactions(b)
  {
    if a != [] {
      assert (a + b)[0] == a[0] && (a + b)[1..] == a[1..] + b;
      TotalReactionsAppend(a[1..], b);
    } else {
      assert a + b == b;
    }
  }

  /** ... and with no negative counters it is never negative, and a single
      message's reactions never exceed it. */
  lemma {:induction false} TotalReactionsBounds(messages: seq<ChatMessage>)
    requires forall i :: 0 <= i < |messages| ==> messages[i].likesCount >= 0 && messages[i].dislikesCount >= 0
    ensures TotalReactions(messages) >= 0
    ensures forall i :: 0 <= i < |messages| ==>
      messages[i].likesCount + messages[i].dislikesCount <= TotalReactions(messages)
  {
    if messages != [] {
      TotalReactionsBounds(messages[1..]);
      forall i | 1 <= i < |messages|
        ensures messages[i].likesCount + messages[i].dislikesCount <= TotalReactions(messages)
      {
        assert messages[i] == messages[1..][i - 1];
      }
    }
  }

  /** The message column shows at most 100 characters, then "...". */
  function ContentPreview(content: string): (shown: string)
    ensures |content| <= 100 ==> shown == content
    ensures |content| > 100 ==> shown == content[..100] + "..."
  {
    Truncate(content, 100)
  }

  // ---------------------------------------------------------------------
  // Guards

  /** The edit prompt returns the typed text, or None when cancelled; an
      edit is sent only when that text is non-empty and differs from the
      message. */
  function EditToSend(prompted: Option<string>, current: string): (r: Option<string>)
    ensures r.Some? <==> prompted.Some? && prompted.value != "" && prompted.value != current
    ensures r.Some? ==> r.value == prompted.value
  {
    if prompted.Some? && prompted.value != "" && prompted.value != current then prompted else None
  }

  /** The row shows an unpin button for a pinned message and a pin button
      otherwise. */
  function PinToggle(m: ChatMessage): (e: Endpoint)
    ensures m.isPinned <==> e == UnpinMessage(m.id)
    ensures !m.isPinned <==> e == PinMessage(m.id)
  {
    if m.isPinned then UnpinMessage(m.id) else PinMessage(m.id)
  }

  // ---------------------------------------------------------------------
  // Page state

  class CommunityPage {
    var messages: seq<ChatMessage>
    var filteredMessages: seq<ChatMessage>
    var loading: bool
    var adminMessage: string
    var sendingMessage: bool
    var searchQuery: string
    var pagination: Pagination

    constructor()
      ensures messages == [] && filteredMessages == [] && loading && adminMessage == ""
      ensures !sendingMessage && searchQuery == "" && pagination == Pagination(0, 0, 0, PageSize)
    {
      messages := [];
      filteredMessages := [];
      loading := true;
      adminMessage := "";
      sendingMessage := false;
      searchQuery := "";
      pagination := Pagination(0, 0, 0, PageSize);
    }

    function ListState(): (seq<ChatMessage>, seq<ChatMessage>, string, Pagination)
      reads this
    {
      (messages, filteredMessages, searchQuery, pagination)
    }

    /** The request for the current page at the current size. */
    function CurrentPageRequest(): (r: Request)
      reads this
      ensures r.endpoint == CommunityMessages
      ensures r.query == [("page", Number(pagination.currentPage)), ("size", Number(pagination.size))]
    {
      CommunityMessagesRequest(Some(pagination.currentPage), Some(pagination.size))
    }

    /** The start of `fetchCommunityMessages`. */
    method Fetch() returns (r: Request)
      modifies this
      ensures r == CurrentPageRequest() && loading
      ensures ListState() == old(ListState())
      ensures adminMessage == old(adminMessage) && sendingMessage == old(sendingMessage)
    {
      loading := true;
      r := CurrentPageRequest();
    }

    /** The outcome of the fetch: on success the messages and the shown
        messages both become the page content and the pagination comes
        from the response; on failure only the loading flag changes. */
    method FetchDone(outcome: Outcome<PageResponse<ChatMessage>>)
      modifies this
      ensures outcome.Success? ==> messages == outcome.data.content && filteredMessages == outcome.data.content
                                   && pagination == PaginationOf(outcome.data)
      ensures outcome.Failure? ==> messages == old(messages) && filteredMessages == old(filteredMessages)
                                   && pagination == old(pagination)
      ensures !loading && searchQuery == old(searchQuery)
      ensures adminMessage == old(adminMessage) && sendingMessage == old(sendingMessage)
    {
      if outcome.Success? {
        messages := outcome.data.content;
        filteredMessages := outcome.data.content;
        pagination := PaginationOf(outcome.data);
      }
      loading := false;
    }

    /** Typing into the admin message box. */
    method TypeAdminMessage(text: string)
      modifies this
      ensures adminMessage == text
      ensures ListState() == old(ListState()) && loading == old(loading) && sendingMessage == old(sendingMessage)
    {
      adminMessage := text;
    }

    /** `handleSendAdminMessage`: a blank message sends nothing and changes
        nothing; otherwise the text is sent as typed (untrimmed), and only
        on success is the box cleared and the page fetched again. */
    method SendAdminMessage(outcome: Outcome<()>) returns (call: Option<Request>, refetch: Option<Request>)
      modifies this
      ensures IsBlank(old(adminMessage)) ==> (call == None && refetch == None && adminMessage == old(adminMessage)
                                             && loading == old(loading) && sendingMessage == old(sendingMessage))
      ensures !IsBlank(old(adminMessage)) ==> call == Some(Plain(SendChatMessage(old(adminMessage)))) && !sendingMessage
      ensures !IsBlank(old(adminMessage)) && outcome.Success? ==>
        adminMessage == "" && loading && refetch == Some(CurrentPageRequest())
      ensures !IsBlank(old(adminMessage)) && outcome.Failure? ==>
        adminMessage == old(adminMessage) && refetch == None && loading == old(loading)
      ensures messages == old(messages) && filteredMessages == old(filteredMessages)
      ensures searchQuery == old(searchQuery) && pagination == old(pagination)
    {
      var text := adminMessage;
      var blank := IsBlank(text);
      if blank {
        call := None;
        refetch := None;
      } else {
        sendingMessage := true;
        call := Some(Plain(SendChatMessage(text)));
        refetch := SendDone(outcome);
        sendingMessage := false;
      }
    }

    /** The part of the send that follows the server's answer. */
    method SendDone(outcome: Outcome<()>) returns (refetch: Option<Request>)
      modifies this
      ensures outcome.Success? ==> adminMessage == "" && loading && refetch == Some(CurrentPageRequest())
      ensures outcome.Failure? ==> adminMessage == old(adminMessage) && refetch == None && loading == old(loading)
      ensures messages == old(messages) && filteredMessages == old(filteredMessages)
      ensures searchQuery == old(searchQuery) && pagination == old(pagination) && sendingMessage == old(sendingMessage)
    {
      if outcome.Success? {
        adminMessage := "";
        var r := Fetch();
        refetch := Some(r);
      } else {
        refetch := None;
      }
    }

    /** Pin, unpin, edit, delete and delete-all share one shape: the call
        goes out and, only on success, the page is fetched again. */
    method Mutate(e: Endpoint, outcome: Outcome<()>) returns (call: Request, refetch: Option<Request>)
      modifies this
      ensures call == Plain(e)
      ensures outcome.Success? ==> refetch == Some(CurrentPageRequest()) && loading
      ensures outcome.Failure? ==> refetch == None && loading == old(loading)
      ensures ListState() == old(ListState())
      ensures adminMessage == old(adminMessage) && sendingMessage == old(sendingMessage)
    {
      call := Plain(e);
      if outcome.Success? {
        var r := Fetch();
        refetch := Some(r);
      } else {
        refetch := None;
      }
    }

    /** The pin/unpin button of a row. */
    method HandleTogglePin(m: ChatMessage, outcome: Outcome<()>) returns (call: Request, refetch: Option<Request>)
      modifies this
      ensures call == Plain(if m.isPinned then UnpinMessage(m.id) else PinMessage(m.id))
      ensures outcome.Success? ==> refetch == Some(CurrentPageRequest()) && loading
      ensures outcome.Failure? ==> refetch == None && loading == old(loading)
      ensures ListState() == old(ListState())
      ensures adminMessage == old(adminMessage) && sendingMessage == old(sendingMessage)
    {
      call, refetch := Mutate(PinToggle(m), outcome);
    }

    /** The edit button: the prompt's answer goes through `EditToSend`;
        when it yields nothing, no call is made and nothing changes. */
    method HandleEdit(m: ChatMessage, prompted: Option<string>, outcome: Outcome<()>) returns (call: Option<Request>, refetch: Option<Request>)
      modifies this
      ensures EditToSend(prompted, m.content).None? ==> call == None && refetch == None && loading == old(loading)
      ensures EditToSend(prompted, m.content).Some? ==>
        call == Some(Plain(EditMessage(m.id, prompted.value)))
        && (outcome.Success? ==> refetch == Some(CurrentPageRequest()) && loading)
        && (outcome.Failure? ==> refetch == None && loading == old(loading))
      ensures ListState() == old(ListState())
      ensures adminMessage == old(adminMessage) && sendingMessage == old(sendingMessage)
    {
      var text := EditToSend(prompted, m.content);
      if text.None? {
        call := None;
        refetch := None;
      } else {
        var c;
        c, refetch := Mutate(EditMessage(m.id, text.value), outcome);
        call := Some(c);
      }
    }

    /** The delete button of a row and the "Delete All Messages" button:
        nothing is sent unless the user confirms. */
    method HandleDelete(target: Option<int>, confirmed: bool, outcome: Outcome<()>) returns (call: Option<Request>, refetch: Option<Request>)
      modifies this
      ensures !confirmed ==> call == None && refetch == None && loading == old(loading)
      ensures confirmed ==>
        call == Some(Plain(if target.Some? then DeleteMessage(target.value) else DeleteAllMessages))
        && (outcome.Success? ==> refetch == Some(CurrentPageRequest()) && loading)
        && (outcome.Failure? ==> refetch == None && loading == old(loading))
      ensures ListState() == old(ListState())
      ensures adminMessage == old(adminMessage) && sendingMessage == old(sendingMessage)
    {
      if !confirmed {
        call := None;
        refetch := None;
      } else {
        var c;
        c, refetch := Mutate(if target.Some? then DeleteMessage(target.value) else DeleteAllMessages, outcome);
        call := Some(c);
      }
    }

    /** A page change sets only the current page; the effect watching it
        fetches when the page actually changed. */
    method HandlePageChange(page: int) returns (r: Option<Request>)
      modifies this
      ensures pagination == old(pagination).(currentPage := page)
      ensures messages == old(messages) && filteredMessages == old(filteredMessages) && searchQuery == old(searchQuery)
      ensures adminMessage == old(adminMessage) && sendingMessage == old(sendingMessage)
      ensures page == old(pagination.currentPage) ==> r == None && loading == old(loading)
      ensures page != old(pagination.currentPage) ==> r == Some(CommunityMessagesRequest(Some(page), Some(old(pagination.size)))) && loading
    {
      var changed := page != pagination.currentPage;
      pagination := pagination.(currentPage := page);
      if changed {
        var req := Fetch();
        r := Some(req);
      } else {
        r := None;
      }
    }

    method HandleSearch(query: string)
      modifies this
      ensures searchQuery == query && filteredMessages == SearchMessages(messages, query)
      ensures messages == old(messages) && pagination == old(pagination) && loading == old(loading)
      ensures adminMessage == old(adminMessage) && sendingMessage == old(sendingMessage)
    {
      searchQuery := query;
      filteredMessages := SearchMessages(messages, query);
    }
  }
}
