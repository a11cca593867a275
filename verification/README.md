# promoxa-dashboard admin front-end: a Dafny model

This project models the deterministic core of the promoxa admin dashboard.
The dashboard is a React front-end over a REST API. The model covers the
logic that each screen runs once a server answer is in hand:

- the generic data table: the sort toggle, the sorted copy of the rows
  (cells are numbers or strings, compared as JavaScript's `<` compares them), the
  "Showing X to Y of Z" window and the prev/next buttons;
- the filter model shared by the deposits and withdrawals screens: the
  advanced filter's edited and applied copies, the quick-filter presets,
  the preset key the financial page derives from a filter, and the query
  builders that drop empty values;
- the API client's header handling and its 401/403 session teardown;
- the list pages (users, community chat, promo codes, support tickets,
  referrals): search, replace/remove by id, status filters and counts, the
  ticket lifecycle, the referral tree's expansion set and its recursive
  rendering;
- the notification store and the bell dropdown: read-marking, the unread
  counter, the first ten unread and the "time ago" buckets;
- the small state machines and validators: deposit settings, the plan
  form, the admin session, the broadcast form, the wallet chip.

Each screen's `useState` slots are the fields of a Dafny class. Every
handler is a method. A handler that waits for the server takes the answer
as an `Outcome` parameter: `Success(data)` or `Failure(err)`. Where the
handler issues a request, the method returns that request as a value of
`ApiService.Request`, an endpoint plus its query parameters. Browser
dialogs (`confirm`, `prompt`), `parseFloat`/`parseInt` and the clipboard
are parameters too: a parsed number is an `Option`, and `None` stands for
NaN. Derived values (filtered lists, counts, badges) are functions, and the
properties the screens promise are lemmas about those functions.

Shared modules: `Common` holds `Option`, `Outcome`, the HTTP error shape,
pagination, an order-keeping `Filter` and the replace-by-id update two pages share. `Text` holds the JavaScript
`trim` (its white-space set), ASCII lower-casing, substring search and
the "cut and add ..." truncation. `FilterOptions` holds the filter object as
an insertion-ordered list of distinct keys.

## Model

| member | source | states |
|---|---|---|
| DataTable.NextSort | src/components/common/DataTable.tsx:39-45 | the new sort is on the clicked column, and descending exactly when that column is currently ascending |
| DataTable.ClicksAlternate | src/components/common/DataTable.tsx:39-45 | repeated clicks on one column alternate asc, desc, asc; from "same column ascending" the first click gives desc |
| DataTable.Indicator | src/components/common/DataTable.tsx:111-118 | a header shows an arrow iff it is sortable and the current sort key, pointing in the current direction |
| DataTable.TextLess | src/components/common/DataTable.tsx:59 | JavaScript `<` on two strings: the first differing character decides, a proper prefix comes first |
| DataTable.Less | src/components/common/DataTable.tsx:59 | JavaScript `<` on two cells: numbers by value, strings by TextLess, a number and a string never |
| DataTable.LessAsymmetric | src/components/common/DataTable.tsx:59-60 | `<` never holds both ways round |
| DataTable.LessTotalOnKind | src/components/common/DataTable.tsx:59-61 | two different cells of the same kind are ordered one way or the other |
| DataTable.Compare | src/components/common/DataTable.tsx:55-62 | the comparator returns -1, 0 or 1; 0 when a row lacks the key; negative iff a<b ascending or a>b descending; 0 iff neither cell is smaller |
| DataTable.CompareAntisymmetric | src/components/common/DataTable.tsx:59-61 | if the comparator puts a after b, it puts b before a |
| DataTable.Insert | src/components/common/DataTable.tsx:55 | inserting one row adds exactly that row to the multiset of rows |
| DataTable.Sort | src/components/common/DataTable.tsx:55 | the sorted copy is a permutation of the input, of the same length |
| DataTable.SortedData | src/components/common/DataTable.tsx:52-63 | with no sort the rows are shown exactly as given; otherwise they are a permutation of them |
| DataTable.SortSorted | src/components/common/DataTable.tsx:55-62 | the sorted copy is ordered by the comparator |
| DataTable.SortHomogeneous | src/components/common/DataTable.tsx:55 | sorting keeps a key column that is all numbers, or all strings, so |
| DataTable.SortedDataOrdered | src/components/common/DataTable.tsx:59-61 | when the key column holds only numbers or only strings, ascending puts adjacent rows in non-decreasing key order and descending in non-increasing order |
| DataTable.NumbersInNumericOrder | src/components/common/DataTable.tsx:59-61 | on a numeric column "in order" is the order of the numbers |
| DataTable.DescendingReversesComparator | src/components/common/DataTable.tsx:59-60 | the descending comparator is the negated ascending one |
| DataTable.BodyView | src/components/common/DataTable.tsx:127-132 | the spinner iff loading; the empty-state row, spanning the columns plus the actions column, iff not loading and no rows; otherwise the sorted rows |
| DataTable.FooterText | src/components/common/DataTable.tsx:157-159 | from = page*size+1, to = min((page+1)*size, total), and the page and page-count texts |
| DataTable.FooterExample | src/components/common/DataTable.tsx:157-159 | an illustration of FooterText: page 0, size 20, 45 results reads "1 to 20 of 45"; page 2 reads "41 to 45 of 45" |
| DataTable.FooterWindowBounds | src/components/common/DataTable.tsx:157-159 | on a page holding results, the window is a non-empty range of at most size results inside 1..total |
| DataTable.PrevEnabled | src/components/common/DataTable.tsx:164 | prev is enabled iff the page is not the first |
| DataTable.NextEnabled | src/components/common/DataTable.tsx:174 | next is enabled iff the page is before the last |
| DataTable.PrevTarget | src/components/common/DataTable.tsx:163 | prev requests the page before |
| DataTable.NextTarget | src/components/common/DataTable.tsx:173 | next requests the page after |
| DataTable.NavigationStaysInRange | src/components/common/DataTable.tsx:162-175 | an enabled prev or next button requests a page inside [0, totalPages-1] |
| DataTable.SinglePageHasNoNavigation | src/components/common/DataTable.tsx:164-174 | on a list of one page or none, both buttons are disabled |
| DataTable.TableState.constructor | src/components/common/DataTable.tsx:36-37 | the table opens with an empty search and no sort |
| DataTable.TableState.HeaderClick | src/components/common/DataTable.tsx:111 | a sortable header applies NextSort; a non-sortable one leaves the sort unchanged |
| DataTable.TableState.HandleSearch | src/components/common/DataTable.tsx:47-50 | the text is stored and reported to the page's onSearch when there is one; the sort is untouched |
| QuickFilter.Presets | src/components/common/QuickFilter.tsx:77 | the preset table is chosen by the list type alone |
| QuickFilter.Highlighted | src/components/common/QuickFilter.tsx:83 | a key is highlighted iff some preset has it and equals the active key |
| QuickFilter.Click | src/components/common/QuickFilter.tsx:88 | a click hands over exactly the filter object of the preset with that key |
| QuickFilter.PresetKeysUnique | src/components/common/QuickFilter.tsx:11-75 | the keys of each table are distinct |
| QuickFilter.AtMostOneHighlighted | src/components/common/QuickFilter.tsx:83 | with distinct keys at most one button is highlighted, and one is iff the active key names a preset |
| QuickFilter.NoneActiveNoneHighlighted | src/components/common/QuickFilter.tsx:83 | when no preset matches the active key, no button is highlighted |
| QuickFilter.OwnKeyHighlightsOnlyItself | src/components/common/QuickFilter.tsx:83 | with distinct keys, making a preset's key active highlights that button and no other |
| QuickFilter.DepositClicks | src/components/common/QuickFilter.tsx:11-42 | the five deposit presets: all, pending, confirmed, rejected, high-value with minAmount 1000 |
| QuickFilter.WithdrawalClicks | src/components/common/QuickFilter.tsx:44-75 | the five withdrawal presets: all, pending, completed, rejected, high-value with minAmount 500 |
| FilterOptions.Get | src/components/common/AdvancedFilter.tsx:59-62 | reading a key gives the value stored under it, or None iff no entry has that key |
| FilterOptions.Set | src/components/common/AdvancedFilter.tsx:60 | `{ ...f, [k]: v }`: overwrite k where it stands or append it (its properties are the Set lemmas below) |
| FilterOptions.SetGetSame | src/components/common/AdvancedFilter.tsx:60 | after setting a key, reading it gives the new value |
| FilterOptions.SetGetOther | src/components/common/AdvancedFilter.tsx:60 | setting a key leaves every other key's value as it was |
| FilterOptions.SetKeys | src/components/common/AdvancedFilter.tsx:60 | the keys after setting are the old keys plus the set key |
| FilterOptions.SetWellFormed | src/components/common/AdvancedFilter.tsx:60 | setting a key keeps the keys distinct |
| FilterOptions.SetShape | src/components/common/AdvancedFilter.tsx:60 | a present key keeps its place; a new key is appended at the end |
| FinancialManagement.FilterEntries | src/services/apiService.ts:127-131 | the entries of a filter object, one per key, in order |
| FinancialManagement.FetchRequest | src/pages/FinancialManagement.tsx:102-146 | the filtered list request of a tab, page and filter (its shape is FetchQueryShape) |
| FinancialManagement.FetchQueryShape | src/pages/FinancialManagement.tsx:102-146 | a list request carries the filter's non-empty values in order, then the page and size 20 |
| FinancialManagement.EmptyValuedFilterIsNoFilter | src/services/apiService.ts:127-131 | a filter of only empty values requests exactly what {} requests |
| FinancialManagement.ActiveKeyAsWritten | src/pages/FinancialManagement.tsx:220-224 | the key derivation as written: {} to all, PENDING, CONFIRMED or COMPLETED to confirmed, REJECTED; with another status, a truthy minAmount gives high-value and anything else all |
| FinancialManagement.CompletedPresetHighlightsNothing | src/pages/FinancialManagement.tsx:220-224 | as written, the withdrawal 'completed' preset derives 'confirmed', and no withdrawal button is then highlighted |
| FinancialManagement.ActiveKey | src/pages/FinancialManagement.tsx:220-224 | the corrected derivation: COMPLETED gives 'completed'; everything else as written |
| FinancialManagement.CorrectionOnlyForCompleted | src/pages/FinancialManagement.tsx:220-224 | the corrected and the as-written derivations differ exactly on a non-empty filter whose status is COMPLETED |
| FinancialManagement.ActiveKeyRoundTrip | src/components/common/QuickFilter.tsx:11-75 | every preset of both tables derives its own key, so clicking it highlights exactly that button |
| FinancialManagement.PresetKeyDerived | src/components/common/QuickFilter.tsx:11-75 | the corrected derivation maps each preset's filter to that preset's key |
| FinancialManagement.ShortHash | src/pages/FinancialManagement.tsx:291 | a hash longer than 20 characters shows its first 20 and "..."; a shorter one is shown whole |
| FinancialManagement.StatusBadge | src/pages/FinancialManagement.tsx:247-256 | the badge label of each known status; the Pending badge iff the status is none of the other four |
| FinancialManagement.ActionsOffered | src/pages/FinancialManagement.tsx:515 | the row actions are offered only on PENDING rows (deposits here, withdrawals at line 557) |
| FinancialManagement.FinancialPage.constructor | src/pages/FinancialManagement.tsx:65-84 | the page opens on deposits, with empty lists, no filter, 'all' highlighted and the initial pagination |
| FinancialManagement.FinancialPage.StartFetch | src/pages/FinancialManagement.tsx:102-108 | a fetch raises loading and issues the filtered request; nothing else changes |
| FinancialManagement.FinancialPage.Mount | src/pages/FinancialManagement.tsx:94-100 | the first render loads page 0 of the active tab without filters |
| FinancialManagement.FinancialPage.SelectTab | src/pages/FinancialManagement.tsx:86-100 | switching tabs loads page 0 of the new tab without filters and keeps currentFilters; re-selecting the same tab requests nothing |
| FinancialManagement.FinancialPage.FetchDepositsDone | src/pages/FinancialManagement.tsx:102-123 | success replaces the deposits and all four pagination fields from one response; failure keeps them |
| FinancialManagement.FinancialPage.FetchWithdrawalsDone | src/pages/FinancialManagement.tsx:125-146 | the same for withdrawals |
| FinancialManagement.FinancialPage.HandleFilterChange | src/pages/FinancialManagement.tsx:148-155 | the filter replaces currentFilters entirely and page 0 is requested with it |
| FinancialManagement.FinancialPage.HandleClearFilters | src/pages/FinancialManagement.tsx:157-164 | currentFilters becomes {} and page 0 is requested without filters; the highlighted preset is not reset |
| FinancialManagement.FinancialPage.HandlePageChange | src/pages/FinancialManagement.tsx:166-172 | the page is requested with currentFilters, which is not modified |
| FinancialManagement.FinancialPage.HandleQuickFilter | src/pages/FinancialManagement.tsx:218-231 | the preset filter replaces currentFilters and page 0 is requested; the highlighted key is the corrected derivation, which differs from the page as written iff the status is COMPLETED |
| FinancialManagement.FinancialPage.Refresh | src/pages/FinancialManagement.tsx:387 | page 0 of the active tab is requested with the current filter |
| FinancialManagement.FinancialPage.ReviewDeposit | src/pages/FinancialManagement.tsx:174-194 | confirm or reject is sent with its fixed note; the current page is re-requested with currentFilters only after success |
| FinancialManagement.FinancialPage.ApproveWithdrawal | src/pages/FinancialManagement.tsx:196-204 | approval is sent with its note and "TX_" plus the time stamp; re-request only after success |
| FinancialManagement.FinancialPage.RejectWithdrawal | src/pages/FinancialManagement.tsx:206-214 | rejection is sent with its note; re-request only after success |
| AdvancedFilter.StatusOptions | src/components/common/AdvancedFilter.tsx:44-57 | deposits: '', PENDING, CONFIRMED, REJECTED; withdrawals: '', PENDING, APPROVED, REJECTED, COMPLETED |
| AdvancedFilter.StatusOptionsSendStatusUnlessAll | src/components/common/AdvancedFilter.tsx:44-57 | the options are distinct, and only "All Statuses" puts no status into the request |
| AdvancedFilter.HashFieldKey | src/components/common/AdvancedFilter.tsx:228-232 | the hash box edits transactionHash iff deposits and walletAddress iff withdrawals |
| AdvancedFilter.HasActiveFilters | src/components/common/AdvancedFilter.tsx:76 | the Active badge: some applied value is not blank once trimmed |
| AdvancedFilter.HasActiveIffSomeNonSpace | src/components/common/AdvancedFilter.tsx:76 | the Active badge shows iff some applied value is not all white space |
| AdvancedFilter.BlankValueSentButNotActive | src/components/common/AdvancedFilter.tsx:76 | any non-empty all-white-space value, under any key, leaves the badge off yet is sent to the server as it stands (apiService.ts:127-131 sends every value but '') |
| AdvancedFilter.FilterPanel.constructor | src/components/common/AdvancedFilter.tsx:41-42 | both copies start as {} |
| AdvancedFilter.FilterPanel.HandleFilterChange | src/components/common/AdvancedFilter.tsx:59-62 | only that key of the local copy changes; the applied copy is untouched |
| AdvancedFilter.FilterPanel.EditHashField | src/components/common/AdvancedFilter.tsx:228-232 | the hash box edits its list type's key and never the other one |
| AdvancedFilter.FilterPanel.ApplyFilters | src/components/common/AdvancedFilter.tsx:64-67 | applied := local, and exactly the local copy is reported |
| AdvancedFilter.FilterPanel.ClearFilters | src/components/common/AdvancedFilter.tsx:69-74 | both copies become {} and the badge goes off; the page's handler is composed in ClearOnPage |
| AdvancedFilter.ApplyOnPage | src/components/common/AdvancedFilter.tsx:64-67 | Apply then the financial page's handler: the edited copy becomes the applied copy and the page's filter, and page 0 is requested with it |
| AdvancedFilter.ClearOnPage | src/components/common/AdvancedFilter.tsx:69-74 | Clear then the financial page's handler (FinancialManagement.tsx:157-164): both copies and the page's filter are {}, the badge is off, and page 0 is requested with only page and size 20 |
| ApiService.SentParams | src/services/apiService.ts:127-131 | the query holds exactly the entries whose value is not undefined, null or '', in input order |
| ApiService.BuildFilteredQuery | src/services/apiService.ts:127-131 | the forEach loop builds exactly SentParams of the entries |
| ApiService.GetFilteredDeposits | src/services/apiService.ts:114-133 | the deposits request carries SentParams of the filter entries |
| ApiService.GetFilteredWithdrawals | src/services/apiService.ts:149-168 | the withdrawals request carries SentParams of the filter entries |
| ApiService.EmptyValuesAddNothing | src/services/apiService.ts:127-131 | entries with empty values add nothing to the query |
| ApiService.FilledValuesAllSent | src/services/apiService.ts:127-131 | entries with non-empty values are all sent, as given |
| ApiService.BanUserRequest | src/services/apiService.ts:98-104 | the reason is always sent; days only when truthy, so 0 days is omitted |
| ApiService.NotesQuery | src/services/apiService.ts:135-138 | a notes parameter is present iff the notes are non-empty |
| ApiService.ConfirmDepositRequest | src/services/apiService.ts:135-138 | confirm carries the notes parameter only when non-empty |
| ApiService.RejectDepositRequest | src/services/apiService.ts:140-143 | reject carries the notes parameter only when non-empty |
| ApiService.RejectWithdrawalRequest | src/services/apiService.ts:178-181 | reject carries the notes parameter only when non-empty |
| ApiService.ApproveWithdrawalRequest | src/services/apiService.ts:170-176 | notes and transactionHash are each present iff non-empty, notes first |
| ApiService.PageQuery | src/services/apiService.ts:205-207 | the page and size parameters of a paginated list |
| ApiService.AllUsersRequest | src/services/apiService.ts:78-80 | each missing argument takes its default: page 0, size 20, sort createdAt,desc |
| ApiService.AllUsersDefaults | src/services/apiService.ts:78-80 | with no arguments the query is page 0, size 20, sort createdAt,desc |
| ApiService.CommunityMessagesRequest | src/services/apiService.ts:205-207 | page defaults to 0 and size to 50 |
| ApiService.BroadcastRequest | src/services/apiService.ts:306-313 | title, message and type are always sent, the type defaulting to ADMIN_MESSAGE |
| ApiService.UpdateTicketStatusRequest | src/services/apiService.ts:366-368 | the new status travels as the status parameter |
| ApiService.Plain | src/services/apiService.ts:90-96 | a request with no query parameters |
| ApiService.RequestAuthorization | src/services/apiService.ts:16-27 | a non-empty stored token sets "Bearer token"; otherwise the client's default header applies |
| ApiService.HeaderIffStoredToken | src/services/apiService.ts:16-27 | with no default header, a request carries Authorization iff a token is stored |
| ApiService.BanMessage | src/services/apiService.ts:39 | the ban alert names the reason, or "غير محدد" when there is none |
| ApiService.ErrorDecision | src/services/apiService.ts:30-45 | teardown iff status 401 or a 403 USER_BANNED; a ban alert iff banned with a status other than 401 |
| ApiService.OtherErrorsKeepSession | src/services/apiService.ts:30-45 | every other error, other 403s included, keeps the session |
| ApiService.ApiClient.constructor | src/services/apiService.ts:6-13 | the client starts with the stored token and no default header |
| ApiService.ApiClient.SetToken | src/services/apiService.ts:48-54 | a non-empty token installs the default header; '' removes it; storage is untouched |
| ApiService.ApiClient.Store | src/context/AuthContext.tsx:76 | writing or removing the stored token changes only the storage |
| ApiService.ApiClient.Authorization | src/services/apiService.ts:16-27 | the interceptor attaches RequestAuthorization of the current state |
| ApiService.ApiClient.OnResponseError | src/services/apiService.ts:30-45 | the stored token is removed iff the session ends, and the same error is rejected |
| UserManagement.SearchUsers | src/pages/UserManagement.tsx:377-391 | a blank query shows all users; otherwise exactly the users whose username, name or email contains the untrimmed query, case-insensitively, as a subsequence |
| UserManagement.Matches | src/pages/UserManagement.tsx:385-389 | username, full name or email contains the query, case-insensitively |
| UserManagement.SearchOne | src/pages/UserManagement.tsx:377-391 | one user is kept iff the query is blank or the user matches it |
| UserManagement.MissingFirstCharNotContained | src/pages/UserManagement.tsx:386-388 | a field lacking the query's first character (not a letter) does not contain the query in any case |
| UserManagement.UntrimmedQueryFindsNothing | src/pages/UserManagement.tsx:380-389 | a non-blank query starting with white space that no user field contains finds nobody, though it passes the blank test: the search is not trimmed |
| UserManagement.StatusBadge | src/pages/UserManagement.tsx:473-484 | Banned beats Inactive, which beats Pending activation; Active otherwise |
| UserManagement.ActiveCount | src/pages/UserManagement.tsx:606 | the Active card: users active and activated |
| UserManagement.PendingCount | src/pages/UserManagement.tsx:617 | the Pending card: users not activated |
| UserManagement.BannedCount | src/pages/UserManagement.tsx:628 | the Banned card: banned users |
| UserManagement.ActivePlusPendingAtMostTotal | src/pages/UserManagement.tsx:606-617 | no user is counted both active and pending, so the two cards never exceed the users loaded |
| UserManagement.BannedUserCountsAsActive | src/pages/UserManagement.tsx:606 | a banned, active, activated user is counted active yet badged Banned |
| UserManagement.BanSubmission | src/pages/UserManagement.tsx:43-52 | a blank reason is refused; otherwise the trimmed reason is sent, with no days for a permanent ban |
| UserManagement.PermanentBanSendsNoDays | src/pages/UserManagement.tsx:45-52 | a permanent ban, and a timed ban of 0 days, send the reason only |
| UserManagement.WalletSubmission | src/pages/UserManagement.tsx:141-150 | a blank address is refused; a blank reason becomes undefined; both are trimmed |
| UserManagement.BalanceSubmission | src/pages/UserManagement.tsx:219-226 | an unparsable or negative amount is refused |
| UserManagement.UserPage.constructor | src/pages/UserManagement.tsx:326-339 | the page opens empty, loading, page 0 of size 20, all modals closed |
| UserManagement.UserPage.FetchUsers | src/pages/UserManagement.tsx:345-350 | the current page at the current size is requested |
| UserManagement.UserPage.FetchUsersDone | src/pages/UserManagement.tsx:351-369 | success replaces users and filteredUsers by the content and the pagination from the response; failure keeps them |
| UserManagement.UserPage.HandlePageChange | src/pages/UserManagement.tsx:373-375 | only currentPage changes; a fetch follows iff the page changed |
| UserManagement.UserPage.HandleSearch | src/pages/UserManagement.tsx:377-391 | the query is stored and filteredUsers becomes SearchUsers of it |
| UserManagement.UserPage.SimpleAction | src/pages/UserManagement.tsx:396-404 | the page is re-requested only after success |
| UserManagement.UserPage.HandleActivateUser | src/pages/UserManagement.tsx:396-404 | activate is sent; re-request only after success |
| UserManagement.UserPage.HandleDeactivateUser | src/pages/UserManagement.tsx:406-414 | deactivate is sent; re-request only after success |
| UserManagement.UserPage.HandleUnbanUser | src/pages/UserManagement.tsx:427-435 | unban is sent; re-request only after success |
| UserManagement.UserPage.HandleBanUser | src/pages/UserManagement.tsx:416-425 | the ban is sent as submitted; success closes the modal and re-fetches, failure keeps it open |
| UserManagement.UserPage.HandleUpdateWallet | src/pages/UserManagement.tsx:437-446 | the wallet update is sent with its reason; success closes the modal and re-fetches |
| UserManagement.UserPage.HandleUpdateBalance | src/pages/UserManagement.tsx:448-457 | the balance is sent without the reason; success closes the modal and re-fetches |
| CommunityManagement.SearchMessages | src/pages/CommunityManagement.tsx:150-164 | a blank query shows all messages; otherwise exactly those whose username or content contains the query case-insensitively, in order |
| CommunityManagement.EmptyQueryShowsAll | src/pages/CommunityManagement.tsx:153-156 | the empty query restores the whole list, and every message matches it |
| CommunityManagement.PinnedMessages | src/pages/CommunityManagement.tsx:237 | exactly the pinned messages |
| CommunityManagement.AdminMessageCount | src/pages/CommunityManagement.tsx:304 | the count of admin messages never exceeds the list |
| CommunityManagement.TotalReactions | src/pages/CommunityManagement.tsx:238 | the sum of likes and dislikes over the list (its properties are the two lemmas below) |
| CommunityManagement.TotalReactionsAppend | src/pages/CommunityManagement.tsx:238 | the reaction total adds up over any split of the list |
| CommunityManagement.TotalReactionsBounds | src/pages/CommunityManagement.tsx:238 | with non-negative counters the total is non-negative and at least any one message's reactions |
| CommunityManagement.ContentPreview | src/pages/CommunityManagement.tsx:200 | more than 100 characters show the first 100 and "..." |
| CommunityManagement.EditToSend | src/pages/CommunityManagement.tsx:440-445 | an edit is sent iff the prompt returned non-empty text that differs from the message |
| CommunityManagement.PinToggle | src/pages/CommunityManagement.tsx:71-89 | unpin for a pinned message, pin otherwise |
| CommunityManagement.CommunityPage.constructor | src/pages/CommunityManagement.tsx:30-41 | the page opens empty, loading, page size 50 |
| CommunityManagement.CommunityPage.CurrentPageRequest | src/pages/CommunityManagement.tsx:47-50 | the current page at the current size |
| CommunityManagement.CommunityPage.Fetch | src/pages/CommunityManagement.tsx:47-50 | the fetch raises loading and requests the current page |
| CommunityManagement.CommunityPage.FetchDone | src/pages/CommunityManagement.tsx:51-69 | success replaces messages, shown messages and pagination; failure keeps them |
| CommunityManagement.CommunityPage.TypeAdminMessage | src/pages/CommunityManagement.tsx:329 | typing changes only the message box |
| CommunityManagement.CommunityPage.SendAdminMessage | src/pages/CommunityManagement.tsx:123-144 | a blank message sends nothing; otherwise it is sent untrimmed, and only success clears the box and re-fetches |
| CommunityManagement.CommunityPage.SendDone | src/pages/CommunityManagement.tsx:133-143 | success clears the box and re-fetches; failure keeps the text |
| CommunityManagement.CommunityPage.Mutate | src/pages/CommunityManagement.tsx:71-121 | the call is sent, and the page re-requested only after success |
| CommunityManagement.CommunityPage.HandleTogglePin | src/pages/CommunityManagement.tsx:71-89 | pin or unpin by the row's state; re-request only after success |
| CommunityManagement.CommunityPage.HandleEdit | src/pages/CommunityManagement.tsx:440-445 | no call unless EditToSend yields text; then the edit is sent |
| CommunityManagement.CommunityPage.HandleDelete | src/pages/CommunityManagement.tsx:101-121 | nothing is sent unless confirmed; one message or all of them |
| CommunityManagement.CommunityPage.HandlePageChange | src/pages/CommunityManagement.tsx:146-148 | only currentPage changes; a fetch follows iff it changed |
| CommunityManagement.CommunityPage.HandleSearch | src/pages/CommunityManagement.tsx:150-164 | the query is stored and the shown messages become SearchMessages of it |
| Common.ReplaceById | src/pages/PromoCodeManagement.tsx:103-105 | the elements with that id become the response; all others and the length are unchanged (also SupportManagement.tsx:67-69) |
| PromoCodeManagement.RemoveById | src/pages/PromoCodeManagement.tsx:138 | exactly the codes with that id are removed, the rest keep their order |
| Common.ReplaceAbsentId | src/pages/PromoCodeManagement.tsx:103-105 | replacing an absent id changes nothing |
| PromoCodeManagement.RemoveAbsentId | src/pages/PromoCodeManagement.tsx:138 | removing an absent id changes nothing |
| PromoCodeManagement.RemovePresentIdShrinks | src/pages/PromoCodeManagement.tsx:138 | removing a present id shortens the list |
| PromoCodeManagement.FilteredPromoCodes | src/pages/PromoCodeManagement.tsx:205-209 | all gives every code, active the active ones, inactive the others, any other value none |
| PromoCodeManagement.ActiveCount | src/pages/PromoCodeManagement.tsx:213 | the active codes |
| PromoCodeManagement.InactiveCount | src/pages/PromoCodeManagement.tsx:214 | the inactive codes |
| PromoCodeManagement.TotalUsage | src/pages/PromoCodeManagement.tsx:215 | the sum of usedCount over the list |
| PromoCodeManagement.ActivePlusInactiveIsTotal | src/pages/PromoCodeManagement.tsx:211-214 | active + inactive = total |
| PromoCodeManagement.ReplaceUniqueIdUsage | src/pages/PromoCodeManagement.tsx:215-216 | replacing the one code with an id changes the usage total by the difference of their usedCount |
| PromoCodeManagement.RemoveLowersUsage | src/pages/PromoCodeManagement.tsx:215-216 | removing codes never raises the usage total |
| PromoCodeManagement.BeforeFirstT | src/pages/PromoCodeManagement.tsx:167 | the prefix of the text before its first 'T', or all of it |
| PromoCodeManagement.EditFormOf | src/pages/PromoCodeManagement.tsx:159-170 | the edit form copies the code; a missing bonus becomes 0; expiresAt becomes its date part or '' |
| PromoCodeManagement.DatePartOfTimestamp | src/pages/PromoCodeManagement.tsx:167 | the date part of "dateTtime" is the date |
| PromoCodeManagement.UsageLimitInput | src/pages/PromoCodeManagement.tsx:460 | a zero or unparsable usage limit becomes 1, so it is never 0 |
| PromoCodeManagement.BonusInput | src/pages/PromoCodeManagement.tsx:447 | an unparsable bonus becomes 0 |
| PromoCodeManagement.PromoPage.constructor | src/pages/PromoCodeManagement.tsx:42-58 | the page opens empty, loading, filter all, the default form |
| PromoCodeManagement.PromoPage.LoadDone | src/pages/PromoCodeManagement.tsx:64-78 | a list in the answer replaces the codes; otherwise they stay |
| PromoCodeManagement.PromoPage.CreatePromoCode | src/pages/PromoCodeManagement.tsx:80-95 | a returned code is prepended and the form reset; failure leaves the list |
| PromoCodeManagement.PromoPage.UpdatePromoCode | src/pages/PromoCodeManagement.tsx:97-116 | no selected code is a no-op; a returned code replaces its id; failure leaves the list |
| PromoCodeManagement.PromoPage.TogglePromoCodeStatus | src/pages/PromoCodeManagement.tsx:118-133 | the flipped status is requested; a returned code replaces its id; the length is unchanged |
| PromoCodeManagement.PromoPage.DeletePromoCode | src/pages/PromoCodeManagement.tsx:135-146 | only a confirmed and successful delete removes the codes with that id |
| PromoCodeManagement.PromoPage.OpenEditModal | src/pages/PromoCodeManagement.tsx:159-170 | the code is selected and the form is EditFormOf it |
| PromoCodeManagement.PromoPage.OpenDetailsModal | src/pages/PromoCodeManagement.tsx:172-175 | the code is selected and the details open |
| PromoCodeManagement.PromoPage.CancelForm | src/pages/PromoCodeManagement.tsx:148-157 | the form modals close and the form returns to its defaults |
| PromoCodeManagement.PromoPage.SetFilterStatus | src/pages/PromoCodeManagement.tsx:292 | only the filter changes |
| PromoCodeManagement.PromoPage.SetUsageLimit | src/pages/PromoCodeManagement.tsx:460 | the usage limit becomes UsageLimitInput of the parsed text |
| PromoCodeManagement.PromoPage.SetBonusAmount | src/pages/PromoCodeManagement.tsx:447 | the bonus becomes BonusInput of the parsed text |
| SupportManagement.MessageCount | src/pages/SupportManagement.tsx:250 | the number of messages, or 0 when absent |
| SupportManagement.NextStatus | src/pages/SupportManagement.tsx:267-285 | OPEN offers IN_PROGRESS, IN_PROGRESS offers CLOSED, every other status nothing |
| SupportManagement.TransitionsMoveForward | src/pages/SupportManagement.tsx:267-285 | each offered transition moves one stage forward; CLOSED offers none |
| SupportManagement.OpenTicketLifecycle | src/pages/SupportManagement.tsx:357-381 | from OPEN the buttons lead through exactly IN_PROGRESS then CLOSED |
| SupportManagement.FilteredTickets | src/pages/SupportManagement.tsx:120-122 | all gives every ticket; otherwise those whose status equals the filter |
| SupportManagement.StatusCount | src/pages/SupportManagement.tsx:126-128 | the tickets with the given status |
| SupportManagement.StatsAddUp | src/pages/SupportManagement.tsx:124-129 | open + in progress + closed = total when every status is one of the three |
| SupportManagement.UnknownStatusCountsNowhere | src/pages/SupportManagement.tsx:124-129 | a ticket with another status is in no card |
| Common.ReplaceByIdIdempotent | src/pages/SupportManagement.tsx:67-69 | replacing by the same answer twice equals replacing once |
| SupportManagement.SupportPage.constructor | src/pages/SupportManagement.tsx:37-41 | the page opens empty, loading, filter all, no details |
| SupportManagement.SupportPage.LoadDone | src/pages/SupportManagement.tsx:47-61 | a list in the answer replaces the tickets; otherwise they stay |
| SupportManagement.SupportPage.UpdateTicketStatus | src/pages/SupportManagement.tsx:63-81 | a returned ticket replaces its id, and the open details too when the ids match; failure changes nothing |
| SupportManagement.SupportPage.AdvanceFromList | src/pages/SupportManagement.tsx:267-285 | a row's button requests the next status, and only open or in-progress rows have one; a returned ticket replaces that id in the list and in the open details when they show it; no data or a failure changes neither |
| SupportManagement.SupportPage.AdvanceFromDetails | src/pages/SupportManagement.tsx:357-381 | the details button requests the next status and closes the window; a returned ticket replaces that id in the list and becomes the details; no data or a failure, or a closed ticket, changes neither |
| SupportManagement.SupportPage.ViewDetails | src/pages/SupportManagement.tsx:258-259 | the ticket is selected and the details open |
| SupportManagement.SupportPage.SetFilterStatus | src/pages/SupportManagement.tsx:201 | only the filter changes |
| NotificationContext.LoadedList | src/context/NotificationContext.tsx:51-58 | a page body gives its content, a bare array itself, anything else [] |
| NotificationContext.UnreadOf | src/context/NotificationContext.tsx:63-64 | the unread count never exceeds the list |
| NotificationContext.MarkRead | src/context/NotificationContext.tsx:90-96 | the notifications with that id become read; the others are unchanged |
| NotificationContext.MarkAllRead | src/context/NotificationContext.tsx:107-109 | every notification becomes read |
| NotificationContext.MarkAllReadLeavesNoneUnread | src/context/NotificationContext.tsx:107-111 | after marking all read nothing is unread |
| NotificationContext.MarkReadNeverRaisesUnread | src/context/NotificationContext.tsx:90-96 | marking one id read never raises the unread number |
| NotificationContext.MarkReadOfReadIdKeepsUnread | src/context/NotificationContext.tsx:90-96 | an id with no unread notification leaves the unread number as it was |
| NotificationContext.MarkReadOfUniqueUnread | src/context/NotificationContext.tsx:90-96 | marking the one unread notification with an id lowers the unread number by exactly one |
| NotificationContext.Decrement | src/context/NotificationContext.tsx:98 | max(0, count-1): never negative |
| NotificationContext.NotificationStore.constructor | src/context/NotificationContext.tsx:29-32 | the store opens empty with count 0 |
| NotificationContext.NotificationStore.Initialize | src/context/NotificationContext.tsx:119-126 | both loads start exactly once |
| NotificationContext.NotificationStore.LoadUnreadCountDone | src/context/NotificationContext.tsx:35-43 | the server's count, or 0 on failure |
| NotificationContext.NotificationStore.LoadNotificationsStart | src/context/NotificationContext.tsx:47 | loading is raised |
| NotificationContext.NotificationStore.LoadNotificationsDone | src/context/NotificationContext.tsx:45-76 | success keeps LoadedList of the body, failure []; the count matches the list in every case |
| NotificationContext.NotificationStore.MarkAsRead | src/context/NotificationContext.tsx:86-102 | success marks the id read and decrements without going below 0; failure changes nothing |
| NotificationContext.NotificationStore.MarkAllAsRead | src/context/NotificationContext.tsx:104-117 | success marks everything read and the count 0, matching the list; failure changes nothing |
| NotificationContext.MarkUniqueUnreadKeepsCount | src/context/NotificationContext.tsx:90-98 | marking the one unread notification with an id keeps the counter in step with the list |
| NotificationContext.MarkingReadTwiceUndercounts | src/context/NotificationContext.tsx:98 | marking an already-read one still lowers the counter below the list's unread number; reachable only by a repeated click, as the dropdown lists only unread ones |
| NotificationDropdown.UnreadShown | src/components/NotificationDropdown.tsx:52 | exactly the first min(10, unread) unread notifications: a prefix of the unread list, in order, a subsequence of the list |
| NotificationDropdown.FewUnreadAllShown | src/components/NotificationDropdown.tsx:52 | with 10 or fewer unread, all of them are shown |
| NotificationDropdown.HasUnread | src/components/NotificationDropdown.tsx:53 | the badge and mark-all button show iff some notification is unread |
| NotificationDropdown.ShowFooter | src/components/NotificationDropdown.tsx:147 | the footer link shows iff the list is non-empty |
| NotificationDropdown.ReadOnlyShowsFooterOnly | src/components/NotificationDropdown.tsx:72-86 | an all-read list shows the footer but neither badge nor button |
| NotificationDropdown.NotificationIcon | src/components/NotificationDropdown.tsx:13-38 | the bell iff the type is none of the ten known ones |
| NotificationDropdown.RejectionsShareAnIcon | src/components/NotificationDropdown.tsx:13-38 | the two rejections share the cross; every other pair of known types differs |
| NotificationDropdown.TimeAgo | src/components/NotificationDropdown.tsx:40-50 | now under 60 s, then whole minutes, hours and days by floor division, a date from 7 days |
| NotificationDropdown.TimeAgoMonotone | src/components/NotificationDropdown.tsx:40-50 | an older time never shows an earlier bucket or a smaller number |
| ReferralManagement.Toggle | src/pages/ReferralManagement.tsx:114-122 | only the given id's membership flips |
| ReferralManagement.ToggleTwice | src/pages/ReferralManagement.tsx:114-122 | toggling twice restores the set |
| ReferralManagement.TogglesCommute | src/pages/ReferralManagement.tsx:114-122 | toggling two ids in either order gives the same set |
| ReferralManagement.CardOf | src/pages/ReferralManagement.tsx:163-164 | the crown iff level 0, the star iff more than 5 referrals, the toggle iff there are children |
| ReferralManagement.RenderUserCard | src/pages/ReferralManagement.tsx:140-243 | the node's card, then its children's cards one level deeper when expanded (properties: RenderShape, RenderLevels) |
| ReferralManagement.RenderChildren | src/pages/ReferralManagement.tsx:238 | the children's cards in order |
| ReferralManagement.RenderShape | src/pages/ReferralManagement.tsx:236-239 | the node's card comes first, and children follow iff it is expanded and has referrals |
| ReferralManagement.RenderLevels | src/pages/ReferralManagement.tsx:236-239 | every card below a node is at a deeper level |
| ReferralManagement.CrownOnlyAtZero | src/pages/ReferralManagement.tsx:163 | a card has the crown iff it is at level 0 |
| ReferralManagement.OneCrownPerTree | src/pages/ReferralManagement.tsx:163 | a rendered tree has exactly one crown, on its root |
| ReferralManagement.NothingExpandedOneCard | src/pages/ReferralManagement.tsx:141-142 | with nothing expanded a tree renders one card |
| ReferralManagement.RenderAtMostTreeSize | src/pages/ReferralManagement.tsx:236-239 | a tree never renders more cards than it has nodes |
| ReferralManagement.OverviewTrees | src/pages/ReferralManagement.tsx:442 | at most the first 10 trees |
| ReferralManagement.ReferralPage.OverviewCards | src/pages/ReferralManagement.tsx:442 | one rendered tree at level 0 per shown tree |
| ReferralManagement.ReferralPage.constructor | src/pages/ReferralManagement.tsx:65-72 | the overview tab, nothing loaded, nothing expanded |
| ReferralManagement.ReferralPage.LoadDataDone | src/pages/ReferralManagement.tsx:78-96 | the three answers are stored together on success; nothing changes on failure |
| ReferralManagement.ReferralPage.ToggleUserExpansion | src/pages/ReferralManagement.tsx:114-122 | the expansion set becomes Toggle of it |
| ReferralManagement.ReferralPage.HandleUserSearch | src/pages/ReferralManagement.tsx:98-112 | a blank query does nothing; otherwise the username is requested and success selects the user and opens the user tree |
| ReferralManagement.ReferralPage.SearchDone | src/pages/ReferralManagement.tsx:103-111 | success selects the user and opens the user-tree tab; failure keeps both |
| ReferralManagement.ReferralPage.SetSearchQuery | src/pages/ReferralManagement.tsx:486 | only the query changes |
| ReferralManagement.ReferralPage.SetActiveTab | src/pages/ReferralManagement.tsx:376-415 | only the tab changes |
| WalletAddress.DisplayAddress | src/components/common/WalletAddress.tsx:47-49 | the first maxLength characters and "..." when longer, otherwise unchanged; maxLength defaults to 15 |
| WalletAddress.DefaultCutsEthereumAddress | src/components/common/WalletAddress.tsx:17 | an illustration of DisplayAddress: a 42-character address is shown as 18 characters, its first 15 kept |
| WalletAddress.ExplorerUrl | src/components/common/WalletAddress.tsx:43 | the given URL when non-empty, else the Etherscan prefix plus the address |
| WalletAddress.WalletAddressView.constructor | src/components/common/WalletAddress.tsx:20 | the chip starts not copied |
| WalletAddress.WalletAddressView.HandleCopy | src/components/common/WalletAddress.tsx:22-40 | both copy paths copy the full address and set copied |
| WalletAddress.WalletAddressView.CopiedTimeout | src/components/common/WalletAddress.tsx:27 | the timer clears copied |
| DepositSettings.ErrorMessage | src/components/common/DepositSettings.tsx:75-85 | a non-empty string body as is, else a non-empty message, else the default |
| DepositSettings.ErrorMessageNeverEmpty | src/components/common/DepositSettings.tsx:116-127 | the shown error is never empty |
| DepositSettings.DepositSettingsPanel.constructor | src/components/common/DepositSettings.tsx:19-25 | everything empty and not editing |
| DepositSettings.DepositSettingsPanel.FetchDone | src/components/common/DepositSettings.tsx:31-47 | both values are set together on success, neither on failure |
| DepositSettings.DepositSettingsPanel.EditAddress | src/components/common/DepositSettings.tsx:49-52 | temp := current and editing on |
| DepositSettings.DepositSettingsPanel.CancelAddressEdit | src/components/common/DepositSettings.tsx:54-57 | editing off and temp restored; the current address is unchanged |
| DepositSettings.DepositSettingsPanel.TypeAddress | src/components/common/DepositSettings.tsx:180 | only temp changes |
| DepositSettings.DepositSettingsPanel.SaveAddress | src/components/common/DepositSettings.tsx:59-89 | blank is refused without a call; success makes temp current and ends editing; failure keeps both and reports ErrorMessage |
| DepositSettings.DepositSettingsPanel.SaveAddressDone | src/components/common/DepositSettings.tsx:66-88 | the answer's effect on the address cycle |
| DepositSettings.DepositSettingsPanel.EditMinAmount | src/components/common/DepositSettings.tsx:91-94 | temp := current and editing on |
| DepositSettings.DepositSettingsPanel.CancelMinAmountEdit | src/components/common/DepositSettings.tsx:96-99 | editing off and temp restored; the current amount is unchanged |
| DepositSettings.DepositSettingsPanel.TypeMinAmount | src/components/common/DepositSettings.tsx:259 | only temp changes |
| DepositSettings.DepositSettingsPanel.SaveMinAmount | src/components/common/DepositSettings.tsx:100-130 | NaN or a value not above 0 is refused without a call; success makes temp current; failure keeps it and reports ErrorMessage |
| DepositSettings.EditTypeCancelRestores | src/components/common/DepositSettings.tsx:49-57 | edit, type, cancel leaves the address as it was |
| PlanForm.Validate | src/components/common/PlanForm.tsx:38-61 | name blank iff the name error; no error iff every check passes |
| PlanForm.ErrorText | src/components/common/PlanForm.tsx:38-61 | the toast text of each failed check |
| PlanForm.ReportsFirstFailure | src/components/common/PlanForm.tsx:38-61 | the reported check fails and every earlier check passes; no error iff no check fails |
| PlanForm.EqualMinMaxAccepted | src/components/common/PlanForm.tsx:58 | a maximum equal to the minimum is accepted |
| PlanForm.MaxBelowMinRefused | src/components/common/PlanForm.tsx:58-61 | a positive maximum below the minimum gets the ordering error |
| PlanForm.NotANumberPasses | src/components/common/PlanForm.tsx:43-56 | non-empty text that parses to NaN passes every amount check |
| PlanForm.WithField | src/components/common/PlanForm.tsx:74-79 | the named field takes the value; every other field stays |
| PlanForm.WithSameValueUnchanged | src/components/common/PlanForm.tsx:74-79 | writing a field's own value back changes nothing |
| PlanForm.PlanFormState.constructor | src/components/common/PlanForm.tsx:21-33 | the form holds the provided plan, else empty fields |
| PlanForm.PlanFormState.LoadPlan | src/components/common/PlanForm.tsx:29-33 | a provided plan is loaded into the form |
| PlanForm.PlanFormState.HandleInputChange | src/components/common/PlanForm.tsx:74-79 | the form becomes WithField of the change |
| PlanForm.PlanFormState.HandleSubmit | src/components/common/PlanForm.tsx:35-72 | the form goes to onSave iff Validate finds nothing; otherwise the first failure's text is reported |
| AuthContext.IsAuthenticated | src/context/AuthContext.tsx:100 | true only with a token and a user; false without either or with the empty token |
| AuthContext.LoginErrorText | src/context/AuthContext.tsx:84 | the body's non-empty message, else "Login failed" |
| AuthContext.AuthSession.constructor | src/context/AuthContext.tsx:38-40 | the token state starts as the stored token, with no user, loading |
| AuthContext.AuthSession.InitializeAuth | src/context/AuthContext.tsx:42-57 | a saved token whose profile loads sets the user; a failure removes the stored token and the header but not the token state; loading ends in every case |
| AuthContext.AuthSession.Login | src/context/AuthContext.tsx:62-87 | true iff the answer is an ADMIN; then token, user and storage are set and requests carry the token; a refused account changes nothing; a failed request changes only the storage, which the response interceptor (apiService.ts:30-45) empties on a 401 or a ban |
| AuthContext.AuthSession.Logout | src/context/AuthContext.tsx:89-95 | storage, header, token and user are cleared, so no request carries a token |
| AuthContext.FailedStartStaysSignedOut | src/context/AuthContext.tsx:51-54 | after a failed start the token state still holds the saved token, yet the session is signed out |
| NotificationManagement.TypeValuesDistinct | src/pages/NotificationManagement.tsx:31-42 | ten distinct values, exactly the store's notification types |
| NotificationManagement.FindIcon | src/pages/NotificationManagement.tsx:70-73 | the message icon when no option matches; the first option's icon when it matches |
| NotificationManagement.TypeIconLookup | src/pages/NotificationManagement.tsx:70-73 | every listed type shows its own icon; any other type the message icon |
| NotificationManagement.GetTypeIcon | src/pages/NotificationManagement.tsx:70-73 | the icon of the first option with that type, else the message icon |
| NotificationManagement.TemplateForm | src/pages/NotificationManagement.tsx:164-211 | the title, message and type each template button writes |
| NotificationManagement.Incomplete | src/pages/NotificationManagement.tsx:47 | the submit guard: a blank title or message |
| NotificationManagement.NonSpaceStartNotBlank | src/pages/NotificationManagement.tsx:47 | a text starting with a non-space character passes the guard |
| NotificationManagement.TemplatesAreSendable | src/pages/NotificationManagement.tsx:164-211 | every template fills a form the guard accepts, with a listed type |
| NotificationManagement.TemplateStartsWithLetters | src/pages/NotificationManagement.tsx:164-211 | each template's title and message begin with a non-space character |
| NotificationManagement.TemplateTypeListed | src/pages/NotificationManagement.tsx:164-211 | each template's type is one of the listed notification types |
| NotificationManagement.NotificationPage.constructor | src/pages/NotificationManagement.tsx:24-29 | the form opens as '', '', ADMIN_MESSAGE |
| NotificationManagement.NotificationPage.ApplyTemplate | src/pages/NotificationManagement.tsx:164-169 | the template's title, message and type replace the form's |
| NotificationManagement.NotificationPage.SetForm | src/pages/NotificationManagement.tsx:100-136 | only the form changes |
| NotificationManagement.NotificationPage.HandleSubmit | src/pages/NotificationManagement.tsx:44-68 | a blank title or message sends nothing; otherwise the untrimmed values are broadcast and only success resets the form |
| NotificationManagement.NotificationPage.SubmitDone | src/pages/NotificationManagement.tsx:56-67 | success resets the form; failure keeps it |
| NotificationManagement.TemplateThenSend | src/pages/NotificationManagement.tsx:178-183 | a template then a successful send broadcasts the template and resets the form |
| Text.Truncate | src/pages/FinancialManagement.tsx:291 | text longer than the limit becomes its first characters and "..."; otherwise unchanged |
| Text.TruncateBounds | src/pages/CommunityManagement.tsx:200 | a truncated text is at most the limit plus 3 long and keeps the input's start |
| Text.Trim | src/pages/UserManagement.tsx:380 | the text with white space taken off both ends (`SpaceTrimmedFrom`), and no more: empty iff the text is all white space, otherwise it starts and ends with a non-space |
| Text.TrimmedFromIsSlice | src/pages/UserManagement.tsx:380 | what is trimmed from a text is a slice of it with only white space before and after |
| Text.TrimsToEmptyIffAllSpace | src/pages/UserManagement.tsx:380 | trimming leaves nothing iff every character is white space |
| Text.TrimOfTrimmed | src/pages/UserManagement.tsx:380 | trimming a text with no white space at either end changes nothing |
| Text.IsBlank | src/pages/UserManagement.tsx:380 | `!s.trim()`, as all white space |
| Text.BlankIffTrimsToEmpty | src/pages/UserManagement.tsx:380 | blank exactly when trimming leaves nothing |
| Text.Contains | src/pages/UserManagement.tsx:386 | `includes`: the text occurs at some position |
| Text.EmptyContained | src/pages/UserManagement.tsx:386 | every text contains the empty string |
| Text.LongerNotContained | src/pages/UserManagement.tsx:386 | no text contains anything longer than itself |
| Text.ContainsIgnoringCase | src/pages/UserManagement.tsx:386-388 | `includes` after lower-casing both |
| Text.Lower | src/pages/UserManagement.tsx:386-388 | lower-casing keeps the length and maps every character |
| Common.Truthy | src/services/apiService.ts:19 | JavaScript truthiness of an optional string: present and non-empty |
| Common.PaginationOf | src/pages/UserManagement.tsx:359-364 | all four pagination fields are read from the same response |
| Common.Filter | src/pages/PromoCodeManagement.tsx:205-209 | never longer; holds exactly the elements of the list that pass (order: FilterIsSubsequence) |
| Common.FilterIsSubsequence | src/pages/PromoCodeManagement.tsx:205-209 | `filter` keeps the order of the list |
| Common.Count | src/pages/UserManagement.tsx:606 | `filter(p).length` |
| Common.CountComplement | src/pages/PromoCodeManagement.tsx:213-214 | the elements that pass and those that fail add up to the list |

## Left out

- HTTP itself is not modelled: axios, base URLs, time-outs, JSON decoding and URL building. Every request is a value: an endpoint and its query parameters. Every answer is an `Outcome`.
- Overlapping requests are not modelled: their interleaving, races and stale closures. Each handler runs to completion before the next event.
- Browser services are not modelled: `localStorage` (it is a field of `ApiService.ApiClient`), page redirects, `alert`, toasts and `console` output.
- `confirm` and `prompt` are parameters of the handlers that call them.
- The clipboard calls are left out; `WalletAddress.WalletAddressView.HandleCopy` takes whether the clipboard call succeeds as a parameter.
- Timers are not modelled: the two-second copied reset is a separate method, and the twenty-second notification polling is left out.
- Floating point is not modelled: `parseFloat`/`parseInt` are given as `Option<real>`/`Option<int>` inputs, with `None` for NaN. Currency and date formatting, `toFixed` and ROI arithmetic are left out.
- `formatTimeAgo` takes the elapsed whole seconds as input. Reading the clock and parsing the date are left out.
- `Text.Lower` lower-cases ASCII letters only. JavaScript `toLowerCase` also maps non-ASCII letters.
- JSX layout, CSS classes and icons other than the type icons are not modelled.
- The notification store calls API methods that `src/services/apiService.ts` does not define: `getUnreadNotificationCount`, `getAdminNotifications`, `markNotificationAsRead` and `markAllNotificationsAsRead`. The store's methods take their answers as outcomes and issue no request value.
- PromoCodeManagement.PromoPage.CreatePromoCode: the create, update and toggle request bodies are not request values; `UpdatePromoCode` and `TogglePromoCodeStatus` return the id and form or flag they send instead.
- ReferralManagement.ReferralPage.LoadDataDone: the statistics record is stored as given; its float fields are not interpreted.
- SupportManagement.Reachable follows the status buttons with a fuel bound, so it states nothing about paths longer than the fuel.
- `AuthContext.AuthSession.Login` does not model the request's username and password; only the answer matters to the session.
- NotificationManagement.NotificationPage.HandleSubmit does not model the failure toast's text: the source shows `error.response.data` whatever its shape.
- WalletAddress.DisplayAddress takes `maxLength` as a natural number; a negative `maxLength` is not modelled.
- DataTable.Less: a number and a string are never ordered, where JavaScript converts the string to a number (so a numeric string does compare with a number); `DataTable.SortedDataOrdered` therefore assumes one kind per column. Strings compare by Unicode scalar value, not by UTF-16 code unit; the two orders differ only for characters beyond U+FFFF. Booleans, dates and `null` cells are not modelled.
- FinancialManagement.FinancialPage.HandleQuickFilter highlights the corrected key `ActiveKey`, not the key the page computes as written (`ActiveKeyAsWritten`). The two differ only for a status of COMPLETED (`CorrectionOnlyForCompleted`); see Findings.
- The other pages (dashboard, reports, settings, plan management) and the layout components are not part of this model.

## Findings

| source | as written | input that shows it | evidently intended | confidence | as-written member | corrected member |
|---|---|---|---|---|---|---|
| src/pages/FinancialManagement.tsx:220-224 | a status of COMPLETED derives the active key 'confirmed' | clicking the withdrawal 'completed' preset, whose filter is {status: 'COMPLETED'} | COMPLETED derives 'completed', so the clicked button is highlighted | medium, not executed | FinancialManagement.ActiveKeyAsWritten (with FinancialManagement.CompletedPresetHighlightsNothing) | FinancialManagement.ActiveKey (with FinancialManagement.ActiveKeyRoundTrip) |
