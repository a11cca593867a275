/** The deposits/withdrawals page: two tabs over filtered, paginated lists,
    the filter currently applied, the highlighted quick-filter preset, and
    the confirm/reject/approve actions that re-request the current page after
    they succeed. Each fetch is split into the request it issues (the
    handler) and the arrival of its outcome (`Fetch...Done`). */
module FinancialManagement {
  import opened Common
  import opened FilterOptions
  import QuickFilter
  import Text
  import opened ApiService

  datatype Deposit = Deposit(id: int, amount: string, transactionHash: string, status: string, username: string)

  datatype Withdrawal = Withdrawal(id: int, requestedAmount: string, walletAddress: string, status: string,
                                   transactionHash: Option<string>, username: string)

  /** Rows per requested page. */
  const PageSize := 20

  const InitialPagination := Pagination(0, 0, 0, 20)

  // ---------------------------------------------------------------------
  // Requests

  /** The entries of a filter object, as `Object.entries` yields them. */
  function FilterEntries(f: Filter): (e: seq<Param>)
    ensures |e| == |f|
    ensures forall i :: 0 <= i < |f| ==> e[i] == (KeyName(f[i].key), Str(f[i].value))
  {
    seq(|f|, i requires 0 <= i < |f| => (KeyName(f[i].key), Str(f[i].value)))
  }

  /** `{ ...filters, page, size: 20 }`: the filter's entries followed by the
      page number and the fixed page size. */
  function RequestEntries(f: Filter, page: int): seq<Param> {
    FilterEntries(f) + [("page", Number(page)), ("size", Number(PageSize))]
  }

  /** The request `fetchDeposits(page, f)` or `fetchWithdrawals(page, f)`
      sends. */
  function FetchRequest(t: ListType, page: int, f: Filter): Request {
    Request(if t == Deposits then FilteredDeposits else FilteredWithdrawals, SentParams(RequestEntries(f, page)))
  }

  /** Every filter request carries the filter's non-empty values in the
      filter's order, then the page number and the page size 20. */
  lemma FetchQueryShape(t: ListType, page: int, f: Filter)
    ensures FetchRequest(t, page, f).query
      == SentParams(FilterEntries(f)) + [("page", Number(page)), ("size", Number(20))]
  {
    FilterAppend(FilterEntries(f), [("page", Number(page)), ("size", Number(PageSize))], Sendable);
    FilledValuesAllSent([("page", Number(page)), ("size", Number(PageSize))]);
  }

  /** A filter whose values are all empty requests exactly what the empty
      filter `{}` requests. */
  lemma EmptyValuedFilterIsNoFilter(t: ListType, page: int, f: Filter)
    requires AllEmpty(f)
    ensures FetchRequest(t, page, f) == FetchRequest(t, page, Empty)
  {
    var tail := [("page", Number(page)), ("size", Number(PageSize))];
    EmptyValuesAddNothing(FilterEntries(f), tail);
    assert RequestEntries(Empty, page) == tail;
  }

  // ---------------------------------------------------------------------
  // Quick-filter key

  /** The key derivation as the page writes it: a status of COMPLETED is
      mapped to 'confirmed' together with CONFIRMED. */
  function ActiveKeyAsWritten(f: Filter): (k: string)
    ensures |f| == 0 ==> k == "all"
    ensures |f| > 0 && Get(f, Status) == Some("PENDING") ==> k == "pending"
    ensures |f| > 0 && (Get(f, Status) == Some("CONFIRMED") || Get(f, Status) == Some("COMPLETED")) ==> k == "confirmed"
    ensures |f| > 0 && Get(f, Status) == Some("REJECTED") ==> k == "rejected"
    ensures k == "high-value" <==>
      |f| > 0 && Get(f, Status) !in {Some("PENDING"), Some("CONFIRMED"), Some("COMPLETED"), Some("REJECTED")}
      && Truthy(Get(f, MinAmount))
    ensures (|f| > 0 && Get(f, Status) !in {Some("PENDING"), Some("CONFIRMED"), Some("COMPLETED"), Some("REJECTED")}
             && !Truthy(Get(f, MinAmount))) ==> k == "all"
  {
    var status := Get(f, Status);
    if |f| == 0 then "all"
    else if status == Some("PENDING") then "pending"
    else if status == Some("CONFIRMED") || status == Some("COMPLETED") then "confirmed"
    else if status == Some("REJECTED") then "rejected"
    else if Truthy(Get(f, MinAmount)) then "high-value"
    else "all"
  }

  /** As written, the withdrawal 'completed' preset derives 'confirmed',
      which is no key of the withdrawal table: after clicking it no button
      is highlighted. */
  lemma CompletedPresetHighlightsNothing()
    ensures QuickFilter.Click(QuickFilter.WithdrawalPresets, "completed") == Some([Entry(Status, "COMPLETED")])
    ensures ActiveKeyAsWritten([Entry(Status, "COMPLETED")]) == "confirmed"
    ensures QuickFilter.Highlighted(QuickFilter.WithdrawalPresets, Some("confirmed")) == []
  {
    QuickFilter.NoneActiveNoneHighlighted(QuickFilter.WithdrawalPresets, Some("confirmed"));
  }

  /** The derivation the page evidently intends: COMPLETED selects the
      'completed' preset; everything else as written. */
  function ActiveKey(f: Filter): (k: string)
    ensures Get(f, Status) == Some("COMPLETED") && |f| > 0 ==> k == "completed"
    ensures Get(f, Status) != Some("COMPLETED") ==> k == ActiveKeyAsWritten(f)
  {
    var status := Get(f, Status);
    if |f| == 0 then "all"
    else if status == Some("PENDING") then "pending"
    else if status == Some("CONFIRMED") then "confirmed"
    else if status == Some("COMPLETED") then "completed"
    else if status == Some("REJECTED") then "rejected"
    else if Truthy(Get(f, MinAmount)) then "high-value"
    else "all"
  }

  /** The corrected derivation departs from the written one for exactly the
      filters whose status is COMPLETED. */
  lemma CorrectionOnlyForCompleted(f: Filter)
    ensures ActiveKey(f) != ActiveKeyAsWritten(f) <==> |f| > 0 && Get(f, Status) == Some("COMPLETED")
  {
  }

  /** Round trip against both preset tables: every preset's filter derives
      that preset's own key, so clicking a preset highlights exactly that
      button. */
  lemma ActiveKeyRoundTrip(t: ListType, i: int)
    requires 0 <= i < |QuickFilter.Presets(t)|
    ensures var p := QuickFilter.Presets(t)[i];
      ActiveKey(p.filter) == p.key
      && QuickFilter.Highlighted(QuickFilter.Presets(t), Some(ActiveKey(p.filter))) == [p.key]
  {
    PresetKeyDerived(t, i);
    QuickFilter.PresetKeysUnique(t);
    QuickFilter.OwnKeyHighlightsOnlyItself(QuickFilter.Presets(t), i);
  }

  lemma PresetKeyDerived(t: ListType, i: int)
    requires 0 <= i < |QuickFilter.Presets(t)|
    ensures ActiveKey(QuickFilter.Presets(t)[i].filter) == QuickFilter.Presets(t)[i].key
  {
    if t == Deposits {
      assert QuickFilter.Presets(t) == QuickFilter.DepositPresets;
      if i == 0 {} else if i == 1 {} else if i == 2 {} else if i == 3 {} else {}
    } else {
      assert QuickFilter.Presets(t) == QuickFilter.WithdrawalPresets;
      if i == 0 {} else if i == 1 {} else if i == 2 {} else if i == 3 {} else {}
    }
  }

  // ---------------------------------------------------------------------
  // Cells

  /** The transaction-hash cell: hashes longer than 20 characters show
      their first 20 characters and an ellipsis. */
  function ShortHash(hash: string): (r: string)
    ensures |hash| <= 20 ==> r == hash
    ensures |hash| > 20 ==> |r| == 23 && r[..20] == hash[..20] && r[20..] == "..."
  {
    Text.Truncate(hash, 20)
  }

  /** The label of a status badge; an unknown status gets the Pending badge. */
  function StatusBadge(status: string): (badge: string)
    ensures status == "CONFIRMED" ==> badge == "Confirmed"
    ensures status == "REJECTED" ==> badge == "Rejected"
    ensures status == "APPROVED" ==> badge == "Approved"
    ensures status == "COMPLETED" ==> badge == "Completed"
    ensures badge == "Pending" <==> status !in {"CONFIRMED", "REJECTED", "APPROVED", "COMPLETED"}
  {
    match status
    case "CONFIRMED" => "Confirmed"
    case "REJECTED" => "Rejected"
    case "APPROVED" => "Approved"
    case "COMPLETED" => "Completed"
    case _ => "Pending"
  }

  /** Confirm/reject (deposits) and approve/reject (withdrawals) are offered
      only on pending rows. */
  predicate ActionsOffered(status: string) {
    status == "PENDING"
  }

  /** The page's state slots. */
  class FinancialPage {
    var activeTab: ListType
    var deposits: seq<Deposit>
    var withdrawals: seq<Withdrawal>
    var loading: bool
    var currentFilters: Filter
    var activeQuickFilter: string
    var depositsPagination: Pagination
    var withdrawalsPagination: Pagination

    constructor()
      ensures activeTab == Deposits && deposits == [] && withdrawals == [] && !loading
      ensures currentFilters == Empty && activeQuickFilter == "all"
      ensures depositsPagination == InitialPagination && withdrawalsPagination == InitialPagination
    {
      activeTab := Deposits;
      deposits := [];
      withdrawals := [];
      loading := false;
      currentFilters := Empty;
      activeQuickFilter := "all";
      depositsPagination := InitialPagination;
      withdrawalsPagination := InitialPagination;
    }

    /** The start of `fetchDeposits`/`fetchWithdrawals`: raise the loading
        flag and issue the filtered request. */
    method StartFetch(t: ListType, page: int, f: Filter) returns (r: Request)
      modifies this
      ensures r == FetchRequest(t, page, f) && loading
      ensures activeTab == old(activeTab) && currentFilters == old(currentFilters)
      ensures activeQuickFilter == old(activeQuickFilter)
      ensures deposits == old(deposits) && withdrawals == old(withdrawals)
      ensures depositsPagination == old(depositsPagination) && withdrawalsPagination == old(withdrawalsPagination)
    {
      loading := true;
      if t == Deposits {
        r := GetFilteredDeposits(RequestEntries(f, page));
      } else {
        r := GetFilteredWithdrawals(RequestEntries(f, page));
      }
    }

    /** The first render: the effect on the active tab loads page 0 of the
        deposits without filters. */
    method Mount() returns (r: Request)
      modifies this
      ensures r == FetchRequest(old(activeTab), 0, Empty) && loading
      ensures activeTab == old(activeTab) && currentFilters == old(currentFilters)
      ensures activeQuickFilter == old(activeQuickFilter)
      ensures deposits == old(deposits) && withdrawals == old(withdrawals)
      ensures depositsPagination == old(depositsPagination) && withdrawalsPagination == old(withdrawalsPagination)
    {
      r := StartFetch(activeTab, 0, Empty);
    }

    /** A tab button (or the `tab` URL parameter): switching to the other
        tab loads its page 0 without filters, although `currentFilters` and
        the highlighted preset stay as they were; selecting the tab already
        shown does nothing. */
    method SelectTab(tab: ListType) returns (r: Option<Request>)
      modifies this
      ensures activeTab == tab
      ensures tab == old(activeTab) ==> r == None && loading == old(loading)
      ensures tab != old(activeTab) ==> r == Some(FetchRequest(tab, 0, Empty)) && loading
      ensures currentFilters == old(currentFilters) && activeQuickFilter == old(activeQuickFilter)
      ensures deposits == old(deposits) && withdrawals == old(withdrawals)
      ensures depositsPagination == old(depositsPagination) && withdrawalsPagination == old(withdrawalsPagination)
    {
      if tab == activeTab {
        r := None;
      } else {
        activeTab := tab;
        var req := StartFetch(tab, 0, Empty);
        r := Some(req);
      }
    }

    /** The outcome of a deposits request: on success the rows and all four
        pagination fields come from the response; on failure they stay. The
        loading flag drops in both cases. */
    method FetchDepositsDone(outcome: Outcome<PageResponse<Deposit>>)
      modifies this
      ensures outcome.Success? ==> deposits == outcome.data.content && depositsPagination == PaginationOf(outcome.data)
      ensures outcome.Failure? ==> deposits == old(deposits) && depositsPagination == old(depositsPagination)
      ensures !loading
      ensures activeTab == old(activeTab) && currentFilters == old(currentFilters)
      ensures activeQuickFilter == old(activeQuickFilter)
      ensures withdrawals == old(withdrawals) && withdrawalsPagination == old(withdrawalsPagination)
    {
      if outcome.Success? {
        deposits := outcome.data.content;
        depositsPagination := PaginationOf(outcome.data);
      }
      loading := false;
    }

    method FetchWithdrawalsDone(outcome: Outcome<PageResponse<Withdrawal>>)
      modifies this
      ensures outcome.Success? ==> withdrawals == outcome.data.content && withdrawalsPagination == PaginationOf(outcome.data)
      ensures outcome.Failure? ==> withdrawals == old(withdrawals) && withdrawalsPagination == old(withdrawalsPagination)
      ensures !loading
      ensures activeTab == old(activeTab) && currentFilters == old(currentFilters)
      ensures activeQuickFilter == old(activeQuickFilter)
      ensures deposits == old(deposits) && depositsPagination == old(depositsPagination)
    {
      if outcome.Success? {
        withdrawals := outcome.data.content;
        withdrawalsPagination := PaginationOf(outcome.data);
      }
      loading := false;
    }

    /** Applying an advanced filter: it replaces the current filter entirely
        and page 0 is requested with it. The highlighted preset is kept. */
    method HandleFilterChange(filters: Filter) returns (r: Request)
      modifies this
      ensures currentFilters == filters && r == FetchRequest(activeTab, 0, filters) && loading
      ensures activeTab == old(activeTab) && activeQuickFilter == old(activeQuickFilter)
      ensures deposits == old(deposits) && withdrawals == old(withdrawals)
      ensures depositsPagination == old(depositsPagination) && withdrawalsPagination == old(withdrawalsPagination)
    {
      currentFilters := filters;
      r := StartFetch(activeTab, 0, filters);
    }

    /** Clearing: the filter becomes `{}` and page 0 is requested without
        filters; the highlighted preset is not reset. */
    method HandleClearFilters() returns (r: Request)
      modifies this
      ensures currentFilters == Empty && r == FetchRequest(activeTab, 0, Empty) && loading
      ensures activeTab == old(activeTab) && activeQuickFilter == old(activeQuickFilter)
      ensures deposits == old(deposits) && withdrawals == old(withdrawals)
      ensures depositsPagination == old(depositsPagination) && withdrawalsPagination == old(withdrawalsPagination)
    {
      currentFilters := Empty;
      r := StartFetch(activeTab, 0, Empty);
    }

    /** A page change requests that page with the current filter and leaves
        the filter alone. */
    method HandlePageChange(page: int) returns (r: Request)
      modifies this
      ensures r == FetchRequest(activeTab, page, currentFilters) && loading
      ensures currentFilters == old(currentFilters)
      ensures activeTab == old(activeTab) && activeQuickFilter == old(activeQuickFilter)
      ensures deposits == old(deposits) && withdrawals == old(withdrawals)
      ensures depositsPagination == old(depositsPagination) && withdrawalsPagination == old(withdrawalsPagination)
    {
      r := StartFetch(activeTab, page, currentFilters);
    }

    /** A quick-filter click: the preset's filter replaces the current one,
        the derived key is highlighted, and page 0 is requested. The key is
        derived by the corrected `ActiveKey`; the page as written derives
        `ActiveKeyAsWritten`, which differs only for a COMPLETED status. */
    method HandleQuickFilter(filters: Filter) returns (r: Request)
      modifies this
      ensures currentFilters == filters && activeQuickFilter == ActiveKey(filters)
      ensures activeQuickFilter != ActiveKeyAsWritten(filters) <==> |filters| > 0 && Get(filters, Status) == Some("COMPLETED")
      ensures r == FetchRequest(activeTab, 0, filters) && loading
      ensures activeTab == old(activeTab)
      ensures deposits == old(deposits) && withdrawals == old(withdrawals)
      ensures depositsPagination == old(depositsPagination) && withdrawalsPagination == old(withdrawalsPagination)
    {
      currentFilters := filters;
      activeQuickFilter := ActiveKey(filters);
      CorrectionOnlyForCompleted(filters);
      r := StartFetch(activeTab, 0, filters);
    }

    /** The refresh button: page 0 of the active tab with the current filter. */
    method Refresh() returns (r: Request)
      modifies this
      ensures r == FetchRequest(activeTab, 0, currentFilters) && loading
      ensures currentFilters == old(currentFilters)
      ensures activeTab == old(activeTab) && activeQuickFilter == old(activeQuickFilter)
      ensures deposits == old(deposits) && withdrawals == old(withdrawals)
      ensures depositsPagination == old(depositsPagination) && withdrawalsPagination == old(withdrawalsPagination)
    {
      r := StartFetch(activeTab, 0, currentFilters);
    }

    /** Confirm or reject a deposit: the mutation is sent with its fixed
        note; only when it succeeds is the current deposits page requested
        again with the current filter. */
    method ReviewDeposit(depositId: int, confirm: bool, outcome: Outcome<()>) returns (call: Request, refetch: Option<Request>)
      modifies this
      ensures call == (if confirm then ConfirmDepositRequest(depositId, Some("Confirmed by admin"))
                       else RejectDepositRequest(depositId, Some("Rejected by admin")))
      ensures outcome.Success? ==> refetch == Some(FetchRequest(Deposits, old(depositsPagination.currentPage), old(currentFilters))) && loading
      ensures outcome.Failure? ==> refetch == None && loading == old(loading)
      ensures currentFilters == old(currentFilters)
      ensures activeTab == old(activeTab) && activeQuickFilter == old(activeQuickFilter)
      ensures deposits == old(deposits) && withdrawals == old(withdrawals)
      ensures depositsPagination == old(depositsPagination) && withdrawalsPagination == old(withdrawalsPagination)
    {
      call := if confirm then ConfirmDepositRequest(depositId, Some("Confirmed by admin"))
              else RejectDepositRequest(depositId, Some("Rejected by admin"));
      if outcome.Success? {
        var r := StartFetch(Deposits, depositsPagination.currentPage, currentFilters);
        refetch := Some(r);
      } else {
        refetch := None;
      }
    }

    /** Approve a withdrawal, with the note and a transaction id made of
        "TX_" and the current time in milliseconds (`stamp`, its decimal
        text); re-request the withdrawals page only on success. */
    method ApproveWithdrawal(withdrawalId: int, stamp: string, outcome: Outcome<()>) returns (call: Request, refetch: Option<Request>)
      modifies this
      ensures call == ApproveWithdrawalRequest(withdrawalId, Some("Approved by admin"), Some("TX_" + stamp))
      ensures outcome.Success? ==> refetch == Some(FetchRequest(Withdrawals, old(withdrawalsPagination.currentPage), old(currentFilters))) && loading
      ensures outcome.Failure? ==> refetch == None && loading == old(loading)
      ensures currentFilters == old(currentFilters)
      ensures activeTab == old(activeTab) && activeQuickFilter == old(activeQuickFilter)
      ensures deposits == old(deposits) && withdrawals == old(withdrawals)
      ensures depositsPagination == old(depositsPagination) && withdrawalsPagination == old(withdrawalsPagination)
    {
      call := ApproveWithdrawalRequest(withdrawalId, Some("Approved by admin"), Some("TX_" + stamp));
      if outcome.Success? {
        var r := StartFetch(Withdrawals, withdrawalsPagination.currentPage, currentFilters);
        refetch := Some(r);
      } else {
        refetch := None;
      }
    }

    method RejectWithdrawal(withdrawalId: int, outcome: Outcome<()>) returns (call: Request, refetch: Option<Request>)
      modifies this
      ensures call == RejectWithdrawalRequest(withdrawalId, Some("Rejected by admin"))
      ensures outcome.Success? ==> refetch == Some(FetchRequest(Withdrawals, old(withdrawalsPagination.currentPage), old(currentFilters))) && loading
      ensures outcome.Failure? ==> refetch == None && loading == old(loading)
      ensures currentFilters == old(currentFilters)
      ensures activeTab == old(activeTab) && activeQuickFilter == old(activeQuickFilter)
      ensures deposits == old(deposits) && withdrawals == old(withdrawals)
      ensures depositsPagination == old(depositsPagination) && withdrawalsPagination == old(withdrawalsPagination)
    {
      call := RejectWithdrawalRequest(withdrawalId, Some("Rejected by admin"));
      if outcome.Success? {
        var r := StartFetch(Withdrawals, withdrawalsPagination.currentPage, currentFilters);
        refetch := Some(r);
      } else {
        refetch := None;
      }
    }
  }
}
