/** The collapsible advanced-filter panel of the financial page. It keeps
    two copies of the filter: the one being edited (`localFilters`) and the
    one last applied (`filters`). Edits touch only the local copy; Apply
    copies it over and reports it to the page; Clear empties both. */
module AdvancedFilter {
  import opened Common
  import opened FilterOptions
  import Text
  import ApiService
  import FinancialManagement

  /** The values of the status drop-down, "" standing for "All Statuses". */
  function StatusOptions(t: ListType): (options: seq<string>)
    ensures t == Deposits ==> options == ["", "PENDING", "CONFIRMED", "REJECTED"]
    ensures t == Withdrawals ==> options == ["", "PENDING", "APPROVED", "REJECTED", "COMPLETED"]
  {
    match t
    case Deposits => ["", "PENDING", "CONFIRMED", "REJECTED"]
    case Withdrawals => ["", "PENDING", "APPROVED", "REJECTED", "COMPLETED"]
  }

  /** The options are distinct, and the "All Statuses" choice is the only
      one that puts no status into the request. */
  lemma StatusOptionsSendStatusUnlessAll(t: ListType, i: int, page: int)
    requires 0 <= i < |StatusOptions(t)|
    ensures forall j :: 0 <= j < |StatusOptions(t)| && j != i ==> StatusOptions(t)[j] != StatusOptions(t)[i]
    ensures var q := FinancialManagement.FetchRequest(t, page, [Entry(Status, StatusOptions(t)[i])]).query;
      (("status", ApiService.Str(StatusOptions(t)[i])) in q) <==> i != 0
  {
    var f := [Entry(Status, StatusOptions(t)[i])];
    FinancialManagement.FetchQueryShape(t, page, f);
    assert FinancialManagement.FilterEntries(f) == [("status", ApiService.Str(StatusOptions(t)[i]))];
    if i == 0 {
      assert ApiService.SentParams(FinancialManagement.FilterEntries(f)) == [];
    } else {
      ApiService.FilledValuesAllSent(FinancialManagement.FilterEntries(f));
    }
  }

  /** The key the hash/wallet text box edits: the transaction hash on the
      deposits list, the wallet address on the withdrawals list. */
  function HashFieldKey(t: ListType): (k: FilterKey)
    ensures k == TransactionHash <==> t == Deposits
    ensures k == WalletAddress <==> t == Withdrawals
  {
    match t
    case Deposits => TransactionHash
    case Withdrawals => WalletAddress
  }

  /** The "Active" badge: some applied value is non-blank after trimming. */
  predicate HasActiveFilters(f: Filter) {
    exists i :: 0 <= i < |f| && !Text.IsBlank(f[i].value)
  }

  /** The badge is off exactly when every applied value is white space (or
      there are none). */
  lemma HasActiveIffSomeNonSpace(f: Filter)
    ensures HasActiveFilters(f) <==> exists i :: 0 <= i < |f| && !Text.AllSpace(f[i].value)
  {
  }

  /** A non-empty value of nothing but white space does not light the
      badge, yet it is not the empty string, so it is sent to the server
      as it stands. */
  lemma BlankValueSentButNotActive(t: ListType, page: int, key: FilterKey, v: string)
    requires v != "" && Text.AllSpace(v)
    ensures !HasActiveFilters([Entry(key, v)])
    ensures FinancialManagement.FetchRequest(t, page, [Entry(key, v)]).query[0] == (KeyName(key), ApiService.Str(v))
  {
    var f := [Entry(key, v)];
    var e := FinancialManagement.FilterEntries(f);
    assert e == [(KeyName(key), ApiService.Str(v))];
    ApiService.FilledValuesAllSent(e);
    FinancialManagement.FetchQueryShape(t, page, f);
  }

  class FilterPanel {
    /** The applied copy. */
    var filters: Filter
    /** The copy being edited. */
    var localFilters: Filter

    constructor()
      ensures filters == Empty && localFilters == Empty
    {
      filters := Empty;
      localFilters := Empty;
    }

    /** Editing one field: that key of the local copy takes the new value,
        every other key keeps its value, and the applied copy (hence the
        badge) is untouched. */
    method HandleFilterChange(key: FilterKey, value: string)
      modifies this
      ensures localFilters == Set(old(localFilters), key, value)
      ensures Get(localFilters, key) == Some(value)
      ensures forall k :: k != key ==> Get(localFilters, k) == Get(old(localFilters), k)
      ensures filters == old(filters)
    {
      SetGetSame(localFilters, key, value);
      forall k | k != key ensures Get(Set(localFilters, key, value), k) == Get(localFilters, k) {
        SetGetOther(localFilters, key, value, k);
      }
      localFilters := Set(localFilters, key, value);
    }

    /** The hash/wallet text box: it edits the key of the current list type
        and never the other one. */
    method EditHashField(t: ListType, value: string)
      modifies this
      ensures Get(localFilters, HashFieldKey(t)) == Some(value)
      ensures t == Deposits ==> Get(localFilters, WalletAddress) == Get(old(localFilters), WalletAddress)
      ensures t == Withdrawals ==> Get(localFilters, TransactionHash) == Get(old(localFilters), TransactionHash)
      ensures filters == old(filters)
    {
      HandleFilterChange(HashFieldKey(t), value);
    }

    /** Apply: the applied copy becomes the local copy, which is reported to
        the page as it stands (see `ApplyOnPage`). */
    method ApplyFilters() returns (reported: Filter)
      modifies this
      ensures filters == old(localFilters) && reported == old(localFilters)
      ensures localFilters == old(localFilters)
    {
      filters := localFilters;
      reported := localFilters;
    }

    /** Clear: both copies become `{}`. The page's clear handler, which
        runs next, is composed with it in `ClearOnPage`. */
    method ClearFilters()
      modifies this
      ensures filters == Empty && localFilters == Empty
      ensures !HasActiveFilters(filters)
    {
      localFilters := Empty;
      filters := Empty;
    }

    function HasActive(): bool
      reads this
    {
      HasActiveFilters(filters)
    }
  }

  // ---------------------------------------------------------------------
  // The panel on the financial page

  /** Apply on the financial page: the panel's edited copy becomes both its
      applied copy and the page's current filter, and page 0 of the current
      list is requested with it. */
  method ApplyOnPage(panel: FilterPanel, page: FinancialManagement.FinancialPage) returns (r: ApiService.Request)
    modifies panel, page
    ensures panel.filters == old(panel.localFilters) && page.currentFilters == old(panel.localFilters)
    ensures panel.localFilters == old(panel.localFilters)
    ensures r == FinancialManagement.FetchRequest(page.activeTab, 0, old(panel.localFilters)) && page.loading
    ensures page.activeTab == old(page.activeTab) && page.activeQuickFilter == old(page.activeQuickFilter)
  {
    var reported := panel.ApplyFilters();
    r := page.HandleFilterChange(reported);
  }

  /** Clear on the financial page: both copies of the panel and the page's
      current filter become `{}`, the badge goes off, and page 0 of the
      current list is requested with nothing but the page number and the
      page size. */
  method ClearOnPage(panel: FilterPanel, page: FinancialManagement.FinancialPage) returns (r: ApiService.Request)
    modifies panel, page
    ensures panel.filters == Empty && panel.localFilters == Empty && page.currentFilters == Empty
    ensures !panel.HasActive()
    ensures r.endpoint == (if page.activeTab == Deposits then ApiService.FilteredDeposits else ApiService.FilteredWithdrawals)
    ensures r.query == [("page", ApiService.Number(0)), ("size", ApiService.Number(20))] && page.loading
    ensures page.activeTab == old(page.activeTab) && page.activeQuickFilter == old(page.activeQuickFilter)
    ensures page.deposits == old(page.deposits) && page.withdrawals == old(page.withdrawals)
  {
    panel.ClearFilters();
    r := page.HandleClearFilters();
    FinancialManagement.FetchQueryShape(page.activeTab, 0, Empty);
    assert FinancialManagement.FilterEntries(Empty) == [];
  }
}
