/** The row of quick-filter buttons above the financial lists: one fixed
    table of presets per list type, the highlighted button, and the filter
    object a click hands to the page. */
module QuickFilter {
  import opened Common
  import opened FilterOptions

  datatype Preset = Preset(key: string, caption: string, filter: Filter)

  const DepositPresets: seq<Preset> := [
    Preset("all", "All Deposits", []),
    Preset("pending", "Pending", [Entry(Status, "PENDING")]),
    Preset("confirmed", "Confirmed", [Entry(Status, "CONFIRMED")]),
    Preset("rejected", "Rejected", [Entry(Status, "REJECTED")]),
    Preset("high-value", "High Value (>$1000)", [Entry(MinAmount, "1000")])
  ]

  const WithdrawalPresets: seq<Preset> := [
    Preset("all", "All Withdrawals", []),
    Preset("pending", "Pending", [Entry(Status, "PENDING")]),
    Preset("completed", "Completed", [Entry(Status, "COMPLETED")]),
    Preset("rejected", "Rejected", [Entry(Status, "REJECTED")]),
    Preset("high-value", "High Value (>$500)", [Entry(MinAmount, "500")])
  ]

  /** The table shown is chosen by the list type and nothing else. */
  function Presets(t: ListType): (ps: seq<Preset>)
    ensures t == Deposits ==> ps == DepositPresets
    ensures t == Withdrawals ==> ps == WithdrawalPresets
  {
    match t
    case Deposits => DepositPresets
    case Withdrawals => WithdrawalPresets
  }

  predicate KeysUnique(ps: seq<Preset>) {
    forall i, j :: 0 <= i < j < |ps| ==> ps[i].key != ps[j].key
  }

  /** A button is highlighted when the page's active key equals its key. */
  predicate IsActive(activeFilter: Option<string>, p: Preset) {
    activeFilter == Some(p.key)
  }

  /** The keys of the highlighted buttons, in display order. */
  function Highlighted(ps: seq<Preset>, activeFilter: Option<string>): (r: seq<string>)
    ensures forall k :: k in r <==> exists i :: 0 <= i < |ps| && ps[i].key == k && IsActive(activeFilter, ps[i])
  {
    if ps == [] then []
    else (if IsActive(activeFilter, ps[0]) then [ps[0].key] else []) + Highlighted(ps[1..], activeFilter)
  }

  /** What clicking the button with this key hands to the page: exactly the
      filter object that preset declares (None: no such button). */
  function Click(ps: seq<Preset>, key: string): (r: Option<Filter>)
    ensures r.None? <==> forall i :: 0 <= i < |ps| ==> ps[i].key != key
    ensures r.Some? ==> exists i :: 0 <= i < |ps| && ps[i].key == key && ps[i].filter == r.value
  {
    if ps == [] then None
    else if ps[0].key == key then Some(ps[0].filter)
    else Click(ps[1..], key)
  }

  lemma PresetKeysUnique(t: ListType)
    ensures KeysUnique(Presets(t))
  {
  }

  /** With unique keys at most one button is highlighted, and one is
      exactly when the active key names a preset. */
  lemma {:induction false} AtMostOneHighlighted(ps: seq<Preset>, activeFilter: Option<string>)
    requires KeysUnique(ps)
    ensures |Highlighted(ps, activeFilter)| <= 1
    ensures |Highlighted(ps, activeFilter)| == 1 <==> exists i :: 0 <= i < |ps| && IsActive(activeFilter, ps[i])
  {
    if ps != [] {
      assert KeysUnique(ps[1..]);
      AtMostOneHighlighted(ps[1..], activeFilter);
      if IsActive(activeFilter, ps[0]) {
        forall i | 0 <= i < |ps[1..]| ensures !IsActive(activeFilter, ps[1..][i]) {
          assert ps[1..][i] == ps[i + 1];
        }
      } else {
        if exists i :: 0 <= i < |ps| && IsActive(activeFilter, ps[i]) {
          var i :| 0 <= i < |ps| && IsActive(activeFilter, ps[i]);
          assert ps[1..][i - 1] == ps[i];
        }
      }
    }
  }

  /** When no button's key is active, none is highlighted. */
  lemma {:induction false} NoneActiveNoneHighlighted(ps: seq<Preset>, activeFilter: Option<string>)
    requires forall j :: 0 <= j < |ps| ==> !IsActive(activeFilter, ps[j])
    ensures Highlighted(ps, activeFilter) == []
  {
    if ps != [] {
      assert !IsActive(activeFilter, ps[0]);
      forall j | 0 <= j < |ps[1..]| ensures !IsActive(activeFilter, ps[1..][j]) {
        assert ps[1..][j] == ps[j + 1];
      }
      NoneActiveNoneHighlighted(ps[1..], activeFilter);
    }
  }

  /** With unique keys, naming a preset's key highlights that button and
      no other. */
  lemma {:induction false} OwnKeyHighlightsOnlyItself(ps: seq<Preset>, i: int)
    requires KeysUnique(ps) && 0 <= i < |ps|
    ensures Highlighted(ps, Some(ps[i].key)) == [ps[i].key]
  {
    var active := Some(ps[i].key);
    if i == 0 {
      forall j | 0 <= j < |ps[1..]| ensures !IsActive(active, ps[1..][j]) {
        assert ps[1..][j] == ps[j + 1];
      }
      NoneActiveNoneHighlighted(ps[1..], active);
    } else {
      assert !IsActive(active, ps[0]);
      assert KeysUnique(ps[1..]) by {
        forall a, b | 0 <= a < b < |ps[1..]| ensures ps[1..][a].key != ps[1..][b].key {
          assert ps[1..][a] == ps[a + 1] && ps[1..][b] == ps[b + 1];
        }
      }
      assert ps[1..][i - 1] == ps[i];
      OwnKeyHighlightsOnlyItself(ps[1..], i - 1);
    }
  }

  /** The deposit buttons hand over exactly these filters. */
  lemma DepositClicks()
    ensures Click(DepositPresets, "all") == Some([])
    ensures Click(DepositPresets, "pending") == Some([Entry(Status, "PENDING")])
    ensures Click(DepositPresets, "confirmed") == Some([Entry(Status, "CONFIRMED")])
    ensures Click(DepositPresets, "rejected") == Some([Entry(Status, "REJECTED")])
    ensures Click(DepositPresets, "high-value") == Some([Entry(MinAmount, "1000")])
    ensures |DepositPresets| == 5
  {
  }

  /** The withdrawal buttons hand over exactly these filters. */
  lemma WithdrawalClicks()
    ensures Click(WithdrawalPresets, "all") == Some([])
    ensures Click(WithdrawalPresets, "pending") == Some([Entry(Status, "PENDING")])
    ensures Click(WithdrawalPresets, "completed") == Some([Entry(Status, "COMPLETED")])
    ensures Click(WithdrawalPresets, "rejected") == Some([Entry(Status, "REJECTED")])
    ensures Click(WithdrawalPresets, "high-value") == Some([Entry(MinAmount, "500")])
    ensures |WithdrawalPresets| == 5
  {
  }
}
