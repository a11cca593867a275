/** The `FilterOptions` object shared by the financial page, the advanced
    filter and the quick-filter presets. A JavaScript object keeps its keys in
    insertion order and assigning to an existing key keeps its position, so
    the model is an ordered sequence of entries with distinct keys. */
module FilterOptions {
  import opened Common

  /** Which of the two financial lists a page, filter or preset table is for. */
  datatype ListType = Deposits | Withdrawals

  datatype FilterKey =
    | Status | StartDate | EndDate | MinAmount | MaxAmount
    | TransactionHash | WalletAddress | Username

  /** The property name of a key, as it appears in the object and in the query. */
  function KeyName(k: FilterKey): string {
    match k
    case Status => "status"
    case StartDate => "startDate"
    case EndDate => "endDate"
    case MinAmount => "minAmount"
    case MaxAmount => "maxAmount"
    case TransactionHash => "transactionHash"
    case WalletAddress => "walletAddress"
    case Username => "username"
  }

  datatype Entry = Entry(key: FilterKey, value: string)

  type Filter = seq<Entry>

  const Empty: Filter := []

  /** No key occurs twice. */
  predicate WellFormed(f: Filter) {
    forall i, j :: 0 <= i < j < |f| ==> f[i].key != f[j].key
  }

  /** `f[k]`: the value stored under `k`, or None when `k` is not a key. */
  function Get(f: Filter, k: FilterKey): (r: Option<string>)
    ensures r.None? <==> forall i :: 0 <= i < |f| ==> f[i].key != k
    ensures r.Some? ==> exists i :: 0 <= i < |f| && f[i] == Entry(k, r.value)
  {
    if f == [] then None
    else if f[0].key == k then Some(f[0].value)
    else Get(f[1..], k)
  }

  /** `{ ...f, [k]: v }`: overwrite the entry of `k` where it stands, or
      append a new entry at the end. */
  function Set(f: Filter, k: FilterKey, v: string): (r: Filter)
  {
    if f == [] then [Entry(k, v)]
    else if f[0].key == k then [Entry(k, v)] + f[1..]
    else [f[0]] + Set(f[1..], k, v)
  }

  /** After setting `k`, reading `k` gives the new value. */
  lemma {:induction false} SetGetSame(f: Filter, k: FilterKey, v: string)
    ensures Get(Set(f, k, v), k) == Some(v)
  {
    if f != [] && f[0].key != k {
      SetGetSame(f[1..], k, v);
    }
  }

  /** Setting `k` leaves every other key as it was. */
  lemma {:induction false} SetGetOther(f: Filter, k: FilterKey, v: string, k': FilterKey)
    requires k' != k
    ensures Get(Set(f, k, v), k') == Get(f, k')
  {
    if f != [] && f[0].key != k {
      SetGetOther(f[1..], k, v, k');
    } else if f != [] {
      assert Set(f, k, v)[1..] == f[1..];
    }
  }

  /** The keys of `Set(f, k, v)` are those of `f` plus `k`. */
  lemma {:induction false} SetKeys(f: Filter, k: FilterKey, v: string)
    ensures forall i :: 0 <= i < |Set(f, k, v)| ==>
      Set(f, k, v)[i].key == k || exists j :: 0 <= j < |f| && f[j].key == Set(f, k, v)[i].key
  {
    if f != [] && f[0].key != k {
      SetKeys(f[1..], k, v);
      var r := Set(f, k, v);
      forall i | 0 <= i < |r|
        ensures r[i].key == k || exists j :: 0 <= j < |f| && f[j].key == r[i].key
      {
        if i > 0 && r[i].key != k {
          var j :| 0 <= j < |f[1..]| && f[1..][j].key == r[i].key;
          assert f[j + 1].key == r[i].key;
        }
      }
    } else if f != [] {
      var r := Set(f, k, v);
      forall i | 0 <= i < |r|
        ensures r[i].key == k || exists j :: 0 <= j < |f| && f[j].key == r[i].key
      {
        if i > 0 {
          assert f[i].key == r[i].key;
        }
      }
    }
  }

  /** Setting a key keeps the keys distinct. */
  lemma {:induction false} SetWellFormed(f: Filter, k: FilterKey, v: string)
    requires WellFormed(f)
    ensures WellFormed(Set(f, k, v))
  {
    if f != [] && f[0].key != k {
      SetWellFormed(f[1..], k, v);
      SetKeys(f[1..], k, v);
      var r := Set(f, k, v);
      forall j | 0 < j < |r| ensures r[0].key != r[j].key {
        assert r[j] == Set(f[1..], k, v)[j - 1];
      }
    } else if f != [] {
      var r := Set(f, k, v);
      forall i, j | 0 <= i < j < |r| ensures r[i].key != r[j].key {
        assert r[j].key == f[j].key;
      }
    }
  }

  /** A key already present keeps its place (the length is unchanged); a new
      key is appended at the end. */
  lemma {:induction false} SetShape(f: Filter, k: FilterKey, v: string)
    ensures Get(f, k).Some? ==> |Set(f, k, v)| == |f|
    ensures Get(f, k).None? ==> Set(f, k, v) == f + [Entry(k, v)]
  {
    if f != [] && f[0].key != k {
      SetShape(f[1..], k, v);
    }
  }

  /** Every value is the empty string (or the filter has no keys at all). */
  predicate AllEmpty(f: Filter) {
    forall i :: 0 <= i < |f| ==> f[i].value == ""
  }
}
