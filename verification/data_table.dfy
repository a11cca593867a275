/** The generic table every list page renders: a sort state toggled by
    clicking sortable headers, a search box reporting its text to the page,
    the copy-and-sort of the rows it is given, the loading and empty states,
    and the pagination footer with its "Showing X to Y of Z" window and its
    prev/next buttons. */
module DataTable {
  import opened Common

  datatype Direction = Asc | Desc

  datatype SortConfig = SortConfig(key: string, direction: Direction)

  datatype Column = Column(key: string, sortable: bool)

  /** A cell the comparator can look at: a number or a string. */
  datatype Cell = Num(n: int) | Text(s: string)

  /** A row, reduced to its cells; a key the row lacks reads as
      `undefined`, which is neither smaller nor larger than anything. */
  type Row = map<string, Cell>

  /** JavaScript `<` on two strings: the first differing character decides,
      and a proper prefix comes before its extensions. */
  predicate TextLess(x: string, y: string)
    decreases |x|
  {
    y != [] && (x == [] || x[0] < y[0] || (x[0] == y[0] && TextLess(x[1..], y[1..])))
  }

  /** JavaScript `<` on two cells: numbers by value, strings by `TextLess`.
      A number and a string never compare as smaller here (see README). */
  predicate Less(a: Cell, b: Cell) {
    match (a, b)
    case (Num(x), Num(y)) => x < y
    case (Text(x), Text(y)) => TextLess(x, y)
    case _ => false
  }

  lemma {:induction false} TextLessAsymmetric(x: string, y: string)
    ensures TextLess(x, y) ==> !TextLess(y, x)
    decreases |x|
  {
    if x != [] && y != [] && x[0] == y[0] {
      TextLessAsymmetric(x[1..], y[1..]);
    }
  }

  lemma {:induction false} TextLessTotal(x: string, y: string)
    ensures x == y || TextLess(x, y) || TextLess(y, x)
    decreases |x|
  {
    if x != [] && y != [] && x[0] == y[0] {
      TextLessTotal(x[1..], y[1..]);
      if x[1..] == y[1..] {
        assert x == [x[0]] + x[1..] && y == [y[0]] + y[1..];
      }
    }
  }

  /** `<` never holds both ways round. */
  lemma LessAsymmetric(a: Cell, b: Cell)
    ensures Less(a, b) ==> !Less(b, a)
  {
    if a.Text? && b.Text? {
      TextLessAsymmetric(a.s, b.s);
    }
  }

  /** Two different cells of the same kind are always ordered one way. */
  lemma LessTotalOnKind(a: Cell, b: Cell)
    requires a.Num? == b.Num?
    ensures a == b || Less(a, b) || Less(b, a)
  {
    if a.Text? {
      TextLessTotal(a.s, b.s);
    }
  }

  // ---------------------------------------------------------------------
  // Sort toggle

  /** `handleSort(key)`: descending exactly when the same column is
      currently ascending, ascending in every other case. */
  function NextSort(current: Option<SortConfig>, key: string): (r: SortConfig)
    ensures r.key == key
    ensures r.direction == Desc <==> current == Some(SortConfig(key, Asc))
  {
    if current.Some? && current.value.key == key && current.value.direction == Asc
    then SortConfig(key, Desc)
    else SortConfig(key, Asc)
  }

  /** The sort state after clicking the header of `key` n times. */
  function Clicks(start: Option<SortConfig>, key: string, n: nat): Option<SortConfig> {
    if n == 0 then start else Some(NextSort(Clicks(start, key, n - 1), key))
  }

  /** Repeated clicks on one column alternate: from no sort, another column
      or the same column descending, the odd clicks sort ascending and the
      even ones descending; from the same column ascending it is the other
      way round. */
  lemma {:induction false} ClicksAlternate(start: Option<SortConfig>, key: string, n: nat)
    requires n >= 1
    ensures var shift := if start == Some(SortConfig(key, Asc)) then 1 else 0;
      Clicks(start, key, n) == Some(SortConfig(key, if (n + shift) % 2 == 1 then Asc else Desc))
  {
    if n > 1 {
      ClicksAlternate(start, key, n - 1);
    }
  }

  /** The arrow shown in a header: only a sortable column that is the
      current sort key shows one, pointing in the current direction. */
  function Indicator(column: Column, current: Option<SortConfig>): (r: Option<Direction>)
    ensures r.Some? <==> column.sortable && current.Some? && current.value.key == column.key
    ensures r.Some? ==> r.value == current.value.direction
  {
    if column.sortable && current.Some? && current.value.key == column.key
    then Some(current.value.direction) else None
  }

  // ---------------------------------------------------------------------
  // Copy-and-sort

  /** The comparator of `sortedData`: the key's cells compared with `<`
      and then `>`, the sign flipped for descending order. */
  function Compare(a: Row, b: Row, cfg: SortConfig): (c: int)
    ensures c == -1 || c == 0 || c == 1
    ensures cfg.key !in a || cfg.key !in b ==> c == 0
    ensures cfg.key in a && cfg.key in b ==>
      (c < 0 <==> (if cfg.direction == Asc then Less(a[cfg.key], b[cfg.key]) else Less(b[cfg.key], a[cfg.key])))
    ensures cfg.key in a && cfg.key in b ==>
      (c == 0 <==> !Less(a[cfg.key], b[cfg.key]) && !Less(b[cfg.key], a[cfg.key]))
  {
    var k := cfg.key;
    if k in a && k in b && Less(a[k], b[k]) then (LessAsymmetric(a[k], b[k]); if cfg.direction == Asc then -1 else 1)
    else if k in a && k in b && Less(b[k], a[k]) then (if cfg.direction == Asc then 1 else -1)
    else 0
  }

  /** Every row has a cell for the sort key, and all those cells are
      numbers or all are strings. */
  predicate Homogeneous(rows: seq<Row>, key: string, numeric: bool) {
    forall r: Row | r in rows :: key in r && r[key].Num? == numeric
  }

  /** Adjacent rows never compare as "greater then smaller". */
  predicate SortedBy(rows: seq<Row>, cfg: SortConfig) {
    forall i :: 0 <= i < |rows| - 1 ==> Compare(rows[i], rows[i + 1], cfg) <= 0
  }

  /** Insert a row in front of the first row it does not compare greater
      than. */
  function Insert(x: Row, s: seq<Row>, cfg: SortConfig): (r: seq<Row>)
    ensures multiset(r) == multiset(s) + multiset{x}
    ensures |r| == |s| + 1
  {
    if s == [] then [x]
    else if Compare(x, s[0], cfg) <= 0 then [x] + s
    else
      assert s == [s[0]] + s[1..];
      [s[0]] + Insert(x, s[1..], cfg)
  }

  /** The sorted copy: a stable insertion sort by the comparator. */
  function Sort(s: seq<Row>, cfg: SortConfig): (r: seq<Row>)
    ensures multiset(r) == multiset(s)
    ensures |r| == |s|
  {
    if s == [] then []
    else
      assert s == [s[0]] + s[1..];
      Insert(s[0], Sort(s[1..], cfg), cfg)
  }

  /** `sortedData`: the rows exactly as given when no sort is active,
      otherwise the sorted copy. */
  function SortedData(data: seq<Row>, current: Option<SortConfig>): (r: seq<Row>)
    ensures current.None? ==> r == data
    ensures multiset(r) == multiset(data) && |r| == |data|
  {
    if current.None? then data else Sort(data, current.value)
  }

  /** Sorting only reorders the rows, so a homogeneous key column stays
      homogeneous. */
  lemma SortHomogeneous(s: seq<Row>, cfg: SortConfig, numeric: bool)
    requires Homogeneous(s, cfg.key, numeric)
    ensures Homogeneous(Sort(s, cfg), cfg.key, numeric)
  {
    var r := Sort(s, cfg);
    forall x: Row | x in r ensures cfg.key in x && x[cfg.key].Num? == numeric {
      assert x in multiset(r);
    }
  }

  /** A row that compares greater than another makes the other compare
      smaller. */
  lemma CompareAntisymmetric(a: Row, b: Row, cfg: SortConfig)
    ensures Compare(a, b, cfg) > 0 ==> Compare(b, a, cfg) < 0
  {
    if cfg.key in a && cfg.key in b {
      LessAsymmetric(a[cfg.key], b[cfg.key]);
    }
  }

  lemma {:induction false} InsertSorted(x: Row, s: seq<Row>, cfg: SortConfig)
    requires SortedBy(s, cfg)
    ensures SortedBy(Insert(x, s, cfg), cfg)
  {
    if s != [] && Compare(x, s[0], cfg) > 0 {
      var rest := Insert(x, s[1..], cfg);
      InsertSorted(x, s[1..], cfg);
      CompareAntisymmetric(x, s[0], cfg);
      // The first element of `rest` is either x or s[1]; s[0] precedes both.
      assert rest[0] == x || (|s| > 1 && rest[0] == s[1]);
      var r := [s[0]] + rest;
      forall i | 0 <= i < |r| - 1 ensures Compare(r[i], r[i + 1], cfg) <= 0 {
        if i > 0 {
          assert r[i] == rest[i - 1] && r[i + 1] == rest[i];
        }
      }
    } else {
      var r := [x] + s;
      forall i | 0 <= i < |r| - 1 ensures Compare(r[i], r[i + 1], cfg) <= 0 {
        if i > 0 {
          assert r[i] == s[i - 1] && r[i + 1] == s[i];
        }
      }
    }
  }

  lemma {:induction false} SortSorted(s: seq<Row>, cfg: SortConfig)
    ensures SortedBy(Sort(s, cfg), cfg)
  {
    if s != [] {
      SortSorted(s[1..], cfg);
      InsertSorted(s[0], Sort(s[1..], cfg), cfg);
    }
  }

  /** `a` may stand before `b`: equal, or `<` in the direction of the sort. */
  predicate KeyInOrder(a: Row, b: Row, cfg: SortConfig) {
    cfg.key in a && cfg.key in b &&
    (var x, y := a[cfg.key], b[cfg.key];
     if cfg.direction == Asc then x == y || Less(x, y) else x == y || Less(y, x))
  }

  predicate KeyOrdered(rows: seq<Row>, cfg: SortConfig) {
    forall i :: 0 <= i < |rows| - 1 ==> KeyInOrder(rows[i], rows[i + 1], cfg)
  }

  /** When the key column holds only numbers or only strings, ascending order
      puts adjacent rows in non-decreasing order of that key and descending
      order in non-increasing order. */
  lemma SortedDataOrdered(data: seq<Row>, cfg: SortConfig, numeric: bool)
    requires Homogeneous(data, cfg.key, numeric)
    ensures KeyOrdered(SortedData(data, Some(cfg)), cfg)
  {
    var r := Sort(data, cfg);
    SortSorted(data, cfg);
    SortHomogeneous(data, cfg, numeric);
    forall i | 0 <= i < |r| - 1 ensures KeyInOrder(r[i], r[i + 1], cfg) {
      assert r[i] in r && r[i + 1] in r;
      LessTotalOnKind(r[i][cfg.key], r[i + 1][cfg.key]);
    }
  }

  /** On a numeric column the order is the order of the numbers. */
  lemma NumbersInNumericOrder(a: Row, b: Row, cfg: SortConfig)
    requires cfg.key in a && cfg.key in b && a[cfg.key].Num? && b[cfg.key].Num?
    ensures KeyInOrder(a, b, cfg) <==>
      if cfg.direction == Asc then a[cfg.key].n <= b[cfg.key].n else a[cfg.key].n >= b[cfg.key].n
  {
  }

  /** Descending order compares every pair the opposite way round. */
  lemma DescendingReversesComparator(a: Row, b: Row, key: string)
    ensures Compare(a, b, SortConfig(key, Desc)) == -Compare(a, b, SortConfig(key, Asc))
  {
  }

  // ---------------------------------------------------------------------
  // Table body

  datatype Body = LoadingView | EmptyState(colSpan: nat) | Rows(rows: seq<Row>)

  /** What the table shows: only the spinner while loading; otherwise the
      empty-state row across all columns (and the actions column when
      there is one) iff there are no rows; otherwise the sorted rows. */
  function BodyView(loading: bool, data: seq<Row>, current: Option<SortConfig>, columnCount: nat, hasActions: bool): (b: Body)
    ensures loading <==> b == LoadingView
    ensures b.EmptyState? <==> !loading && data == []
    ensures b.EmptyState? ==> b.colSpan == columnCount + (if hasActions then 1 else 0)
    ensures b.Rows? ==> b.rows == SortedData(data, current) && b.rows != []
  {
    if loading then LoadingView
    else if |SortedData(data, current)| == 0 then EmptyState(columnCount + (if hasActions then 1 else 0))
    else Rows(SortedData(data, current))
  }

  // ---------------------------------------------------------------------
  // Pagination footer

  /** "Showing `from` to `to` of `total` results" and "Page `page` of `pages`". */
  datatype Footer = Footer(from: int, to: int, total: int, page: int, pages: int)

  function Min(a: int, b: int): int {
    if a < b then a else b
  }

  function FooterText(p: Pagination): (f: Footer)
    ensures f.from == p.currentPage * p.size + 1
    ensures f.to <= p.totalElements && f.to <= (p.currentPage + 1) * p.size
    ensures f.to == p.totalElements || f.to == (p.currentPage + 1) * p.size
    ensures f.total == p.totalElements && f.page == p.currentPage + 1 && f.pages == p.totalPages
  {
    Footer(p.currentPage * p.size + 1, Min((p.currentPage + 1) * p.size, p.totalElements),
           p.totalElements, p.currentPage + 1, p.totalPages)
  }

  /** An illustration of `FooterText` (its general bounds are
      `FooterWindowBounds`): 45 results, 20 a page, on the first and last
      pages. */
  lemma FooterExample()
    ensures FooterText(Pagination(0, 3, 45, 20)) == Footer(1, 20, 45, 1, 3)
    ensures FooterText(Pagination(2, 3, 45, 20)) == Footer(41, 45, 45, 3, 3)
  {
  }

  /** On a page that holds at least one of the results, the window is a
      non-empty range of at most `size` results within 1..total. */
  lemma FooterWindowBounds(p: Pagination)
    requires p.size > 0 && p.currentPage >= 0 && p.currentPage * p.size < p.totalElements
    ensures var f := FooterText(p);
      1 <= f.from <= f.to <= f.total && f.to - f.from + 1 <= p.size
  {
  }

  predicate PrevEnabled(p: Pagination) {
    p.currentPage != 0
  }

  predicate NextEnabled(p: Pagination) {
    !(p.currentPage >= p.totalPages - 1)
  }

  /** The page an enabled prev/next button requests. */
  function PrevTarget(p: Pagination): int {
    p.currentPage - 1
  }

  function NextTarget(p: Pagination): int {
    p.currentPage + 1
  }

  /** From a page inside [0, totalPages - 1] (or page 0 of an empty list),
      an enabled button always requests a page inside [0, totalPages - 1]. */
  lemma NavigationStaysInRange(p: Pagination)
    requires 0 <= p.currentPage && (p.currentPage < p.totalPages || p.currentPage == 0)
    ensures PrevEnabled(p) ==> 0 <= PrevTarget(p) <= p.totalPages - 1
    ensures NextEnabled(p) ==> 0 <= NextTarget(p) <= p.totalPages - 1
  {
  }

  /** Prev is disabled exactly on the first page, next exactly from the
      last page on; on a one-page (or empty) list both are disabled. */
  lemma SinglePageHasNoNavigation(p: Pagination)
    requires p.currentPage == 0 && p.totalPages <= 1
    ensures !PrevEnabled(p) && !NextEnabled(p)
  {
  }

  // ---------------------------------------------------------------------
  // Component state

  /** The two state slots of the table. */
  class TableState {
    var searchQuery: string
    var sortConfig: Option<SortConfig>

    constructor()
      ensures searchQuery == "" && sortConfig == None
    {
      searchQuery := "";
      sortConfig := None;
    }

    /** A click on a header: only a sortable column changes the sort. */
    method HeaderClick(column: Column)
      modifies this
      ensures column.sortable ==> sortConfig == Some(NextSort(old(sortConfig), column.key))
      ensures !column.sortable ==> sortConfig == old(sortConfig)
      ensures searchQuery == old(searchQuery)
    {
      if column.sortable {
        var direction := Asc;
        if sortConfig.Some? && sortConfig.value.key == column.key && sortConfig.value.direction == Asc {
          direction := Desc;
        }
        sortConfig := Some(SortConfig(column.key, direction));
      }
    }

    /** `handleSearch`: store the text and report it to the page's
        `onSearch`, when the page gave one. */
    method HandleSearch(value: string, hasOnSearch: bool) returns (reported: Option<string>)
      modifies this
      ensures searchQuery == value && sortConfig == old(sortConfig)
      ensures reported == (if hasOnSearch then Some(value) else None)
    {
      searchQuery := value;
      reported := if hasOnSearch then Some(value) else None;
    }

    function View(loading: bool, data: seq<Row>, columnCount: nat, hasActions: bool): Body
      reads this
    {
      BodyView(loading, data, sortConfig, columnCount, hasActions)
    }
  }
}
