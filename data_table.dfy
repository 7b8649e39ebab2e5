/** The paginated data table (`DataTable`): it owns `currentPage` and
    `pageSize`, shows the slice of the records that belongs to the current
    page, clamps the previous/next controls, lays out a window of at most
    five page buttons, numbers rows in an optional index column and falls
    back to a placeholder row when there are no records. */
module DataTable {
  import opened Common

  /** A JavaScript value as a record field or a rendered cell holds it
      (`NaN` is not modelled). */
  datatype JsValue = Undefined | Null | Bool(b: bool) | Number(n: real) | Str(s: string)

  /** JavaScript falsiness: `undefined`, `null`, `false`, `0` and `''`. */
  predicate Falsy(v: JsValue)
  {
    v.Undefined? || v.Null? || v == Bool(false) || v == Number(0.0) || v == Str("")
  }

  /** One untyped row of the table. */
  type Record = map<string, JsValue>

  /** `record[key]`: `undefined` when the key is absent. */
  function Field(r: Record, key: string): JsValue
  {
    if key in r then r[key] else Undefined
  }

  /** A column's `render(value, record, indexInPage)`. */
  type Renderer = (JsValue, Record, nat) -> JsValue

  datatype Column = Column(key: string, title: string, render: Option<Renderer>)

  /** The `pagination` prop. */
  datatype PaginationOptions = PaginationOptions(pageSize: Option<nat>, showSizeChanger: bool, showTotal: bool)

  /** The rows of the table body. */
  datatype Row = Placeholder(colSpan: nat, text: string) | DataRow(cells: seq<JsValue>)

  const DefaultPageSize: nat := 10
  const MaxVisiblePages: nat := 5

  function Min(a: int, b: int): int { if a <= b then a else b }
  function Max(a: int, b: int): int { if a >= b then a else b }

  /** `Math.ceil(n / size)` for a positive page size. */
  function TotalPages(n: nat, size: nat): (t: nat)
    requires size > 0
  {
    (n + size - 1) / size
  }

  /** The page count is the least number of pages of `size` rows that hold
      `n` rows: zero rows need no page, otherwise every page but the last is
      full and the last is not empty. */
  lemma TotalPagesIsCeiling(n: nat, size: nat)
    requires size > 0
    ensures TotalPages(n, size) == 0 <==> n == 0
    ensures n <= TotalPages(n, size) * size
    ensures n > 0 ==> (TotalPages(n, size) - 1) * size < n
  {
    var t := TotalPages(n, size);
    var r := (n + size - 1) % size;
    assert n + size - 1 == t * size + r;
    assert 0 <= r < size;
  }

  /** The initial page size: `pagination?.pageSize || 10`. */
  function InitialPageSize(pagination: Option<PaginationOptions>): (s: nat)
    ensures s > 0
    ensures pagination.Some? && pagination.value.pageSize.Some? && pagination.value.pageSize.value > 0
            ==> s == pagination.value.pageSize.value
    ensures pagination.None? || pagination.value.pageSize.None? ==> s == DefaultPageSize
  {
    if pagination.Some? && pagination.value.pageSize.Some? && pagination.value.pageSize.value > 0
    then pagination.value.pageSize.value else DefaultPageSize
  }

  /** `data.slice(start, start + size)` with `start = (page - 1) * size`;
      `slice` clips both bounds to the length. */
  function PageRows<T>(data: seq<T>, page: int, size: nat): (rows: seq<T>)
    requires page >= 1 && size > 0
    ensures |rows| <= size
  {
    var start := Min((page - 1) * size, |data|);
    var end := Min((page - 1) * size + size, |data|);
    data[start..end]
  }

  /** The rows on a page are exactly the records numbered from
      `(page - 1) * size`, in order; every page before the last is full and
      the last is non-empty. */
  lemma PageRowsAt<T>(data: seq<T>, page: int, size: nat)
    requires page >= 1 && size > 0
    ensures forall i :: 0 <= i < |PageRows(data, page, size)| ==>
              (page - 1) * size + i < |data| && PageRows(data, page, size)[i] == data[(page - 1) * size + i]
    ensures page * size <= |data| ==> |PageRows(data, page, size)| == size
    ensures page <= TotalPages(|data|, size) ==> |PageRows(data, page, size)| > 0
  {
    var start := (page - 1) * size;
    var rows := PageRows(data, page, size);
    if start < |data| {
      assert rows == data[start..Min(start + size, |data|)];
    } else {
      assert |rows| == 0;
    }
    PageRowsLength(data, page, size);
  }

  /** A page inside the data is full, and every counted page is non-empty. */
  lemma PageRowsLength<T>(data: seq<T>, page: int, size: nat)
    requires page >= 1 && size > 0
    ensures page * size <= |data| ==> |PageRows(data, page, size)| == size
    ensures page <= TotalPages(|data|, size) ==> |PageRows(data, page, size)| > 0
  {
    var start := (page - 1) * size;
    assert start + size == page * size;
    assert start >= 0;
    if page * size <= |data| {
      assert |PageRows(data, page, size)| == (start + size) - start;
    }
    if page <= TotalPages(|data|, size) {
      var t := TotalPages(|data|, size);
      TotalPagesIsCeiling(|data|, size);
      MulMonotone(page - 1, t - 1, size);
      assert start < |data|;
    }
  }

  lemma MulMonotone(a: int, b: int, c: nat)
    requires a <= b
    ensures a * c <= b * c
  {
    assert b * c - a * c == (b - a) * c;
  }

  /** Pages 1..k laid end to end. */
  function ConcatPages<T>(data: seq<T>, size: nat, k: nat): seq<T>
    requires size > 0
  {
    if k == 0 then [] else ConcatPages(data, size, k - 1) + PageRows(data, k, size)
  }

  /** The first `k` pages hold exactly the first `k * size` records. */
  lemma {:induction false} ConcatPagesPrefix<T>(data: seq<T>, size: nat, k: nat)
    requires size > 0
    ensures ConcatPages(data, size, k) == data[..Min(k * size, |data|)]
  {
    if k > 0 {
      ConcatPagesPrefix(data, size, k - 1);
      var a := Min((k - 1) * size, |data|);
      var b := Min(k * size, |data|);
      assert (k - 1) * size + size == k * size;
      assert data[..a] + data[a..b] == data[..b];
    }
  }

  /** The pages partition the records: all pages laid end to end give back
      the whole list, each record on exactly one page. */
  lemma PagesPartitionData<T>(data: seq<T>, size: nat)
    requires size > 0
    ensures ConcatPages(data, size, TotalPages(|data|, size)) == data
  {
    TotalPagesIsCeiling(|data|, size);
    ConcatPagesPrefix(data, size, TotalPages(|data|, size));
  }

  /** The cell a column shows for a record: its renderer's output, or the
      raw field with `'-'` for every falsy value. */
  function Cell(col: Column, r: Record, index: nat): JsValue
  {
    match col.render
    case Some(f) => f(Field(r, col.key), r, index)
    case None => if Falsy(Field(r, col.key)) then Str("-") else Field(r, col.key)
  }

  /** The index column, numbering rows from `startIndex + 1`. */
  function IndexColumn(indexTitle: string, startIndex: int): Column
  {
    Column("index", indexTitle, Some((v: JsValue, r: Record, i: nat) => Number((startIndex + i + 1) as real)))
  }

  /** `finalColumns`: the index column is put before the caller's columns
      when `showIndex` is set. */
  function FinalColumns(columns: seq<Column>, showIndex: bool, indexTitle: string, startIndex: int): (cols: seq<Column>)
    ensures showIndex ==> |cols| == |columns| + 1 && cols[0].key == "index" && cols[1..] == columns
    ensures !showIndex ==> cols == columns
  {
    if showIndex then [IndexColumn(indexTitle, startIndex)] + columns else columns
  }

  /** The table body: one placeholder row spanning every column when there
      are no records, otherwise one row per record of the page. */
  function Body(data: seq<Record>, cols: seq<Column>, page: int, size: nat, emptyText: string): (rows: seq<Row>)
    requires page >= 1 && size > 0
    ensures |data| == 0 ==> rows == [Placeholder(|cols|, emptyText)]
    ensures |data| > 0 ==> |rows| == |PageRows(data, page, size)|
    ensures |data| > 0 ==> forall i :: 0 <= i < |rows| ==>
              rows[i].DataRow? && |rows[i].cells| == |cols|
              && forall j :: 0 <= j < |cols| ==> rows[i].cells[j] == Cell(cols[j], PageRows(data, page, size)[i], i)
  {
    if |data| == 0 then [Placeholder(|cols|, emptyText)]
    else
      var rows := PageRows(data, page, size);
      seq(|rows|, i requires 0 <= i < |rows| =>
        DataRow(seq(|cols|, j requires 0 <= j < |cols| => Cell(cols[j], rows[i], i))))
  }

  /** With the index column on, row `i` of page `p` shows `(p - 1) * size + i + 1`
      in its first cell, so the numbers run on from page to page. */
  lemma IndexCells(data: seq<Record>, columns: seq<Column>, indexTitle: string, page: int, size: nat, emptyText: string)
    requires page >= 1 && size > 0 && |data| > 0
    ensures var cols := FinalColumns(columns, true, indexTitle, (page - 1) * size);
            var rows := Body(data, cols, page, size, emptyText);
            forall i :: 0 <= i < |rows| ==> rows[i].cells[0] == Number(((page - 1) * size + i + 1) as real)
  {
  }

  /** A column without a renderer shows the raw value, and `'-'` exactly for
      the falsy ones: `0` and `''` included. */
  lemma FallbackCell(col: Column, r: Record, index: nat)
    requires col.render.None?
    ensures Cell(col, r, index) == Str("-") <==> Falsy(Field(r, col.key)) || Field(r, col.key) == Str("-")
    ensures Field(r, col.key) == Number(0.0) ==> Cell(col, r, index) == Str("-")
  {
  }

  /** The numbered window of page buttons: `startPage = max(1, p - 2)`,
      `endPage = min(total, startPage + 4)`, moved back so that it holds five
      pages when there are that many. */
  method PageNumbers(currentPage: int, totalPages: int) returns (pages: seq<int>)
    requires 1 <= currentPage <= totalPages
    ensures |pages| == Min(MaxVisiblePages, totalPages)
    ensures forall k :: 0 <= k < |pages| ==> pages[k] == pages[0] + k
    ensures 1 <= pages[0] && pages[|pages| - 1] <= totalPages
    ensures currentPage in pages
  {
    var startPage := Max(1, currentPage - MaxVisiblePages / 2);
    var endPage := Min(totalPages, startPage + MaxVisiblePages - 1);
    if endPage - startPage + 1 < MaxVisiblePages {
      startPage := Max(1, endPage - MaxVisiblePages + 1);
    }
    pages := [];
    var i := startPage;
    while i <= endPage
      invariant startPage <= i <= endPage + 1
      invariant |pages| == i - startPage
      invariant forall k :: 0 <= k < |pages| ==> pages[k] == startPage + k
    {
      pages := pages + [i];
      i := i + 1;
    }
    assert pages[currentPage - startPage] == currentPage;
  }

  /** The pagination state of one table instance. */
  class Table {
    var data: seq<Record>
    var pageSize: nat
    var currentPage: int
    const columns: seq<Column>
    const showIndex: bool
    const indexTitle: string
    const emptyText: string
    const pagination: Option<PaginationOptions>

    /** The page is always one that exists, or 1 when there is none. */
    ghost predicate Valid()
      reads this
    {
      pageSize > 0 && 1 <= currentPage && (currentPage == 1 || currentPage <= TotalPages(|data|, pageSize))
    }

    constructor (data: seq<Record>, columns: seq<Column>, showIndex: bool, indexTitle: string,
                 emptyText: string, pagination: Option<PaginationOptions>)
      ensures Valid()
      ensures this.data == data && this.columns == columns && this.showIndex == showIndex
      ensures this.indexTitle == indexTitle && this.emptyText == emptyText && this.pagination == pagination
      ensures currentPage == 1 && pageSize == InitialPageSize(pagination)
    {
      this.data := data;
      this.columns := columns;
      this.showIndex := showIndex;
      this.indexTitle := indexTitle;
      this.emptyText := emptyText;
      this.pagination := pagination;
      pageSize := InitialPageSize(pagination);
      currentPage := 1;
    }

    function Pages(): nat
      reads this
      requires Valid()
    {
      TotalPages(|data|, pageSize)
    }

    function StartIndex(): int
      reads this
      requires Valid()
    {
      (currentPage - 1) * pageSize
    }

    function VisibleRows(): seq<Record>
      reads this
      requires Valid()
    {
      PageRows(data, currentPage, pageSize)
    }

    function Columns(): seq<Column>
      reads this
      requires Valid()
    {
      FinalColumns(columns, showIndex, indexTitle, StartIndex())
    }

    function Rendered(): seq<Row>
      reads this
      requires Valid()
    {
      Body(data, Columns(), currentPage, pageSize, emptyText)
    }

    /** The pagination buttons are rendered only with the `pagination` prop
        and at least one record. */
    predicate ControlsShown()
      reads this
    {
      pagination.Some? && |data| > 0
    }

    /** The caller passes a new `data` array; the page goes back to 1 when
        its length differs from the previous one. */
    method ReceiveData(newData: seq<Record>)
      requires Valid()
      modifies this
      ensures Valid()
      ensures data == newData && pageSize == old(pageSize)
      ensures currentPage == if |newData| != |old(data)| then 1 else old(currentPage)
    {
      if |newData| != |data| {
        currentPage := 1;
      }
      data := newData;
    }

    /** The previous-page button: `max(1, currentPage - 1)`. */
    method Prev()
      requires Valid() && ControlsShown()
      modifies this`currentPage
      ensures Valid()
      ensures currentPage == Max(1, old(currentPage) - 1)
      ensures old(currentPage) == 1 ==> currentPage == 1
    {
      currentPage := Max(1, currentPage - 1);
    }

    /** The next-page button: `min(totalPages, currentPage + 1)`. */
    method Next()
      requires Valid() && ControlsShown()
      modifies this`currentPage
      ensures Valid()
      ensures currentPage == Min(Pages(), old(currentPage) + 1)
      ensures old(currentPage) == Pages() ==> currentPage == old(currentPage)
      ensures 1 <= currentPage <= Pages()
    {
      TotalPagesIsCeiling(|data|, pageSize);
      currentPage := Min(Pages(), currentPage + 1);
    }

    /** A numbered page button. */
    method GoToPage(page: int)
      requires Valid() && ControlsShown() && 1 <= page <= Pages()
      modifies this`currentPage
      ensures Valid() && currentPage == page
    {
      currentPage := page;
    }

    /** The page-size selector (options 5, 10, 20, 50): stores the size and
        goes back to page 1. */
    method ChangePageSize(size: nat)
      requires Valid() && ControlsShown() && pagination.value.showSizeChanger && size > 0
      modifies this`pageSize, this`currentPage
      ensures Valid() && pageSize == size && currentPage == 1
    {
      pageSize := size;
      currentPage := 1;
    }

    /** The page-number buttons for the current state. */
    method PageButtons() returns (pages: seq<int>)
      requires Valid() && ControlsShown()
      ensures |pages| == Min(MaxVisiblePages, Pages())
      ensures forall k :: 0 <= k < |pages| ==> 1 <= pages[k] <= Pages() && pages[k] == pages[0] + k
      ensures currentPage in pages
    {
      TotalPagesIsCeiling(|data|, pageSize);
      pages := PageNumbers(currentPage, Pages());
    }
  }

  /** `Hiển thị a-b của n`: the 1-based positions of the first and last rows
      shown; they bound exactly the visible slice. */
  function ShownRange(n: nat, page: int, size: nat): (range: (int, int))
    requires page >= 1 && size > 0
    requires page <= TotalPages(n, size)
    ensures range.0 == (page - 1) * size + 1
    ensures range.1 == Min(page * size, n)
    ensures range.1 - range.0 + 1 == |PageRows(seq(n, i => i), page, size)|
  {
    TotalPagesIsCeiling(n, size);
    assert (page - 1) * size <= (TotalPages(n, size) - 1) * size;
    ((page - 1) * size + 1, Min((page - 1) * size + size, n))
  }
}
