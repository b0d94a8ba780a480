/** The mocked data store API of the editor: pages of a fixed list of data stores and of
    the rows of one store. Paging follows JavaScript's `Array.prototype.slice`, including
    its negative and out-of-range bounds. */
module DataStoreApi {
  import opened Common

  /** `Array.prototype.slice`'s reading of a bound: negative counts from the end, and the
      result is clamped to the list. */
  function SliceBound(k: int, len: nat): (b: nat)
    ensures b <= len
    ensures 0 <= k <= len ==> b == k
    ensures k > len ==> b == len
    ensures k < 0 ==> b == if len + k < 0 then 0 else len + k
  {
    if k < 0 then (if len + k < 0 then 0 else len + k)
    else if k > len then len
    else k
  }

  /** `s.slice(start, end)`. */
  function JsSlice<T>(s: seq<T>, start: int, end: int): (r: seq<T>)
    ensures |r| <= |s|
    ensures var lo := SliceBound(start, |s|);
      var hi := SliceBound(end, |s|);
      |r| == (if lo <= hi then hi - lo else 0)
      && forall i | 0 <= i < |r| :: r[i] == s[lo + i]
  {
    var lo := SliceBound(start, |s|);
    var hi := SliceBound(end, |s|);
    if lo <= hi then s[lo..hi] else []
  }

  /** Non-negative ordered bounds select the window between them, clamped to the list. */
  lemma SliceWindow<T>(s: seq<T>, start: int, end: int)
    requires 0 <= start <= end
    ensures JsSlice(s, start, end)
         == s[(if start < |s| then start else |s|)..(if end < |s| then end else |s|)]
  {
  }

  /** Paging options: `page` and `pageSize`, each possibly left out. A number is falsy
      when it is 0. */
  datatype PageOptions = PageOptions(page: Option<int>, pageSize: Option<int>)

  predicate Truthy(n: Option<int>) {
    n.Some? && n.value != 0
  }

  /** The answer of `fetchDataStores`. */
  datatype Page<T> = Page(count: nat, data: seq<T>)

  /** `fetchDataStores` over the list of stores (the project filter is not applied). */
  function FetchDataStores<T>(stores: seq<T>, options: Option<PageOptions>): (r: Page<T>)
    ensures r.count == |stores|
  {
    if options.Some? && Truthy(options.value.page) && Truthy(options.value.pageSize) then
      var start := (options.value.page.value - 1) * options.value.pageSize.value;
      var end := start + options.value.pageSize.value;
      Page(|stores|, JsSlice(stores, start, end))
    else if options.Some? && Truthy(options.value.pageSize) then
      Page(|stores|, JsSlice(stores, 0, options.value.pageSize.value))
    else Page(|stores|, stores)
  }

  /** A page and a page size from 1 up give the stores from `(page-1)*pageSize`, at most
      `pageSize` of them, clamped to the list. */
  lemma PageWindow<T>(stores: seq<T>, page: int, pageSize: int)
    requires page >= 1 && pageSize >= 1
    ensures var r := FetchDataStores(stores, Some(PageOptions(Some(page), Some(pageSize))));
      var start := (page - 1) * pageSize;
      var lo := if start < |stores| then start else |stores|;
      var hi := if start + pageSize < |stores| then start + pageSize else |stores|;
      r.data == stores[lo..hi]
  {
    var start := (page - 1) * pageSize;
    assert start >= 0 by { MulPositive(page - 1, pageSize); }
  }

  lemma MulPositive(a: int, b: int)
    requires a >= 0 && b >= 0
    ensures a * b >= 0
  {
  }

  /** With a page size only, the first `pageSize` stores (all of them if there are fewer). */
  lemma PageSizeOnly<T>(stores: seq<T>, page: Option<int>, pageSize: int)
    requires pageSize >= 1 && !Truthy(page)
    ensures var r := FetchDataStores(stores, Some(PageOptions(page, Some(pageSize))));
      r.data == if pageSize < |stores| then stores[..pageSize] else stores
  {
  }

  /** Without paging options every store is returned as it is. */
  lemma NoPaging<T>(stores: seq<T>, options: Option<PageOptions>)
    requires options.None? || !Truthy(options.value.pageSize)
    ensures FetchDataStores(stores, options).data == stores
  {
  }

  /** Pages of a fixed size cover the list: the store at index `i` is on page
      `i / pageSize + 1`, at position `i % pageSize`. */
  lemma StoreOnItsPage<T>(stores: seq<T>, pageSize: int, i: nat)
    requires pageSize >= 1 && i < |stores|
    ensures var r := FetchDataStores(stores, Some(PageOptions(Some(i / pageSize + 1), Some(pageSize))));
      i % pageSize < |r.data| && r.data[i % pageSize] == stores[i]
  {
    var page := i / pageSize + 1;
    var start := (page - 1) * pageSize;
    DivSplit(i, pageSize);
    assert start + i % pageSize == i;
    PageWindow(stores, page, pageSize);
  }

  /** Euclidean division splits `i` into whole pages of `pageSize` and a position inside. */
  lemma DivSplit(i: nat, pageSize: int)
    requires pageSize >= 1
    ensures (i / pageSize + 1 - 1) * pageSize + i % pageSize == i
    ensures 0 <= i % pageSize < pageSize
  {
    assert i / pageSize + 1 - 1 == i / pageSize;
  }

  // ---------------------------------------------------------------------------------
  // fetchDataStoreMetadata

  datatype ColumnType = StringColumn | NumberColumn | BooleanColumn | DateColumn

  datatype Column = Column(name: string, displayName: string, columnType: ColumnType,
                           editable: bool, unique: bool, nullable: bool)

  /** DataStoreValue; dates are kept as their ISO text. */
  datatype Value = VString(s: string) | VNumber(n: int) | VBool(b: bool) | VDate(iso: string) | VNull

  type Row = map<string, Value>

  datatype Content = Content(totalRows: nat, rows: seq<Row>)

  /** DataStoreMetadata: the store's entity fields, its columns and maybe its content. */
  datatype Metadata = Metadata(
    id: string, name: string, size: int, recordCount: int, columnCount: int,
    createdAt: string, updatedAt: string, projectId: Option<string>,
    columns: seq<Column>, content: Option<Content>)

  /** The options of `fetchDataStoreMetadata`; left out entirely, they default to page 1 of
      100 rows with content. */
  datatype MetadataOptions = MetadataOptions(page: Option<int>, pageSize: Option<int>, includeContent: Option<bool>)

  const DefaultMetadataOptions := MetadataOptions(Some(1), Some(100), Some(true))

  /** `store.content?.rows || []`. */
  function RowsOf(store: Metadata): seq<Row> {
    if store.content.Some? then store.content.value.rows else []
  }

  /** The store with its content replaced by a window of its rows. */
  function WithRows(store: Metadata, start: int, end: int): Metadata {
    var rows := RowsOf(store);
    store.(content := Some(Content(|rows|, JsSlice(rows, start, end))))
  }

  /** `fetchDataStoreMetadata` over the store. */
  function FetchDataStoreMetadata(store: Metadata, options: Option<MetadataOptions>): (r: Metadata)
    ensures r.id == store.id && r.name == store.name && r.columns == store.columns
    ensures r == store || (r == store.(content := r.content) && r.content.Some?
                           && r.content.value.totalRows == |RowsOf(store)|)
  {
    var o := if options.Some? then options.value else DefaultMetadataOptions;
    if Truthy(o.page) && Truthy(o.pageSize) then
      var start := (o.page.value - 1) * o.pageSize.value;
      WithRows(store, start, start + o.pageSize.value)
    else if Truthy(o.pageSize) then WithRows(store, 0, o.pageSize.value)
    else store
  }

  /** Paged metadata reports the full row count and the rows of the page; the other fields
      of the store are unchanged. */
  lemma MetadataPage(store: Metadata, page: int, pageSize: int)
    requires page >= 1 && pageSize >= 1
    ensures var r := FetchDataStoreMetadata(store, Some(MetadataOptions(Some(page), Some(pageSize), None)));
      var rows := RowsOf(store);
      var start := (page - 1) * pageSize;
      var lo := if start < |rows| then start else |rows|;
      var hi := if start + pageSize < |rows| then start + pageSize else |rows|;
      && r.content == Some(Content(|rows|, rows[lo..hi]))
      && r == store.(content := r.content)
  {
    var start := (page - 1) * pageSize;
    assert start >= 0 by { MulPositive(page - 1, pageSize); }
    var rows := RowsOf(store);
    assert FetchDataStoreMetadata(store, Some(MetadataOptions(Some(page), Some(pageSize), None)))
        == WithRows(store, start, start + pageSize);
    SliceWindow(rows, start, start + pageSize);
  }

  /** Without options, the first 100 rows with the full count. */
  lemma MetadataDefault(store: Metadata)
    ensures var r := FetchDataStoreMetadata(store, None);
      var rows := RowsOf(store);
      r.content == Some(Content(|rows|, if |rows| > 100 then rows[..100] else rows))
  {
    var rows := RowsOf(store);
    assert (1 - 1) * 100 == 0;
    assert FetchDataStoreMetadata(store, None) == WithRows(store, 0, 100);
    assert |rows| <= 100 ==> rows[0..|rows|] == rows;
  }

  /** Without a page size the store is returned as it is. */
  lemma MetadataUnpaged(store: Metadata, page: Option<int>, includeContent: Option<bool>)
    ensures FetchDataStoreMetadata(store, Some(MetadataOptions(page, None, includeContent))) == store
  {
  }
}
