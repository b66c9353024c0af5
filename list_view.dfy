/**
 * The default list view of a collection: which body is rendered (loading
 * shimmer, table, or the no-results state), which create controls appear,
 * and the "first–last of total" page information beside the pagination.
 *
 * The paginated result `data` comes from the server. Its metadata obeys
 * `Consistent` below when it is produced by the usual paginated query; the
 * page-information properties are stated for such metadata.
 */
module ListView {
  import opened Js

  /** A document: its fields by name. */
  type Doc = map<string, Value>

  /** The paginated result handed to the view. `docs` is None while it is loading. */
  datatype ListData = ListData(
    docs: Option<seq<Doc>>,
    totalDocs: int,
    page: int,
    limit: int,
    totalPages: int,
    pagingCounter: int)

  /** The props of the view that the decisions depend on. */
  datatype ListProps = ListProps(
    data: ListData,
    isUpload: bool,             // the collection has an `upload` config
    hasCreatePermission: bool,
    newDocumentURL: Option<string>,
    customHeader: bool)         // a custom header was supplied (it is truthy)

  /** `{...doc}`: a shallow copy with the same fields. */
  function Spread(doc: Doc): Doc
  {
    map k | k in doc :: doc[k]
  }

  /** `data.docs || []`, and for an upload collection each document spread into a copy. */
  function Docs(data: ListData, isUpload: bool): (docs: seq<Doc>)
    ensures data.docs.None? ==> docs == []
    ensures data.docs.Some? ==> docs == data.docs.value
  {
    var docs := if data.docs.Some? then data.docs.value else [];
    if isUpload then
      var copies := seq(|docs|, i requires 0 <= i < |docs| => Spread(docs[i]));
      assert forall i :: 0 <= i < |docs| ==> copies[i] == docs[i];
      copies
    else
      docs
  }

  /** "first–last of total", as shown beside the pagination. */
  datatype PageInfo = PageInfo(first: int, last: int, total: int)

  /** The page information computed from the metadata. */
  function PageInfoOf(data: ListData): (info: PageInfo)
    ensures info.first == (data.page - 1) * data.limit + 1
    ensures info.total == data.totalDocs
    ensures data.totalPages > 1 && data.page != data.totalPages ==> info.last == data.page * data.limit
    ensures !(data.totalPages > 1 && data.page != data.totalPages) ==> info.last == data.totalDocs
  {
    PageInfo(
      data.page * data.limit - (data.limit - 1),
      if data.totalPages > 1 && data.totalPages != data.page then data.limit * data.page else data.totalDocs,
      data.totalDocs)
  }

  /** The page information and the per-page selector with its `resetPage` flag. */
  datatype Footer = Footer(info: PageInfo, resetPage: bool)

  /** The body of the list. */
  datatype Body =
    | Shimmer                     // docs not loaded yet
    | Table(rows: seq<Doc>)       // at least one document
    | NoResults(createButton: bool)

  /**
   * What the view renders: the create pill of the default header, the body,
   * and, below a non-empty table, the pagination (`controls`), which carries
   * the footer when there are documents in total.
   */
  datatype View = View(createPill: bool, body: Body, controls: Option<Option<Footer>>)

  function Render(props: ListProps): (v: View)
    ensures v.createPill <==> !props.customHeader && props.hasCreatePermission
    ensures v.body.Shimmer? <==> props.data.docs.None?
    ensures v.body.Table? <==> props.data.docs.Some? && |props.data.docs.value| > 0
    ensures v.body.NoResults? <==> props.data.docs.Some? && |props.data.docs.value| == 0
    ensures v.body.Table? ==> v.body.rows == props.data.docs.value
    ensures v.body.NoResults? ==>
              (v.body.createButton <==> props.hasCreatePermission && TruthyString(props.newDocumentURL))
    ensures v.controls.Some? <==> v.body.Table?
    ensures v.controls.Some? ==> (v.controls.value.Some? <==> props.data.totalDocs > 0)
    ensures v.controls.Some? && v.controls.value.Some? ==>
              && v.controls.value.value.info == PageInfoOf(props.data)
              && (v.controls.value.value.resetPage <==> props.data.totalDocs <= props.data.pagingCounter)
  {
    var data := props.data;
    var docs := Docs(data, props.isUpload);
    var body :=
      if data.docs.None? then Shimmer
      else if |data.docs.value| > 0 then Table(docs)
      else NoResults(props.hasCreatePermission && TruthyString(props.newDocumentURL));
    var controls :=
      if data.docs.Some? && |data.docs.value| > 0 then
        Some(if data.totalDocs > 0
             then Some(Footer(PageInfoOf(data), data.totalDocs <= data.pagingCounter))
             else None)
      else None;
    View(!props.customHeader && props.hasCreatePermission, body, controls)
  }

  /** `Math.ceil(totalDocs / limit)`, at least 1. */
  function PageCount(totalDocs: nat, limit: int): (n: int)
    requires limit >= 1
    ensures n >= 1
  {
    if totalDocs == 0 then 1 else (totalDocs + limit - 1) / limit
  }

  /**
   * Metadata of a paginated query: a positive page size, as many pages as
   * the documents need, a page among them, and `pagingCounter` the position
   * of the page's first document.
   */
  predicate Consistent(data: ListData)
  {
    && data.limit >= 1
    && data.totalDocs >= 0
    && data.totalPages == PageCount(data.totalDocs, data.limit)
    && 1 <= data.page <= data.totalPages
    && data.pagingCounter == (data.page - 1) * data.limit + 1
  }

  /** How many documents the current page holds. */
  function RowsOnPage(data: ListData): int
  {
    var rest := data.totalDocs - (data.page - 1) * data.limit;
    if rest < data.limit then rest else data.limit
  }

  /** Every page but the last is full, and the last page holds the remaining documents. */
  lemma PageCountBounds(totalDocs: nat, limit: int)
    requires limit >= 1 && totalDocs >= 1
    ensures (PageCount(totalDocs, limit) - 1) * limit < totalDocs <= PageCount(totalDocs, limit) * limit
  {
  }

  lemma MulMonotone(a: int, b: int, c: int)
    requires a <= b && c >= 0
    ensures a * c <= b * c
  {
  }

  /**
   * For consistent metadata with documents, the page information is a range
   * within 1..totalDocs holding exactly the documents of this page.
   */
  lemma {:induction false} PageInfoBounds(data: ListData)
    requires Consistent(data) && data.totalDocs > 0
    ensures var info := PageInfoOf(data);
            && 1 <= info.first <= info.last <= data.totalDocs
            && info.last - info.first + 1 == RowsOnPage(data)
            && 1 <= RowsOnPage(data) <= data.limit
  {
    var n, p, l, t := data.totalPages, data.page, data.limit, data.totalDocs;
    PageCountBounds(t, l);
    MulMonotone(p - 1, n - 1, l);
    MulMonotone(0, p - 1, l);
    assert (p - 1) * l == p * l - l;
    if p < n {
      MulMonotone(p, n - 1, l);
    }
  }

  /**
   * Consecutive pages are adjacent ranges: page 1 starts at the first
   * document, each next page starts right after the previous one ends, and
   * the last page ends at the last document.
   */
  lemma PagesTile(data: ListData)
    requires Consistent(data) && data.totalDocs > 0
    ensures data.page == 1 ==> PageInfoOf(data).first == 1
    ensures data.page == data.totalPages ==> PageInfoOf(data).last == data.totalDocs
    ensures data.page < data.totalPages ==>
              var next := data.(page := data.page + 1, pagingCounter := data.pagingCounter + data.limit);
              && Consistent(next)
              && PageInfoOf(next).first == PageInfoOf(data).last + 1
  {
  }

  /**
   * For consistent metadata with documents, `resetPage` holds exactly when
   * the page starts at the last document, i.e. it is the last page and
   * holds a single document.
   */
  lemma {:induction false} ResetPageOnLoneLastRow(data: ListData)
    requires Consistent(data) && data.totalDocs > 0
    ensures (data.totalDocs <= data.pagingCounter) <==> PageInfoOf(data).first == data.totalDocs
    ensures (data.totalDocs <= data.pagingCounter) <==>
              data.page == data.totalPages && RowsOnPage(data) == 1
  {
    PageInfoBounds(data);
    var n, p, l, t := data.totalPages, data.page, data.limit, data.totalDocs;
    if p < n {
      PageCountBounds(t, l);
      MulMonotone(p, n - 1, l);
      assert p * l < t;
      assert (p - 1) * l == p * l - l;
    }
  }
}
