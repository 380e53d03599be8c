/** Turning the backend's collection records into UI DTOs: excerpts, string
    ids, pagination, and the filter-then-sort step the services apply. */
module CollectionTransformer {
  import opened Text
  import opened Seqs
  import opened BffTypes

  /** The locale date rendering `toLocaleDateString("uk-UA", …)` of a date
      string, and the rendering of the current date used when there is none.
      Both come from outside the model. */
  datatype DateFormat = DateFormat(render: string -> string, today: string)

  /** `formatDate`: a missing or empty date string renders today's date. */
  function FormatDate(dateString: Option<string>, df: DateFormat): string {
    if !TruthyStr(dateString) then df.today else df.render(dateString.value)
  }

  // ---------------------------------------------------------------------------
  // createExcerpt

  const ExcerptLength := 150

  /** `createExcerpt(content)` with the default `maxLength` of 150. */
  function CreateExcerpt(content: Option<string>): (r: Option<string>)
    ensures r.None? <==> !TruthyStr(content)
    ensures TruthyStr(content) && |content.value| <= ExcerptLength ==> r == content
    ensures r.Some? ==> |r.value| <= ExcerptLength + 3 && r.value != ""
    ensures TruthyStr(content) && |content.value| > ExcerptLength ==>
      |r.value| >= 3 && r.value[|r.value| - 3..] == "..."
  {
    if !TruthyStr(content) then None
    else if |content.value| <= ExcerptLength then content
    else Some(Trim(content.value[..ExcerptLength]) + "...")
  }

  /** A long content's excerpt is a stretch `c[i..j]` of its first 150
      characters with only whitespace cut away on either side, and then
      "...". */
  lemma ExcerptOfLongContent(c: string) returns (i: nat, j: nat)
    requires |c| > ExcerptLength
    ensures i <= j <= ExcerptLength
    ensures CreateExcerpt(Some(c)) == Some(c[i..j] + "...")
    ensures forall k :: 0 <= k < i ==> IsWhitespace(c[k])
    ensures forall k :: j <= k < ExcerptLength ==> IsWhitespace(c[k])
    ensures i < j ==> !IsWhitespace(c[i]) && !IsWhitespace(c[j - 1])
  {
    i, j := TrimPrefixBounds(c, ExcerptLength);
    ExcerptOfPrefix(c);
  }

  lemma ExcerptOfPrefix(c: string)
    requires |c| > ExcerptLength
    ensures CreateExcerpt(Some(c)) == Some(Trim(c[..ExcerptLength]) + "...")
  {
  }

  // ---------------------------------------------------------------------------
  // transformCollectionItem, transformCollection

  /** `tags || []`: an array is always truthy, so only an absent list
      defaults. */
  function TagsOrEmpty(tags: Option<seq<string>>): seq<string> {
    if tags.Some? then tags.value else []
  }

  /** `transformCollectionItem`: the id becomes its decimal text (which
      reads back as the same number), title and author are copied, tags
      default to the empty list. */
  function TransformCollectionItem(item: ApiCollectionItem, df: DateFormat): (r: CollectionItemDTO)
    ensures |r.id| >= 1
    ensures r.id[0] == '-' ==> AllDigits(r.id[1..])
    ensures r.id[0] != '-' ==> AllDigits(r.id)
    ensures ParseInt(r.id) == item.id
    ensures r.title == item.title && r.author == item.author
    ensures r.excerpt == CreateExcerpt(item.content)
    ensures r.publishedDate == Some(FormatDate(item.createdAt, df))
    ensures item.tags.Some? ==> r.tags == item.tags.value
    ensures item.tags.None? ==> r.tags == []
  {
    IntToStringRoundTrip(item.id);
    CollectionItemDTO(
      IntToString(item.id), item.title, CreateExcerpt(item.content), item.author,
      Some(FormatDate(item.createdAt, df)), TagsOrEmpty(item.tags))
  }

  /** `Math.ceil(a / b)` for integers, with Dafny's Euclidean division. */
  function CeilDiv(a: int, b: int): (q: int)
    requires b != 0
    ensures b > 0 ==> (q - 1) * b < a <= q * b
    ensures b < 0 ==> q * b <= a < (q - 1) * b
  {
    if b > 0 then
      var f := (-a) / b;
      assert -a == b * f + (-a) % b;
      assert (-f) * b == a + (-a) % b;
      assert (-f - 1) * b == a + (-a) % b - b;
      -f
    else
      var f := a / b;
      assert a == b * f + a % b;
      assert (f - 1) * b == a - a % b - b;
      f
  }

  /** `transformCollection`: every item transformed in order, `totalItems`
      the backend's `total` when truthy and the item count otherwise, and a
      pagination block exactly when both page options are truthy. */
  function TransformCollection(
    response: ApiCollectionResponse, currentPage: Option<int>, itemsPerPage: Option<int>, df: DateFormat
  ): (r: CollectionDTO)
    ensures r.name == response.collection
    ensures |r.items| == |response.items|
    ensures forall k :: 0 <= k < |r.items| ==> r.items[k] == TransformCollectionItem(response.items[k], df)
    ensures TruthyInt(response.total) ==> r.totalItems == response.total.value
    ensures !TruthyInt(response.total) ==> r.totalItems == |response.items|
    ensures r.updatedAt == FormatDate(Some(response.timestamp), df)
    ensures r.pagination.Some? <==> TruthyInt(currentPage) && TruthyInt(itemsPerPage)
    ensures r.pagination.Some? ==>
      var p := r.pagination.value;
      && p.currentPage == currentPage.value
      && p.totalPages == CeilDiv(r.totalItems, itemsPerPage.value)
      && (p.hasNext <==> p.currentPage < p.totalPages)
      && (p.hasPrev <==> p.currentPage > 1)
  {
    var items := seq(|response.items|, k requires 0 <= k < |response.items| =>
      TransformCollectionItem(response.items[k], df));
    var totalItems := if TruthyInt(response.total) then response.total.value else |items|;
    var pagination :=
      if TruthyInt(currentPage) && TruthyInt(itemsPerPage) then
        var totalPages := CeilDiv(totalItems, itemsPerPage.value);
        Some(Pagination(currentPage.value, totalPages, currentPage.value < totalPages, currentPage.value > 1))
      else None;
    CollectionDTO(response.collection, items, totalItems, FormatDate(Some(response.timestamp), df), pagination)
  }

  /** With a positive page number and page size, the page count is the
      smallest number of pages that holds every item, and there is a next
      page exactly when some item lies beyond the current page. */
  lemma PaginationCoversItems(response: ApiCollectionResponse, currentPage: int, itemsPerPage: int, df: DateFormat)
    requires currentPage > 0 && itemsPerPage > 0
    ensures var r := TransformCollection(response, Some(currentPage), Some(itemsPerPage), df);
      var p := r.pagination.value;
      && (p.totalPages - 1) * itemsPerPage < r.totalItems <= p.totalPages * itemsPerPage
      && (p.hasNext <==> currentPage * itemsPerPage < r.totalItems)
  {
    var r := TransformCollection(response, Some(currentPage), Some(itemsPerPage), df);
    PageBeforeLast(r.totalItems, itemsPerPage, currentPage);
  }

  /** A page lies before the last one exactly when items remain beyond it. */
  lemma PageBeforeLast(total: int, size: int, page: int)
    requires size > 0
    ensures page < CeilDiv(total, size) <==> page * size < total
  {
    var q := CeilDiv(total, size);
    if page < q {
      assert page * size <= (q - 1) * size;
    } else {
      assert q * size <= page * size;
    }
  }

  // ---------------------------------------------------------------------------
  // filterAndSortCollectionItems

  /** The `filters` argument; every field optional. */
  datatype ItemFilters = ItemFilters(
    tags: Option<seq<string>>,
    author: Option<string>,
    sortBy: Option<SortField>,
    order: Option<SortOrder>)

  const NoFilters := ItemFilters(None, None, None, None)

  /** `filters.tags.some(tag => item.tags.includes(tag))`. */
  predicate SharesTag(item: CollectionItemDTO, tags: seq<string>) {
    exists t :: t in tags && t in item.tags
  }

  /** `item.author?.toLowerCase().includes(author.toLowerCase())`: an item
      without an author gives `undefined`, which is falsy. */
  predicate AuthorMatches(item: CollectionItemDTO, author: string) {
    item.author.Some? && ContainsIgnoringCase(item.author.value, author)
  }

  /** What the comparator compares: the title, the published date or "" for
      a missing one, or nothing at all (a constant key) for any other field,
      where the comparator returns 0. */
  function SortKey(item: CollectionItemDTO, field: SortField): string {
    match field
    case ByTitle => item.title
    case ByDate => if item.publishedDate.Some? then item.publishedDate.value else ""
    case ByPopularity => ""
  }

  /** The comparator handed to `sort`: ascending by key, negated for
      `order === "desc"`. */
  function Compare(a: CollectionItemDTO, b: CollectionItemDTO, field: SortField, order: Option<SortOrder>): int {
    var comparison := LexCmp(SortKey(a, field), SortKey(b, field));
    if order == Some(Desc) then -comparison else comparison
  }

  /** `a` may stay before `b`: the comparator does not ask for a swap. */
  function ItemOrder(field: SortField, order: Option<SortOrder>): (CollectionItemDTO, CollectionItemDTO) -> bool {
    (a: CollectionItemDTO, b: CollectionItemDTO) => Compare(a, b, field, order) <= 0
  }

  /** The comparator is consistent: a total preorder, so the stable sort is
      well defined. */
  lemma ItemOrderPreorder(field: SortField, order: Option<SortOrder>)
    ensures Total(ItemOrder(field, order)) && Transitive(ItemOrder(field, order))
  {
    var le := ItemOrder(field, order);
    forall a, b ensures le(a, b) || le(b, a) {
      LexCmpAntisymmetric(SortKey(a, field), SortKey(b, field));
    }
    forall a, b, c | le(a, b) && le(b, c) ensures le(a, c) {
      var ka, kb, kc := SortKey(a, field), SortKey(b, field), SortKey(c, field);
      if order == Some(Desc) {
        LexCmpAntisymmetric(ka, kb);
        LexCmpAntisymmetric(kb, kc);
        LexCmpAntisymmetric(ka, kc);
        LexCmpTransitive(kc, kb, ka);
      } else {
        LexCmpTransitive(ka, kb, kc);
      }
    }
  }

  function TagFilter(tags: seq<string>): CollectionItemDTO -> bool {
    item => SharesTag(item, tags)
  }

  function AuthorFilter(author: string): CollectionItemDTO -> bool {
    item => AuthorMatches(item, author)
  }

  /** The tag filter applies only with a non-empty tag list. */
  function ByTags(items: seq<CollectionItemDTO>, tags: Option<seq<string>>): seq<CollectionItemDTO> {
    if tags.Some? && |tags.value| > 0 then Filter(items, TagFilter(tags.value)) else items
  }

  /** The author filter applies only with a truthy author. */
  function ByAuthor(items: seq<CollectionItemDTO>, author: Option<string>): seq<CollectionItemDTO> {
    if TruthyStr(author) then Filter(items, AuthorFilter(author.value)) else items
  }

  /** The sort applies only when a sort field is given. */
  function Sorted(items: seq<CollectionItemDTO>, sortBy: Option<SortField>, order: Option<SortOrder>): seq<CollectionItemDTO> {
    if sortBy.Some? then StableSort(items, ItemOrder(sortBy.value, order)) else items
  }

  /** The specification of `filterAndSortCollectionItems`. */
  function Arranged(items: seq<CollectionItemDTO>, f: ItemFilters): seq<CollectionItemDTO> {
    Sorted(ByAuthor(ByTags(items, f.tags), f.author), f.sortBy, f.order)
  }

  /** Whether an item passes both filters. */
  predicate Kept(item: CollectionItemDTO, f: ItemFilters) {
    && (f.tags.Some? && |f.tags.value| > 0 ==> SharesTag(item, f.tags.value))
    && (TruthyStr(f.author) ==> AuthorMatches(item, f.author.value))
  }

  /** The result holds exactly the input items that pass both filters: an
      empty tag list and a falsy author filter nothing, and an item without
      an author fails a truthy author filter. */
  lemma {:induction false} ArrangedMembers(items: seq<CollectionItemDTO>, f: ItemFilters, x: CollectionItemDTO)
    ensures x in Arranged(items, f) <==> x in items && Kept(x, f)
  {
    var t := ByTags(items, f.tags);
    var a := ByAuthor(t, f.author);
    if f.tags.Some? && |f.tags.value| > 0 {
      FilterMember(items, TagFilter(f.tags.value), x);
    }
    if TruthyStr(f.author) {
      FilterMember(t, AuthorFilter(f.author.value), x);
    }
    assert x in Arranged(items, f) <==> x in multiset(Arranged(items, f));
    assert multiset(Arranged(items, f)) == multiset(a);
  }

  /** The result is a rearrangement of the filtered items, each kept as
      often as it occurs, so no item appears more often than it does in the
      input. */
  lemma ArrangedSubMultiset(items: seq<CollectionItemDTO>, f: ItemFilters)
    ensures multiset(Arranged(items, f)) == multiset(ByAuthor(ByTags(items, f.tags), f.author))
    ensures multiset(Arranged(items, f)) <= multiset(items)
  {
    var t := ByTags(items, f.tags);
    if f.tags.Some? && |f.tags.value| > 0 {
      FilterSubMultiset(items, TagFilter(f.tags.value));
    }
    if TruthyStr(f.author) {
      FilterSubMultiset(t, AuthorFilter(f.author.value));
    }
  }

  /** Without a sort field and with no filters at all (an empty tag list,
      a falsy author) the input comes back as it is. */
  lemma ArrangedUnsorted(items: seq<CollectionItemDTO>, f: ItemFilters)
    requires f.sortBy.None?
    ensures (f.tags.None? || f.tags.value == []) && !TruthyStr(f.author) ==> Arranged(items, f) == items
  {
  }

  /** With a sort field the result is in comparator order: ascending by key,
      or descending when the order is "desc". */
  lemma ArrangedSorted(items: seq<CollectionItemDTO>, f: ItemFilters)
    requires f.sortBy.Some?
    ensures var r := Arranged(items, f);
      forall i, j :: 0 <= i < j < |r| ==>
        if f.order == Some(Desc) then LexCmp(SortKey(r[i], f.sortBy.value), SortKey(r[j], f.sortBy.value)) >= 0
        else LexCmp(SortKey(r[i], f.sortBy.value), SortKey(r[j], f.sortBy.value)) <= 0
  {
    var le := ItemOrder(f.sortBy.value, f.order);
    ItemOrderPreorder(f.sortBy.value, f.order);
    StableSortSorted(ByAuthor(ByTags(items, f.tags), f.author), le);
    var r := Arranged(items, f);
    forall i, j | 0 <= i < j < |r|
      ensures if f.order == Some(Desc) then LexCmp(SortKey(r[i], f.sortBy.value), SortKey(r[j], f.sortBy.value)) >= 0
        else LexCmp(SortKey(r[i], f.sortBy.value), SortKey(r[j], f.sortBy.value)) <= 0
    {
      assert le(r[i], r[j]);
    }
  }

  /** The items whose sort key is that of `x`: those the comparator does
      not tell apart from it. */
  function SameKey(x: CollectionItemDTO, field: SortField): CollectionItemDTO -> bool {
    y => SortKey(y, field) == SortKey(x, field)
  }

  /** The sort is stable: items with equal keys keep the order they had
      after filtering. */
  lemma ArrangedStable(items: seq<CollectionItemDTO>, f: ItemFilters, x: CollectionItemDTO)
    requires f.sortBy.Some?
    ensures Filter(Arranged(items, f), SameKey(x, f.sortBy.value))
      == Filter(ByAuthor(ByTags(items, f.tags), f.author), SameKey(x, f.sortBy.value))
  {
    var field := f.sortBy.value;
    var le := ItemOrder(field, f.order);
    var s := ByAuthor(ByTags(items, f.tags), f.author);
    ItemOrderPreorder(field, f.order);
    StableSortEquivalents(s, le, x);
    forall y ensures Equivalent(le, x)(y) == SameKey(x, field)(y) {
      LexCmpAntisymmetric(SortKey(x, field), SortKey(y, field));
    }
    FilterSame(StableSort(s, le), Equivalent(le, x), SameKey(x, field));
    FilterSame(s, Equivalent(le, x), SameKey(x, field));
  }

  /** Popularity is no key at all: the comparator returns 0 for every pair,
      so sorting by it leaves the filtered items in their order. */
  lemma ArrangedByPopularity(items: seq<CollectionItemDTO>, f: ItemFilters)
    requires f.sortBy == Some(ByPopularity)
    ensures Arranged(items, f) == ByAuthor(ByTags(items, f.tags), f.author)
  {
    var s := ByAuthor(ByTags(items, f.tags), f.author);
    var le := ItemOrder(ByPopularity, f.order);
    assert LexCmp("", "") == 0;
    assert SortedBy(s, le);
    StableSortOfSorted(s, le);
  }

  /** `filterAndSortCollectionItems`: copies the input, narrows the copy by
      tags and then by author, and sorts it when asked. The input sequence
      itself is a value and cannot change. */
  method FilterAndSortCollectionItems(items: seq<CollectionItemDTO>, filters: ItemFilters)
    returns (filtered: seq<CollectionItemDTO>)
    ensures filtered == Arranged(items, filters)
    ensures multiset(filtered) == multiset(ByAuthor(ByTags(items, filters.tags), filters.author))
    ensures multiset(filtered) <= multiset(items)
    ensures forall x :: x in filtered <==> x in items && Kept(x, filters)
  {
    filtered := items;
    if filters.tags.Some? && |filters.tags.value| > 0 {
      filtered := Filter(filtered, TagFilter(filters.tags.value));
    }
    if TruthyStr(filters.author) {
      filtered := Filter(filtered, AuthorFilter(filters.author.value));
    }
    if filters.sortBy.Some? {
      filtered := StableSort(filtered, ItemOrder(filters.sortBy.value, filters.order));
    }
    ArrangedSubMultiset(items, filters);
    forall x ensures x in filtered <==> x in items && Kept(x, filters) {
      ArrangedMembers(items, filters, x);
    }
  }
}
