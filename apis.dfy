/** JSON API errors and the pagination record. */
module Apis {
  import opened Values

  /** An API error: a code, the field or resource it concerns, a message. */
  datatype ApiError = ApiError(error: string, data: string, message: string)

  /** `APIError(error, data='', message='')`: the base error every kind below
      is made with. */
  function NewApiError(error: string, data: string := "", message: string := ""): (e: ApiError)
    ensures e.error == error && e.data == data && e.message == message
  {
    ApiError(error, data, message)
  }

  /** `APIValueError(field, message='')`: an invalid input field. */
  function ApiValueError(field: string, message: string := ""): (e: ApiError)
    ensures e == NewApiError("value:invalid", field, message)
  {
    NewApiError("value:invalid", field, message)
  }

  /** `APIResourceNotFoundError(field, message='')`: a missing resource. */
  function ApiResourceNotFoundError(field: string, message: string := ""): (e: ApiError)
    ensures e == NewApiError("value:notfound", field, message)
  {
    NewApiError("value:notfound", field, message)
  }

  /** `APIPermissionError(field, message='')`: the field is not recorded. */
  function ApiPermissionError(field: string, message: string := ""): (e: ApiError)
    ensures e == NewApiError("permission:forbidden", "permission", message)
  {
    NewApiError("permission:forbidden", "permission", message)
  }

  /** Without a message every kind carries the empty one, and an error built
      from the base class alone has empty data as well. */
  lemma ApiErrorDefaults(error: string, field: string)
    ensures NewApiError(error) == ApiError(error, "", "")
    ensures ApiValueError(field).message == ""
    ensures ApiResourceNotFoundError(field).message == ""
    ensures ApiPermissionError(field).message == ""
  {
  }

  /** The three kinds of error are told apart by their code alone, and the
      permission error is the same whatever field it is given. */
  lemma ErrorCodesDistinct(f1: string, m1: string, f2: string, m2: string)
    ensures ApiValueError(f1, m1).error != ApiResourceNotFoundError(f2, m2).error
    ensures ApiValueError(f1, m1).error != ApiPermissionError(f2, m2).error
    ensures ApiResourceNotFoundError(f1, m1).error != ApiPermissionError(f2, m2).error
    ensures ApiPermissionError(f1, m1) == ApiPermissionError(f2, m1)
  {
    assert "value:invalid"[6] != "value:notfound"[6];
    assert "value:invalid"[0] != "permission:forbidden"[0];
    assert "value:notfound"[0] != "permission:forbidden"[0];
  }

  /** Python's `a // b`, rounding toward negative infinity. */
  function FloorDiv(a: int, b: int): int
    requires b != 0
  {
    if b > 0 then a / b else (-a) / (-b)
  }

  /** Python's `a % b`, carrying the sign of `b`. */
  function FloorMod(a: int, b: int): int
    requires b != 0
  {
    a - b * FloorDiv(a, b)
  }

  /** Both operators agree with their definition: `a == b * (a // b) + a % b`
      with the remainder between 0 and `b`, on `b`'s side of 0. */
  lemma FloorDivMod(a: int, b: int)
    requires b != 0
    ensures a == b * FloorDiv(a, b) + FloorMod(a, b)
    ensures b > 0 ==> 0 <= FloorMod(a, b) < b
    ensures b < 0 ==> b < FloorMod(a, b) <= 0
  {
    if b < 0 {
      var q := (-a) / (-b);
      assert -a == (-b) * q + (-a) % (-b);
    }
  }

  datatype PageError = ZeroDivision

  datatype Page = Page(
    itemCount: int,
    pageSize: int,
    pageCount: int,
    pageIndex: int,
    offset: int,
    limit: int,
    hasNext: bool,
    hasPrevious: bool)

  /** `Page(item_count, page_index=1, page_size=10)`; a zero page size makes
      the page-count division raise. */
  function MakePage(itemCount: int, pageIndex: int := 1, pageSize: int := 10): (r: Result<Page, PageError>)
    ensures r.Err? <==> pageSize == 0
  {
    if pageSize == 0 then Err(ZeroDivision)
    else
      var pageCount := FloorDiv(itemCount, pageSize) + (if FloorMod(itemCount, pageSize) > 0 then 1 else 0);
      var clamped := itemCount == 0 || pageIndex > pageCount;
      var index := if clamped then 1 else pageIndex;
      var offset := if clamped then 0 else pageSize * (pageIndex - 1);
      var limit := if clamped then 0 else pageSize;
      Ok(Page(itemCount, pageSize, pageCount, index, offset, limit, index < pageCount, index > 1))
  }

  /** With a positive page size the page count is the item count divided by
      the page size, rounded up: the smallest count of pages that holds all
      the items. */
  lemma PageCountCeiling(itemCount: int, pageIndex: int, pageSize: int)
    requires pageSize > 0
    ensures var p := MakePage(itemCount, pageIndex, pageSize).value;
      && p.pageCount * pageSize >= itemCount
      && (p.pageCount - 1) * pageSize < itemCount
  {
    FloorDivMod(itemCount, pageSize);
  }

  /** No items, or an index past the last page: the first page, empty. */
  lemma PageClamped(itemCount: int, pageIndex: int, pageSize: int)
    requires pageSize != 0
    requires itemCount == 0 || pageIndex > MakePage(itemCount, pageIndex, pageSize).value.pageCount
    ensures var p := MakePage(itemCount, pageIndex, pageSize).value;
      p.offset == 0 && p.limit == 0 && p.pageIndex == 1
  {
  }

  /** Otherwise the index is kept (even one below 1, giving a negative
      offset), the offset skips the earlier pages and the limit is the size. */
  lemma PageKept(itemCount: int, pageIndex: int, pageSize: int)
    requires pageSize != 0
    requires itemCount != 0 && pageIndex <= MakePage(itemCount, pageIndex, pageSize).value.pageCount
    ensures var p := MakePage(itemCount, pageIndex, pageSize).value;
      p.pageIndex == pageIndex && p.offset == pageSize * (pageIndex - 1) && p.limit == pageSize
  {
  }

  /** A page within range starts at an existing item. */
  lemma OffsetInRange(itemCount: int, pageIndex: int, pageSize: int)
    requires pageSize > 0 && itemCount > 0
    requires 1 <= pageIndex <= MakePage(itemCount, pageIndex, pageSize).value.pageCount
    ensures var p := MakePage(itemCount, pageIndex, pageSize).value;
      0 <= p.offset < itemCount
  {
    var p := MakePage(itemCount, pageIndex, pageSize).value;
    PageCountCeiling(itemCount, pageIndex, pageSize);
    assert p.offset == pageSize * (pageIndex - 1);
    assert pageSize * (pageIndex - 1) <= pageSize * (p.pageCount - 1) by {
      MulMonotone(pageSize, pageIndex - 1, p.pageCount - 1);
    }
  }

  lemma MulMonotone(k: int, a: int, b: int)
    requires k > 0 && a <= b
    ensures k * a <= k * b
  {
  }

  /** `Page(n)`: pages of ten; with items, the first page, starting at the
      first item and holding up to ten of them. */
  lemma DefaultPage(itemCount: int)
    ensures MakePage(itemCount).Ok?
    ensures var p := MakePage(itemCount).value;
      && p.pageSize == 10
      && (itemCount > 0 ==> p.pageIndex == 1 && p.offset == 0 && p.limit == 10)
      && (itemCount <= 0 ==> p.pageIndex == 1 && p.offset == 0 && p.limit == 0)
  {
    FloorDivMod(itemCount, 10);
  }

  /** There is a next page exactly when the (final) index is below the page
      count, a previous one exactly when it is above 1; an empty result set
      has neither. */
  lemma PageNavigation(itemCount: int, pageIndex: int, pageSize: int)
    requires pageSize != 0
    ensures var p := MakePage(itemCount, pageIndex, pageSize).value;
      && (p.hasNext <==> p.pageIndex < p.pageCount)
      && (p.hasPrevious <==> p.pageIndex > 1)
      && (itemCount == 0 ==> !p.hasNext && !p.hasPrevious && p.pageCount == 0)
  {
    FloorDivMod(itemCount, pageSize);
  }
}
