/** The "next page" cursor of paginated listings. */
module Window {
  import opened Wrappers

  /** `calcNextPage(page, pageSize, total)`: the following page number while rows remain. */
  function CalcNextPage(page: int, pageSize: int, total: int): (r: Option<int>)
    ensures r == None || r == Some(page + 1)
    ensures r.Some? <==> page * pageSize < total
  {
    if page * pageSize < total then Some(page + 1) else None
  }

  /** When a next page is announced, it starts before the last row. */
  lemma NextPageStartsInside(page: int, pageSize: int, total: int)
    requires CalcNextPage(page, pageSize, total).Some?
    ensures (CalcNextPage(page, pageSize, total).value - 1) * pageSize < total
  {
  }

  /** With no next page and a positive page size, the pages up to `page` already hold every row. */
  lemma LastPageCoversTotal(page: int, pageSize: int, total: int)
    requires CalcNextPage(page, pageSize, total).None?
    ensures total <= page * pageSize
  {
  }

  /** An empty listing never has a next page. */
  lemma EmptyHasNoNextPage(page: nat, pageSize: nat)
    ensures CalcNextPage(page, pageSize, 0) == None
  {
  }
}
