/** internal/handler/tiger.go: creating a tiger and listing tigers a page at a
    time. The tiger service in between only passes the calls and their errors
    through to the repository, so the handlers here call the table directly.
    Decoding the JSON body is outside the model: the decoded tiger, or `None`
    when decoding failed, is a parameter. */
module TigerHandler {
  import opened Wrappers
  import opened GoErrors
  import opened Models
  import opened WebError
  import opened TigerRepository
  import opened Paging
  import opened Decimal
  import Ordering

  /** The body of a successful listing: `{tigers, page, per_page}`. */
  datatype TigerPage = TigerPage(tigers: seq<Tiger>, page: int, perPage: int)

  /** `ListTigers` over the stored tigers `rows`, the URL's query and the
      database's fault. */
  function ListTigersResult(rows: seq<Tiger>, query: map<string, seq<string>>, fault: Option<GoError>)
    : (r: Result<TigerPage, CustomError>)
    ensures !PositiveInt(QueryGet(query, "page")) ==> r == Err(ErrBadRequest(InvalidPage))
    ensures PositiveInt(QueryGet(query, "page")) && !PositiveInt(QueryGet(query, "per_page"))
            ==> r == Err(ErrBadRequest(InvalidPerPage))
    ensures PositiveInt(QueryGet(query, "page")) && PositiveInt(QueryGet(query, "per_page")) && fault.Some?
            ==> r == Err(ErrInternalServerError("Error while fetching tigers : " + Text(fault.value)))
    ensures r.Ok? <==> PositiveInt(QueryGet(query, "page")) && PositiveInt(QueryGet(query, "per_page")) && fault.None?
    ensures r.Ok? ==> fault.None? && r.value.page == Atoi(QueryGet(query, "page")).value
                      && r.value.perPage == Atoi(QueryGet(query, "per_page")).value
                      && r.value.tigers == Ordering.Window(Ordering.SortDesc(rows, TigerLastSeen),
                                                           (r.value.page - 1) * r.value.perPage, r.value.perPage)
                      && |r.value.tigers| <= r.value.perPage
  {
    var validated := ValidatePagination(QueryGet(query, "page"), QueryGet(query, "per_page"));
    if validated.Err? then
      Err(ErrBadRequest(validated.error))
    else
      var (page, perPage) := validated.value;
      var opts := ListTigersOpts(perPage, PageOffset(page, perPage));
      if fault.Some? then
        Err(ErrInternalServerError("Error while fetching tigers : " + Text(fault.value)))
      else
        Ok(TigerPage(ListQuery(rows, opts), page, perPage))
  }

  /** Wherever `(page - 1) * per_page` fits in Go's `int`, the listing is the
      page at the offset as the handler writes it. */
  lemma ListTigersAtWrittenOffset(rows: seq<Tiger>, query: map<string, seq<string>>, fault: Option<GoError>)
    requires ListTigersResult(rows, query, fault).Ok?
    ensures var p := ListTigersResult(rows, query, fault).value;
            (p.page - 1) * p.perPage <= MaxInt64 ==>
              p.tigers == Ordering.Window(Ordering.SortDesc(rows, TigerLastSeen),
                                          PageOffsetAsWritten(p.page, p.perPage), p.perPage)
  {
    var p := ListTigersResult(rows, query, fault).value;
    if (p.page - 1) * p.perPage <= MaxInt64 {
      OffsetsAgreeInRange(p.page, p.perPage);
    }
  }

  class TigerHandler {
    const table: TigerTable

    constructor (table: TigerTable)
      ensures this.table == table
    {
      this.table := table;
    }

    function ListTigers(query: map<string, seq<string>>, fault: Option<GoError>): (r: Result<TigerPage, CustomError>)
      reads table
      ensures r == ListTigersResult(table.rows, query, fault)
      ensures r.Ok? ==> forall t | t in r.value.tigers :: t in table.rows
    {
      var r := ListTigersResult(table.rows, query, fault);
      assert r.Ok? ==> r.value.tigers == table.GetTigers(ListTigersOpts(r.value.perPage, (r.value.page - 1) * r.value.perPage), None).value;
      r
    }

    /** `CreateTiger`: a body that does not decode is a bad request; a failed
        insert is an internal error quoting the database's error; otherwise the
        tiger is stored and echoed back as the insert wrote it back, with its
        key and its `created_at`/`updated_at` set. */
    method CreateTiger(decoded: Option<Tiger>, assignedId: nat, now: Time, fault: Option<GoError>)
      returns (r: Result<Tiger, CustomError>)
      modifies table
      ensures decoded.None? ==> r == Err(ErrBadRequest("Failed to decode request body")) && table.rows == old(table.rows)
      ensures decoded.Some? && fault.Some?
              ==> r == Err(ErrInternalServerError("error while saving tiger : " + Text(fault.value)))
                  && table.rows == old(table.rows)
      ensures decoded.Some? && fault.None?
              ==> r == Ok(Created(decoded.value, assignedId, now)) && table.rows == old(table.rows) + [r.value]
    {
      if decoded.None? {
        return Err(ErrBadRequest("Failed to decode request body"));
      }
      var saved, err := table.SaveTiger(decoded.value, assignedId, now, fault);
      if err.Some? {
        return Err(ErrInternalServerError("error while saving tiger : " + Text(err.value)));
      }
      return Ok(saved);
    }
  }

  /** Asking for pages 1, 2, ... of the same size lists every tiger exactly
      once, most recently seen first, with nothing skipped or repeated. */
  lemma {:induction false} ListingPagesTile(rows: seq<Tiger>, perPage: int, k: nat)
    requires perPage >= 1
    ensures Ordering.FirstPages(Ordering.SortDesc(rows, TigerLastSeen), perPage, k)
            == Ordering.SortDesc(rows, TigerLastSeen)[..Min(k * perPage, |rows|)]
    ensures multiset(Ordering.SortDesc(rows, TigerLastSeen)) == multiset(rows)
  {
    ExactPagesTile(Ordering.SortDesc(rows, TigerLastSeen), perPage, k);
  }
}
