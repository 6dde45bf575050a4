/** internal/handler/sighting.go: the two sighting endpoints. They write their
    own replies: `http.Error` (the message and a newline, as plain text) for
    every failure, JSON otherwise. Decoding the JSON body is outside the model:
    the decoded request, or `None` when decoding failed, is a parameter. */
module SightingHandler {
  import opened Wrappers
  import opened GoErrors
  import opened Models
  import opened Decimal
  import opened WebError
  import opened SightingRepository
  import opened NotificationWorker
  import opened SightingService
  import opened Paging
  import Ordering

  /** What the handler writes: an `http.Error` text, the listed sightings, the
      created report echoed back, or nothing because the service panicked. */
  datatype Reply =
    | TextReply(status: int, text: string)
    | SightingsReply(status: int, sightings: seq<Sighting>)
    | CreatedReply(status: int, created: ReportSightingReq)
    | Aborted

  /** `http.Error(w, msg, code)` */
  function HttpError(msg: string, code: int): Reply {
    TextReply(code, msg + "\n")
  }

  const ServiceErrorPrefix: string := "Error while creating req: "

  /** The options a valid listing request queries with: the tiger id as
      `ParseUint` leaves it with its error ignored, a page's worth of rows and
      the rows of the pages before skipped. */
  function ListingOpts(tigerIdStr: string, page: int, perPage: int): (opts: GetSightingOpts)
    requires page >= 1 && perPage >= 1
    ensures opts.limit == perPage && opts.offset >= 0
    ensures (page - 1) * perPage <= MaxInt64 ==> opts.offset == PageOffsetAsWritten(page, perPage)
  {
    assert (page - 1) * perPage <= MaxInt64 ==> PageOffset(page, perPage) == PageOffsetAsWritten(page, perPage) by {
      if (page - 1) * perPage <= MaxInt64 {
        OffsetsAgreeInRange(page, perPage);
      }
    }
    GetSightingOpts(ParseUintIgnoringError(tigerIdStr), 0.0, 0.0, 0, perPage, PageOffset(page, perPage))
  }

  /** `GetSightings` over the stored rows, the `tiger_id` path parameter, the
      URL's query and the database's fault. */
  function GetSightingsReply(rows: seq<Sighting>, tigerIdStr: string, query: map<string, seq<string>>,
                             fault: Option<GoError>): (r: Reply)
    ensures !PositiveInt(QueryGet(query, "page")) ==> r == TextReply(400, InvalidPage + "\n")
    ensures PositiveInt(QueryGet(query, "page")) && !PositiveInt(QueryGet(query, "per_page"))
            ==> r == TextReply(400, InvalidPerPage + "\n")
    ensures PositiveInt(QueryGet(query, "page")) && PositiveInt(QueryGet(query, "per_page")) && fault.Some?
            ==> r == TextReply(400, ServiceErrorPrefix + Text(fault.value) + "\n")
    ensures r.TextReply? ==> r.status == 400
    ensures r.SightingsReply? <==>
              PositiveInt(QueryGet(query, "page")) && PositiveInt(QueryGet(query, "per_page")) && fault.None?
    ensures r.SightingsReply? ==>
              r.status == 200 && fault.None?
              && r.sightings == Query(rows, ListingOpts(tigerIdStr, Atoi(QueryGet(query, "page")).value,
                                                        Atoi(QueryGet(query, "per_page")).value))
  {
    var validated := ValidatePagination(QueryGet(query, "page"), QueryGet(query, "per_page"));
    if validated.Err? then
      HttpError(validated.error, StatusBadRequest)
    else
      var (page, perPage) := validated.value;
      if fault.Some? then
        HttpError(ServiceErrorPrefix + Text(fault.value), StatusBadRequest)
      else
        SightingsReply(StatusOK, Query(rows, ListingOpts(tigerIdStr, page, perPage)))
  }

  /** The reply to a report, given the decoded body and how the service ended. */
  function ReportReply(decoded: Option<ReportSightingReq>, outcome: Outcome): (r: Reply)
    ensures r.CreatedReply? <==> decoded.Some? && outcome == Succeeded
    ensures r.CreatedReply? ==> r.status == 201 && r.created == decoded.value
    ensures r.TextReply? ==> r.status == 400
    ensures r == Aborted <==> decoded.Some? && outcome == Panicked
    ensures decoded.None? ==> r == TextReply(400, "Failed to decode request body\n")
    ensures decoded.Some? && outcome.Failed? ==> r == TextReply(400, ServiceErrorPrefix + Text(outcome.err) + "\n")
  {
    if decoded.None? then
      HttpError("Failed to decode request body", StatusBadRequest)
    else
      match outcome
      case Failed(err) => HttpError(ServiceErrorPrefix + Text(err), StatusBadRequest)
      case Panicked => Aborted
      case Succeeded => CreatedReply(StatusCreated, decoded.value)
  }

  class SightingHandler {
    const service: SightingService

    constructor (service: SightingService)
      ensures this.service == service
    {
      this.service := service;
    }

    function GetSightings(tigerIdStr: string, query: map<string, seq<string>>, fault: Option<GoError>): (r: Reply)
      reads service.repo
      ensures r == GetSightingsReply(service.repo.rows, tigerIdStr, query, fault)
    {
      var validated := ValidatePagination(QueryGet(query, "page"), QueryGet(query, "per_page"));
      if validated.Err? then
        HttpError(validated.error, StatusBadRequest)
      else
        var (page, perPage) := validated.value;
        var fetched := service.GetSightings(ListingOpts(tigerIdStr, page, perPage), fault);
        if fetched.Err? then
          HttpError(ServiceErrorPrefix + Text(fetched.error), StatusBadRequest)
        else
          SightingsReply(StatusOK, fetched.value)
    }

    method ReportSighting(decoded: Option<ReportSightingReq>, ctxUser: Option<string>, foreign: Foreign, faults: Faults)
      returns (reply: Reply)
      requires service.notifier.repo == service.repo
      modifies service.repo, service.notifier.queue
      ensures decoded.None? ==> reply == ReportReply(decoded, Succeeded)
                                && service.repo.rows == old(service.repo.rows)
                                && service.notifier.queue.sent == old(service.notifier.queue.sent)
      ensures decoded.Some? ==>
                var e := ReportEffect(old(service.repo.rows), old(service.notifier.queue.sent), ctxUser, decoded.value, foreign, faults);
                reply == ReportReply(decoded, e.outcome)
                && service.repo.rows == e.rows && service.notifier.queue.sent == e.sent
    {
      if decoded.None? {
        return HttpError("Failed to decode request body", StatusBadRequest);
      }
      var outcome := service.ReportSighting(ctxUser, decoded.value, foreign, faults);
      reply := ReportReply(decoded, outcome);
    }
  }

  /** The tiger filter of a struct condition skips tiger 0, so filtering by it
      keeps every row. */
  lemma {:induction false} FilterTigerZeroKeepsAll(rows: seq<Sighting>)
    ensures FilterTiger(rows, 0) == rows
  {
    if rows != [] {
      FilterTigerZeroKeepsAll(rows[..|rows| - 1]);
      assert rows == rows[..|rows| - 1] + [rows[|rows| - 1]];
    }
  }

  /** A `tiger_id` that is empty or meets a non-digit at position `i` before
      its leading digits pass 2^64-1 ("", "-3", "abc", "12x") is not rejected:
      it reads as tiger 0, and the listing pages through the sightings of every
      tiger. */
  lemma UnparsedTigerIdListsEveryTiger(rows: seq<Sighting>, tigerIdStr: string, i: nat, page: int, perPage: int)
    requires tigerIdStr == []
             || (i < |tigerIdStr| && AllDigits(tigerIdStr[..i]) && !IsDigit(tigerIdStr[i])
                 && DigitsValue(tigerIdStr[..i]) <= MaxUint64)
    requires page >= 1 && perPage >= 1
    ensures ListingOpts(tigerIdStr, page, perPage).tigerId == 0
    ensures Query(rows, ListingOpts(tigerIdStr, page, perPage))
            == Ordering.Window(Ordering.SortDesc(rows, SightingTimestamp), (page - 1) * perPage, perPage)
  {
    if tigerIdStr != [] {
      ParseUintIgnoringErrorAtNonDigit(tigerIdStr, i);
    }
    FilterTigerZeroKeepsAll(rows);
  }

  /** A `tiger_id` of digits lists that tiger's sightings (saturated at
      2^64-1, which matches no stored tiger id the database hands out). */
  lemma DigitTigerIdFiltersByIt(tigerIdStr: string, page: int, perPage: int)
    requires |tigerIdStr| > 0 && AllDigits(tigerIdStr)
    requires page >= 1 && perPage >= 1
    ensures ListingOpts(tigerIdStr, page, perPage).tigerId == Min(DigitsValue(tigerIdStr), MaxUint64)
  {
    ParseUintIgnoringErrorValue(tigerIdStr);
  }
}
