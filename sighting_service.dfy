/** internal/service/sighting.go: reporting a sighting (the proximity check, the
    reporter's id, the insert and the e-mail fan-out) and the listing
    pass-through.

    The request context is the `userID` value the auth middleware stores: `None`
    when there is none, in which case the type assertion `.(string)` panics. The
    database's answers and faults, the PostGIS distance, RFC 3339 parsing and UUID
    parsing come in as parameters. */
module SightingService {
  import opened Wrappers
  import opened GoErrors
  import opened Models
  import opened SightingRepository
  import opened NotificationWorker

  const DefaultSightingRangeInMeters: nat := 5000

  datatype ReportSightingReq = ReportSightingReq(
    tigerId: nat,
    lat: real,
    lon: real,
    timestamp: string,
    imageUrl: string)

  /** How a call ends: a nil error, a returned error, or a panic. */
  datatype Outcome = Succeeded | Failed(err: GoError) | Panicked

  /** The behaviour of code outside the core: PostGIS's distance test,
      `time.Parse(time.RFC3339, _)` and `uuid.Parse`. */
  datatype Foreign = Foreign(
    within: WithinRadius,
    parseTime: string -> Option<Time>,
    parseUuid: string -> Option<Uuid>)

  /** The error, if any, each database call answers with: the count query, the
      insert and the notifier's fetch. */
  datatype Faults = Faults(count: Option<GoError>, insert: Option<GoError>, fetch: Option<GoError>)

  /** The outcome of a report together with the table and the queue after it. */
  datatype Effect = Effect(outcome: Outcome, rows: seq<Sighting>, sent: seq<Notification>)

  /** The options the proximity check queries with. */
  function CountOpts(req: ReportSightingReq): GetSightingOpts {
    GetSightingOpts(req.tigerId, req.lat, req.lon, DefaultSightingRangeInMeters, 0, 0)
  }

  /** The row a report stores: the request's fields, the reporter from the
      context and the parsed time, or Go's zero time when parsing failed. */
  function NewSighting(req: ReportSightingReq, reporter: Uuid, parseTime: string -> Option<Time>): Sighting {
    var ts := parseTime(req.timestamp);
    Sighting(req.tigerId, reporter, req.lat, req.lon, if ts.Some? then ts.value else ZeroTime, req.imageUrl)
  }

  /** What `ReportSighting` does to the table `rows` and the queue `sent`, step by
      step as the service runs. */
  function ReportEffect(rows: seq<Sighting>, sent: seq<Notification>, ctxUser: Option<string>,
                        req: ReportSightingReq, foreign: Foreign, faults: Faults): Effect
  {
    if faults.count.Some? then
      Effect(Failed(Plain("error while checking existing sightings")), rows, sent)
    else if CountInRange(rows, req.tigerId, Point(req.lat, req.lon), foreign.within) > 0 then
      Effect(Failed(Plain("sighting already exists in range")), rows, sent)
    else if ctxUser.None? then
      Effect(Panicked, rows, sent)
    else if foreign.parseUuid(ctxUser.value).None? then
      Effect(Failed(Plain("error while fetching user id from context")), rows, sent)
    else if faults.insert.Some? then
      Effect(Failed(faults.insert.value), rows, sent)
    else
      var after := rows + [NewSighting(req, foreign.parseUuid(ctxUser.value).value, foreign.parseTime)];
      if faults.fetch.Some? then
        Effect(Failed(Plain("error while checking existing sightings")), after, sent)
      else
        Effect(Succeeded, after, sent + FanOut(Query(after, TigerOnly(req.tigerId)), ctxUser.value, req.tigerId))
  }

  class SightingService {
    const repo: SightingTable
    const notifier: SightingEmailNotifier

    /** The service and its notifier share one table, as both repositories are
        opened on the one database. */
    constructor (repo: SightingTable, queue: NotificationQueue)
      ensures this.repo == repo && notifier.repo == repo && notifier.queue == queue
    {
      this.repo := repo;
      this.notifier := new SightingEmailNotifier(repo, queue);
    }

    method ReportSighting(ctxUser: Option<string>, req: ReportSightingReq, foreign: Foreign, faults: Faults)
      returns (outcome: Outcome)
      requires notifier.repo == repo
      modifies repo, notifier.queue
      ensures ReportEffect(old(repo.rows), old(notifier.queue.sent), ctxUser, req, foreign, faults)
              == Effect(outcome, repo.rows, notifier.queue.sent)
    {
      var counted := repo.GetSightingsCountInRange(CountOpts(req), foreign.within, faults.count);
      if counted.1.Some? {
        return Failed(Plain("error while checking existing sightings"));
      }
      if counted.0 > 0 {
        return Failed(Plain("sighting already exists in range"));
      }
      if ctxUser.None? {
        return Panicked;
      }
      var userId := foreign.parseUuid(ctxUser.value);
      if userId.None? {
        return Failed(Plain("error while fetching user id from context"));
      }
      var sighting := NewSighting(req, userId.value, foreign.parseTime);
      var insertErr := repo.ReportSighting(sighting, faults.insert);
      if insertErr.Some? {
        return Failed(insertErr.value);
      }
      var notifyErr := notifier.ReportSightingToAllUsers(ctxUser.value, req.tigerId, faults.fetch);
      if notifyErr.Some? {
        return Failed(Plain("error while checking existing sightings"));
      }
      return Succeeded;
    }

    /** The listing, passed through from the repository with its error. */
    function GetSightings(opts: GetSightingOpts, fault: Option<GoError>): (r: Result<seq<Sighting>, GoError>)
      reads repo
      ensures r == repo.GetSightings(opts, fault)
      ensures fault.Some? ==> r == Err(fault.value)
      ensures fault.None? ==> r.Ok? && Ordering.SortedDesc(r.value, SightingTimestamp)
      ensures fault.None? ==> forall s | s in r.value :: MatchesTiger(s, opts.tigerId) && s in repo.rows
    {
      var r := repo.GetSightings(opts, fault);
      QueryShape(repo.rows, opts);
      r
    }
  }

  /** A report turned away by the proximity check (its query failing, or a
      sighting of the tiger already stored within range) returns its error before
      the context is looked at, and changes neither the table nor the queue. */
  lemma RejectedChangesNothing(rows: seq<Sighting>, sent: seq<Notification>, ctxUser: Option<string>,
                               req: ReportSightingReq, foreign: Foreign, faults: Faults)
    requires faults.count.Some? || exists i :: 0 <= i < |rows| && InRange(rows[i], req.tigerId, Point(req.lat, req.lon), foreign.within)
    ensures var e := ReportEffect(rows, sent, ctxUser, req, foreign, faults);
            e.rows == rows && e.sent == sent
            && e.outcome == Failed(Plain(if faults.count.Some? then "error while checking existing sightings"
                                         else "sighting already exists in range"))
  {
    CountInRangePositiveIff(rows, req.tigerId, Point(req.lat, req.lon), foreign.within);
  }

  /** Every failure other than the notifier's, and the panic, leave the table and
      the queue as they were. */
  lemma FailureBeforeInsertChangesNothing(rows: seq<Sighting>, sent: seq<Notification>, ctxUser: Option<string>,
                                          req: ReportSightingReq, foreign: Foreign, faults: Faults)
    requires faults.fetch.None?
    ensures var e := ReportEffect(rows, sent, ctxUser, req, foreign, faults);
            e.outcome != Succeeded ==> e.rows == rows && e.sent == sent
  {
  }

  /** A context user id that is not a UUID fails the report, whatever else. */
  lemma BadUserIdRejected(rows: seq<Sighting>, sent: seq<Notification>, ctx: string,
                          req: ReportSightingReq, foreign: Foreign, faults: Faults)
    requires foreign.parseUuid(ctx).None?
    ensures var e := ReportEffect(rows, sent, Some(ctx), req, foreign, faults);
            e.rows == rows && e.sent == sent && e.outcome.Failed?
            && e.outcome.err in {Plain("error while checking existing sightings"),
                                 Plain("sighting already exists in range"),
                                 Plain("error while fetching user id from context")}
  {
  }

  /** Once past the checks, the insert's error is returned as it is and nothing
      is sent. */
  lemma InsertErrorReturnedUnchanged(rows: seq<Sighting>, sent: seq<Notification>, ctx: string,
                                     req: ReportSightingReq, foreign: Foreign, faults: Faults)
    requires faults.count.None? && CountInRange(rows, req.tigerId, Point(req.lat, req.lon), foreign.within) == 0
    requires foreign.parseUuid(ctx).Some? && faults.insert.Some?
    ensures ReportEffect(rows, sent, Some(ctx), req, foreign, faults) == Effect(Failed(faults.insert.value), rows, sent)
  {
  }

  /** A report that gets past the checks and is stored adds exactly one row,
      carrying the request's tiger, position and image, the context's user and
      the parsed time (the zero time for a malformed one). This holds whether or
      not the notifier then fails: there is no rollback. */
  lemma StoredReportAddsOneRow(rows: seq<Sighting>, sent: seq<Notification>, ctx: string,
                               req: ReportSightingReq, foreign: Foreign, faults: Faults)
    requires faults.count.None? && CountInRange(rows, req.tigerId, Point(req.lat, req.lon), foreign.within) == 0
    requires foreign.parseUuid(ctx).Some? && faults.insert.None?
    ensures var e := ReportEffect(rows, sent, Some(ctx), req, foreign, faults);
            |e.rows| == |rows| + 1 && e.rows[..|rows|] == rows
            && e.rows[|rows|].tigerId == req.tigerId
            && e.rows[|rows|].reportedByUserId == foreign.parseUuid(ctx).value
            && e.rows[|rows|].lat == req.lat && e.rows[|rows|].lon == req.lon
            && e.rows[|rows|].imageUrl == req.imageUrl
            && e.rows[|rows|].timestamp == (if foreign.parseTime(req.timestamp).Some? then foreign.parseTime(req.timestamp).value else ZeroTime)
    ensures var e := ReportEffect(rows, sent, Some(ctx), req, foreign, faults);
            faults.fetch.Some? ==> e.outcome == Failed(Plain("error while checking existing sightings")) && e.sent == sent
    ensures var e := ReportEffect(rows, sent, Some(ctx), req, foreign, faults);
            faults.fetch.None? ==> e.outcome == Succeeded
  {
    var e := ReportEffect(rows, sent, Some(ctx), req, foreign, faults);
    assert e.rows == rows + [NewSighting(req, foreign.parseUuid(ctx).value, foreign.parseTime)];
    assert e.rows[..|rows|] == rows;
  }

  /** Whatever a report sends goes to someone other than the reporter, as long as
      the context's text is the canonical spelling of the id it parses to (as the
      auth middleware writes it). */
  lemma ReporterNeverNotified(rows: seq<Sighting>, sent: seq<Notification>, ctx: string,
                              req: ReportSightingReq, foreign: Foreign, faults: Faults)
    requires foreign.parseUuid(ctx).Some? ==> foreign.parseUuid(ctx).value.canonical == ctx
    ensures var e := ReportEffect(rows, sent, Some(ctx), req, foreign, faults);
            |sent| <= |e.sent| && e.sent[..|sent|] == sent
            && forall k :: |sent| <= k < |e.sent| ==>
                 e.sent[k].userId != foreign.parseUuid(ctx).value
                 && e.sent[k] == SightingNotification(e.sent[k].userId, req.tigerId)
  {
    var e := ReportEffect(rows, sent, Some(ctx), req, foreign, faults);
    if e.outcome == Succeeded {
      var after := rows + [NewSighting(req, foreign.parseUuid(ctx).value, foreign.parseTime)];
      var added := FanOut(Query(after, TigerOnly(req.tigerId)), ctx, req.tigerId);
      assert e.sent == sent + added;
      FanOutSkipsCurrentUser(Query(after, TigerOnly(req.tigerId)), ctx, req.tigerId);
      forall k | |sent| <= k < |e.sent|
        ensures e.sent[k].userId != foreign.parseUuid(ctx).value
                && e.sent[k] == SightingNotification(e.sent[k].userId, req.tigerId)
      {
        assert e.sent[k] == added[k - |sent|];
        assert added[k - |sent|] in added;
      }
    }
  }

  /** After a successful report every user other than the reporter is notified
      once per row of the tiger they reported, the new row included, and the
      reporter not at all. */
  lemma NotificationsPerUser(rows: seq<Sighting>, sent: seq<Notification>, ctx: string,
                             req: ReportSightingReq, foreign: Foreign, faults: Faults, v: Uuid)
    requires ReportEffect(rows, sent, Some(ctx), req, foreign, faults).outcome == Succeeded
    ensures var e := ReportEffect(rows, sent, Some(ctx), req, foreign, faults);
            multiset(Recipients(e.sent))[v]
            == multiset(Recipients(sent))[v]
               + if v.canonical == ctx then 0 else multiset(Reporters(FilterTiger(e.rows, req.tigerId)))[v]
  {
    var e := ReportEffect(rows, sent, Some(ctx), req, foreign, faults);
    var fetched := Query(e.rows, TigerOnly(req.tigerId));
    var added := FanOut(fetched, ctx, req.tigerId);
    assert e.sent == sent + added;
    RecipientsAppend(sent, added);
    FanOutRecipients(fetched, ctx, req.tigerId, v);
    QueryUnpagedIsAllOfTiger(e.rows, TigerOnly(req.tigerId));
    ReportersOfPermutation(fetched, FilterTiger(e.rows, req.tigerId));
  }
}
