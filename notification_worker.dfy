/** cmd/notification_worker: the email fan-out for a reported sighting.

    The process-wide `notificationQueue` channel is modelled by everything ever
    sent on it, in the order of sending. The goroutine started per recipient and
    the wait group around it are concurrency; here each send happens in turn, in
    the order of the fetched rows. */
module NotificationWorker {
  import opened Wrappers
  import opened GoErrors
  import opened Models
  import opened SightingRepository

  const EmailNotificationSubjectTigerSighting: string := "Tiger Sighting Email"

  /** The payload. The notifier fills in the tiger only; `UserID` stays zero. */
  datatype TigerSightingEmail = TigerSightingEmail(userId: nat, tigerId: nat)

  datatype Notification = Notification(subject: string, userId: Uuid, data: TigerSightingEmail)

  /** The notification `Process` builds for one recipient. */
  function SightingNotification(recipient: Uuid, tigerId: nat): Notification {
    Notification(EmailNotificationSubjectTigerSighting, recipient, TigerSightingEmail(0, tigerId))
  }

  /** What the fan-out sends for `rows`: one notification per row, in row order,
      skipping every row whose reporter's text equals the current user's. */
  function FanOut(rows: seq<Sighting>, currentUser: string, tigerId: nat): (sent: seq<Notification>)
    ensures |sent| <= |rows|
  {
    if rows == [] then
      []
    else
      var last := rows[|rows| - 1];
      FanOut(rows[..|rows| - 1], currentUser, tigerId)
      + (if last.reportedByUserId.canonical == currentUser then [] else [SightingNotification(last.reportedByUserId, tigerId)])
  }

  /** Every notification the fan-out sends is the sighting e-mail for the tiger,
      and none goes to the current user. */
  lemma {:induction false} FanOutSkipsCurrentUser(rows: seq<Sighting>, currentUser: string, tigerId: nat)
    ensures forall n | n in FanOut(rows, currentUser, tigerId) ::
              n.userId.canonical != currentUser && n == SightingNotification(n.userId, tigerId)
  {
    if rows != [] {
      FanOutSkipsCurrentUser(rows[..|rows| - 1], currentUser, tigerId);
    }
  }

  lemma FanOutSnoc(rows: seq<Sighting>, s: Sighting, currentUser: string, tigerId: nat)
    ensures FanOut(rows + [s], currentUser, tigerId)
            == FanOut(rows, currentUser, tigerId)
               + (if s.reportedByUserId.canonical == currentUser then [] else [SightingNotification(s.reportedByUserId, tigerId)])
  {
    assert (rows + [s])[..|rows|] == rows;
  }

  /** The reporter of each row, in row order. */
  function Reporters(rows: seq<Sighting>): (r: seq<Uuid>)
    ensures |r| == |rows|
  {
    seq(|rows|, i requires 0 <= i < |rows| => rows[i].reportedByUserId)
  }

  /** The addressee of each notification, in sending order. */
  function Recipients(sent: seq<Notification>): (r: seq<Uuid>)
    ensures |r| == |sent|
  {
    seq(|sent|, i requires 0 <= i < |sent| => sent[i].userId)
  }

  lemma RecipientsAppend(a: seq<Notification>, b: seq<Notification>)
    ensures Recipients(a + b) == Recipients(a) + Recipients(b)
  {
  }

  /** One more row adds its reporter to the reporters, and to the recipients
      unless it is the current user. */
  lemma FanOutRecipientsSnoc(rows: seq<Sighting>, currentUser: string, tigerId: nat)
    requires rows != []
    ensures var init, u := rows[..|rows| - 1], rows[|rows| - 1].reportedByUserId;
            Recipients(FanOut(rows, currentUser, tigerId))
              == Recipients(FanOut(init, currentUser, tigerId)) + (if u.canonical == currentUser then [] else [u])
            && Reporters(rows) == Reporters(init) + [u]
  {
    var init, last := rows[..|rows| - 1], rows[|rows| - 1];
    var u := last.reportedByUserId;
    var tail := if u.canonical == currentUser then [] else [SightingNotification(u, tigerId)];
    RecipientsAppend(FanOut(init, currentUser, tigerId), tail);
    assert rows == init + [last];
    ReportersAppend(init, [last]);
  }

  /** Each user other than the current one gets exactly as many notifications as
      there are rows they reported (no de-duplication by recipient); the current
      user gets none. */
  lemma {:induction false} FanOutRecipients(rows: seq<Sighting>, currentUser: string, tigerId: nat, v: Uuid)
    ensures multiset(Recipients(FanOut(rows, currentUser, tigerId)))[v]
            == if v.canonical == currentUser then 0 else multiset(Reporters(rows))[v]
  {
    if rows != [] {
      var init, u := rows[..|rows| - 1], rows[|rows| - 1].reportedByUserId;
      FanOutRecipients(init, currentUser, tigerId, v);
      FanOutRecipientsSnoc(rows, currentUser, tigerId);
      var before := Recipients(FanOut(init, currentUser, tigerId));
      var added: seq<Uuid> := if u.canonical == currentUser then [] else [u];
      assert multiset(before + added)[v] == multiset(before)[v] + multiset(added)[v];
      assert multiset(Reporters(init) + [u])[v] == multiset(Reporters(init))[v] + multiset([u])[v];
    }
  }

  lemma ReportersAppend(a: seq<Sighting>, b: seq<Sighting>)
    ensures Reporters(a + b) == Reporters(a) + Reporters(b)
  {
  }

  /** Taking one row out of a sequence takes its reporter out of the reporters. */
  lemma ReportersRemoveAt(b: seq<Sighting>, i: nat)
    requires i < |b|
    ensures multiset(Reporters(b)) == multiset(Reporters(b[..i] + b[i + 1..])) + multiset{b[i].reportedByUserId}
  {
    var front, back := b[..i], b[i + 1..];
    assert b == (front + [b[i]]) + back;
    ReportersAppend(front + [b[i]], back);
    ReportersAppend(front, [b[i]]);
    ReportersAppend(front, back);
    assert Reporters([b[i]]) == [b[i].reportedByUserId] by {
      assert [b[i]][..0] == [];
    }
    var rf, rb := Reporters(front), Reporters(back);
    assert Reporters(b) == rf + [b[i].reportedByUserId] + rb;
    assert multiset(rf + [b[i].reportedByUserId] + rb) == multiset(rf) + multiset{b[i].reportedByUserId} + multiset(rb);
  }

  lemma RemoveAtMultiset(b: seq<Sighting>, i: nat)
    requires i < |b|
    ensures multiset(b[..i] + b[i + 1..]) == multiset(b) - multiset{b[i]}
  {
    assert b == b[..i] + [b[i]] + b[i + 1..];
  }

  /** Who reported the rows depends only on which rows there are, not on their
      order: the fan-out over the fetched (re-ordered) rows reaches the same
      users as one over the stored rows. */
  lemma {:induction false} ReportersOfPermutation(a: seq<Sighting>, b: seq<Sighting>)
    requires multiset(a) == multiset(b)
    ensures multiset(Reporters(a)) == multiset(Reporters(b))
    decreases |a|
  {
    if a != [] {
      var x := a[|a| - 1];
      var init := a[..|a| - 1];
      assert a == init + [x];
      assert x in multiset(b);
      var i :| 0 <= i < |b| && b[i] == x;
      var rest := b[..i] + b[i + 1..];
      RemoveAtMultiset(b, i);
      assert multiset(init) == multiset(rest);
      ReportersOfPermutation(init, rest);
      ReportersRemoveAt(b, i);
      ReportersAppend(init, [x]);
      var ri := Reporters(init);
      var u := x.reportedByUserId;
      assert Reporters(a) == ri + [u];
      assert multiset(ri + [u]) == multiset(ri) + multiset{u};
    }
  }

  /** The channel, as the sequence of notifications sent on it. */
  class NotificationQueue {
    var sent: seq<Notification>

    constructor ()
      ensures sent == []
    {
      sent := [];
    }

    /** `notificationQueue <- n` */
    method Send(n: Notification)
      modifies this
      ensures sent == old(sent) + [n]
    {
      sent := sent + [n];
    }
  }

  class SightingEmailNotifier {
    const repo: SightingTable
    const queue: NotificationQueue

    constructor (repo: SightingTable, queue: NotificationQueue)
      ensures this.repo == repo && this.queue == queue
    {
      this.repo := repo;
      this.queue := queue;
    }

    /** Builds one notification and puts it on the queue. */
    method Process(userId: Uuid, data: TigerSightingEmail)
      modifies queue
      ensures queue.sent == old(queue.sent) + [Notification(EmailNotificationSubjectTigerSighting, userId, data)]
    {
      var notification := Notification(EmailNotificationSubjectTigerSighting, userId, data);
      queue.Send(notification);
    }

    /** The loop over the fetched rows: one `Process` per row whose reporter is
        not the current user, in row order. */
    method NotifyReporters(rows: seq<Sighting>, currentUser: string, tigerId: nat)
      modifies queue
      ensures queue.sent == old(queue.sent) + FanOut(rows, currentUser, tigerId)
    {
      var email := TigerSightingEmail(0, tigerId);
      var i := 0;
      while i < |rows|
        invariant 0 <= i <= |rows|
        invariant queue.sent == old(queue.sent) + FanOut(rows[..i], currentUser, tigerId)
      {
        var sighting := rows[i];
        assert rows[..i + 1] == rows[..i] + [sighting];
        FanOutSnoc(rows[..i], sighting, currentUser, tigerId);
        if sighting.reportedByUserId.canonical != currentUser {
          Process(sighting.reportedByUserId, email);
        }
        i := i + 1;
      }
      assert rows[..|rows|] == rows;
    }

    /** Fetches every sighting of the tiger (no range, no limit) and notifies the
        reporter of each row not reported by the current user. A failed fetch
        sends nothing; otherwise the result is nil, whoever was notified. */
    method ReportSightingToAllUsers(currentUser: string, tigerId: nat, fetchFault: Option<GoError>)
      returns (err: Option<GoError>)
      modifies queue
      ensures fetchFault.Some? ==> err == Some(Plain("error while fetching existing sightings"))
      ensures fetchFault.Some? ==> queue.sent == old(queue.sent)
      ensures fetchFault.None? ==> err == None
      ensures fetchFault.None? ==> queue.sent == old(queue.sent) + FanOut(Query(repo.rows, TigerOnly(tigerId)), currentUser, tigerId)
    {
      var fetched := repo.GetSightings(TigerOnly(tigerId), fetchFault);
      if fetched.Err? {
        return Some(Plain("error while fetching existing sightings"));
      }
      NotifyReporters(fetched.value, currentUser, tigerId);
      err := None;
    }
  }
}
