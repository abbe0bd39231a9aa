/** Notifications: read back newest first, and marked read in bulk. */
module NotificationController {
  import opened Base
  import opened Seqs
  import opened Database

  /** `GET /notifications`: the signed-in user's notifications, newest first. */
  function GetNotifications(db: Store, me: Session): (r: Reply<seq<Notification>>)
    reads db
    requires db.Valid()
    ensures r.Ok? && r.status == 200
    ensures forall n :: n in r.value <==> n in db.notifications && n.userId == me.id
    ensures Descending(r.value, NotificationTime)
  {
    var mine := (n: Notification) => n.userId == me.id;
    var found := Filter(db.notifications, mine);
    FilterAscending(db.notifications, mine, NotificationTime);
    ReverseDescending(found, NotificationTime);
    assert forall n :: n in Reverse(found) <==> n in found by {
      forall n { ReverseMembers(found, n); }
    }
    Ok(200, Reverse(found))
  }

  /** `updateMany({ where: { userId, isRead: false }, data: { isRead: true } })`.
      Afterwards every notification of the user is read; no row is added or dropped,
      other users' rows are untouched, and no field but `isRead` changes. */
  function MarkedRead(s: seq<Notification>, userId: Id): (r: seq<Notification>)
    ensures |r| == |s|
    ensures forall i :: 0 <= i < |s| ==> r[i] == s[i].(isRead := r[i].isRead)
    ensures forall i :: 0 <= i < |s| ==> (r[i].isRead <==> s[i].isRead || s[i].userId == userId)
    ensures forall i :: 0 <= i < |s| && s[i].userId != userId ==> r[i] == s[i]
  {
    seq(|s|, i requires 0 <= i < |s| =>
      if s[i].userId == userId && !s[i].isRead then s[i].(isRead := true) else s[i])
  }

  /** Marking twice is the same as marking once. */
  lemma MarkedReadIdempotent(s: seq<Notification>, userId: Id)
    ensures MarkedRead(MarkedRead(s, userId), userId) == MarkedRead(s, userId)
  {
  }

  /** `POST /notifications/mark-as-read`: always succeeds. */
  method MarkNotificationsAsRead(db: Store, me: Session) returns (r: Reply<string>)
    requires db.Valid()
    modifies db
    ensures db.Valid()
    ensures r == Ok(200, "Notifications marked as read")
    ensures db.State() == old(db.State()).(notifications := MarkedRead(old(db.notifications), me.id))
  {
    var marked := MarkedRead(db.notifications, me.id);
    assert forall i :: 0 <= i < |marked| ==> NotificationTime(marked[i]) == NotificationTime(db.notifications[i]);
    assert forall i :: 0 <= i < |marked| ==> NotificationKey(marked[i]) == NotificationKey(db.notifications[i]);
    db.notifications := marked;
    r := Ok(200, "Notifications marked as read");
  }
}
