/**
 * The audit trail and the notification feed: newest entry first, each capped
 * (500 audit entries, 50 notifications) by dropping the oldest.
 */
module Journal {
  import Text
  import Clock
  import Orders

  const NotificationCap: nat := 50
  const AuditCap: nat := 500

  datatype NoteKind = StockAdd | Alert | Info

  datatype Notification = Notification(id: string, title: string, message: string, timestamp: string,
                                       read: bool, kind: NoteKind)

  /**
   * The `details` of an audit entry.  Text built only from strings and whole
   * numbers is kept as text; an entry whose text would render a money total
   * or a JSON dump keeps the values it is rendered from.
   */
  datatype Detail =
    | Plain(text: string)
    | ProductChanges(productId: string, updates: Orders.ProductPatch)
    | Settled(orderId: string, currency: string, total: real)
    | CounterSale(currency: string, total: real)

  datatype AuditEntry = AuditEntry(id: string, userId: string, userName: string, action: string,
                                   details: Detail, timestamp: string)

  /** `[entry, ...log].slice(0, cap)` */
  function Pushed<T>(log: seq<T>, entry: T, cap: nat): (r: seq<T>)
    ensures |r| == if |log| + 1 <= cap then |log| + 1 else cap
    ensures cap > 0 ==> r[0] == entry
    ensures forall i :: 1 <= i < |r| ==> r[i] == log[i - 1]
  {
    ([entry] + log)[..if |log| + 1 <= cap then |log| + 1 else cap]
  }

  /** `addNotification`'s new entry: id `NT-<millis>`, unread. */
  function NewNotification(title: string, message: string, kind: NoteKind, now: Clock.Instant): (n: Notification)
    ensures n.id == "NT-" + Text.NatText(now.millis)
    ensures n.title == title && n.message == message && n.kind == kind
    ensures !n.read && n.timestamp == now.iso
  {
    Notification("NT-" + Text.NatText(now.millis), title, message, now.iso, false, kind)
  }

  /** `addAudit`'s new entry: id `AU-<millis>`. */
  function NewAudit(userId: string, userName: string, action: string, details: Detail, now: Clock.Instant): (a: AuditEntry)
    ensures a.id == "AU-" + Text.NatText(now.millis)
    ensures a.userId == userId && a.userName == userName && a.action == action && a.details == details
    ensures a.timestamp == now.iso
  {
    AuditEntry("AU-" + Text.NatText(now.millis), userId, userName, action, details, now.iso)
  }

  /** `markNotificationsRead`'s map. */
  function AllRead(ns: seq<Notification>): (r: seq<Notification>)
    ensures |r| == |ns|
    ensures forall i :: 0 <= i < |ns| ==> r[i] == ns[i].(read := true)
  {
    seq(|ns|, i requires 0 <= i < |ns| => ns[i].(read := true))
  }

  /** A log pushed to stays within its cap once it is within it. */
  lemma PushedWithinCap<T>(log: seq<T>, entry: T, cap: nat)
    requires |log| <= cap
    ensures |Pushed(log, entry, cap)| <= cap
    ensures cap > 0 && |log| < cap ==> Pushed(log, entry, cap) == [entry] + log
  {
  }

  /** Two entries pushed in turn come out newest first, followed by the old log. */
  lemma {:induction false} PushedTwice<T>(log: seq<T>, first: T, second: T, cap: nat)
    requires cap >= 2
    ensures var r := Pushed(Pushed(log, first, cap), second, cap);
      r[0] == second && r[1] == first && forall i :: 2 <= i < |r| ==> r[i] == log[i - 2]
  {
    var p := Pushed(log, first, cap);
    var r := Pushed(p, second, cap);
    assert |p| >= 1;
    assert r[1] == p[0];
  }

  /** Marking everything read twice is marking it once. */
  lemma AllReadIdempotent(ns: seq<Notification>)
    ensures AllRead(AllRead(ns)) == AllRead(ns)
  {
  }
}
