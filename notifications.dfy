/** The notification centre (packages/apps/src/signer/NotificationCenter.ts):
    a registry of notifications keyed by id, the list of toasts, the toasts
    still on screen, the "1 of N" badge and the drawer's ordering. */
module Notifications {
  import opened Amount

  datatype NotificationType = Progress | Success | Error

  /** A notification as the transaction centre emits it; `timestamp` is in
      milliseconds and `message` an opaque text. */
  datatype Notification = Notification(
    id: string,
    timestamp: int,
    kind: NotificationType,
    message: string,
    toast: bool,
    meta: map<string, string>)

  /** A rendered toast: the notification's id, variant and message, and its
      auto-close delay in milliseconds (0 keeps it open). */
  datatype Toast = Toast(id: string, kind: NotificationType, message: string, timestamp: int, timeout: nat)

  // ----- toasts and the badge -----

  /** Only success toasts close themselves, after five seconds. */
  function Timeout(kind: NotificationType): (r: nat)
    ensures r == 5000 <==> kind == Success
    ensures r != 5000 ==> r == 0
  {
    if kind == Success then 5000 else 0
  }

  /** `toastTemplate`. */
  function ToastOf(n: Notification): (t: Toast)
    ensures t.id == n.id && t.kind == n.kind && t.message == n.message && t.timestamp == n.timestamp
    ensures t.timeout == Timeout(n.kind)
  {
    Toast(n.id, n.kind, n.message, n.timestamp, Timeout(n.kind))
  }

  /** The distinct ids among some toasts. */
  function Ids(toasts: seq<Toast>): set<string>
  {
    set i | 0 <= i < |toasts| :: toasts[i].id
  }

  /** The toasts not carrying `id`, in their order. */
  function WithoutId(toasts: seq<Toast>, id: string): (r: seq<Toast>)
    ensures |r| <= |toasts|
    ensures forall i | 0 <= i < |r| :: r[i].id != id
  {
    if toasts == [] then []
    else if toasts[0].id == id then WithoutId(toasts[1..], id)
    else [toasts[0]] + WithoutId(toasts[1..], id)
  }

  /** Decimal digits of a natural number (`Number.toString`). */
  function NatToString(n: nat): (r: string)
    ensures |r| > 0 && AllDigits(r)
  {
    if n < 10 then [('0' as int + n) as char]
    else NatToString(n / 10) + [('0' as int + n % 10) as char]
  }

  /** The text of every toast's count slot once `count` distinct toasts are mounted. */
  function Badge(count: nat): string
  {
    if count > 1 then "1 of " + NatToString(count) else ""
  }

  // ----- the drawer -----

  /** The stored notifications in the map's insertion order. */
  function Values(order: seq<string>, notifications: map<string, Notification>): (r: seq<Notification>)
    requires forall i | 0 <= i < |order| :: order[i] in notifications
    ensures |r| == |order|
    ensures forall i | 0 <= i < |r| :: r[i] == notifications[order[i]]
  {
    if order == [] then [] else [notifications[order[0]]] + Values(order[1..], notifications)
  }

  /** `filter(n => n.type == progress)` when `progress`, its negation otherwise. */
  function OfGroup(s: seq<Notification>, progress: bool): (r: seq<Notification>)
    ensures forall i | 0 <= i < |r| :: (r[i].kind == Progress) == progress
    ensures multiset(r) <= multiset(s)
  {
    if s == [] then []
    else
      assert s == [s[0]] + s[1..];
      if (s[0].kind == Progress) == progress then [s[0]] + OfGroup(s[1..], progress)
      else OfGroup(s[1..], progress)
  }

  /** Newest first. */
  predicate NewestFirst(s: seq<Notification>)
  {
    forall i, j | 0 <= i < j < |s| :: s[i].timestamp >= s[j].timestamp
  }

  /** Insert `n` into a newest-first list, before the entries no newer than it. */
  function Insert(n: Notification, s: seq<Notification>): (r: seq<Notification>)
    requires NewestFirst(s)
    ensures multiset(r) == multiset(s) + multiset{n}
    ensures NewestFirst(r)
    ensures r[0] == n || (s != [] && r[0] == s[0])
  {
    if s == [] || n.timestamp >= s[0].timestamp then [n] + s
    else
      assert s == [s[0]] + s[1..];
      var rest := Insert(n, s[1..]);
      assert s[0].timestamp >= rest[0].timestamp;
      [s[0]] + rest
  }

  /** `sort((t1, t2) => t2.timestamp - t1.timestamp)`. */
  function SortNewestFirst(s: seq<Notification>): (r: seq<Notification>)
    ensures multiset(r) == multiset(s)
    ensures NewestFirst(r)
  {
    if s == [] then []
    else
      assert s == [s[0]] + s[1..];
      Insert(s[0], SortNewestFirst(s[1..]))
  }

  /** One group of the drawer, newest first. */
  function SortedGroup(all: seq<Notification>, progress: bool): (r: seq<Notification>)
    ensures multiset(r) == multiset(OfGroup(all, progress))
    ensures NewestFirst(r)
    ensures forall i | 0 <= i < |r| :: (r[i].kind == Progress) == progress
  {
    var g := OfGroup(all, progress);
    var r := SortNewestFirst(g);
    assert forall i | 0 <= i < |r| :: r[i] in multiset(g);
    r
  }

  /** The drawer: progress notifications newest first, then the others
      newest first. */
  function Drawer(all: seq<Notification>): seq<Notification>
  {
    SortedGroup(all, true) + SortedGroup(all, false)
  }

  // ----- the centre -----

  class NotificationCenter {
    /** Every toast ever rendered, in order (`toasts`). */
    var toasts: seq<Toast>
    /** The toasts still mounted. */
    var mounted: seq<Toast>
    /** `notifications`, with `order` its insertion order. */
    var notifications: map<string, Notification>
    var order: seq<string>

    /** Every stored notification is filed under its own id, and `order`
        lists each stored id exactly once. */
    predicate Valid()
      reads this
    {
      (forall k | k in notifications :: notifications[k].id == k)
      && (forall i | 0 <= i < |order| :: order[i] in notifications)
      && (forall k | k in notifications :: k in order)
      && (forall i, j | 0 <= i < j < |order| :: order[i] != order[j])
    }

    constructor()
      ensures Valid()
      ensures toasts == [] && mounted == [] && notifications == map[] && order == []
    {
      toasts := [];
      mounted := [];
      notifications := map[];
      order := [];
    }

    /** `appendNewNotification`. */
    method Append(n: Notification)
      requires Valid()
      modifies this
      ensures Valid()
      ensures notifications == old(notifications)[n.id := n]
      ensures order == if n.id in old(notifications) then old(order) else old(order) + [n.id]
      ensures toasts == if n.toast then old(toasts) + [ToastOf(n)] else old(toasts)
      ensures mounted == if n.toast then old(mounted) + [ToastOf(n)] else old(mounted)
    {
      if n.toast {
        var toast := ToastOf(n);
        toasts := toasts + [toast];
        mounted := mounted + [toast];
      }
      if n.id !in notifications {
        order := order + [n.id];
      }
      notifications := notifications[n.id := n];
    }

    /** `closeToast`: unmount every toast carrying `id`. */
    method CloseToast(id: string)
      modifies this
      ensures mounted == WithoutId(old(mounted), id)
      ensures toasts == old(toasts) && notifications == old(notifications) && order == old(order)
    {
      var kept: seq<Toast> := [];
      var i := 0;
      while i < |mounted|
        invariant 0 <= i <= |mounted|
        invariant kept + WithoutId(mounted[i..], id) == WithoutId(mounted, id)
      {
        if mounted[i].id != id {
          kept := kept + [mounted[i]];
        }
        assert mounted[i..] == [mounted[i]] + mounted[i + 1..];
        i := i + 1;
      }
      mounted := kept;
    }

    /** `getToastCount`: the number of distinct ids among the mounted toasts. */
    method ToastCount() returns (count: nat)
      ensures count == |Ids(mounted)|
    {
      var seen: set<string> := {};
      var i := 0;
      while i < |mounted|
        invariant 0 <= i <= |mounted|
        invariant seen == Ids(mounted[..i])
      {
        assert mounted[..i + 1] == mounted[..i] + [mounted[i]];
        seen := seen + {mounted[i].id};
        i := i + 1;
      }
      assert mounted[..i] == mounted;
      count := |seen|;
    }

    /** `updated`: the text of every count slot. */
    method BadgeText() returns (text: string)
      ensures text == Badge(|Ids(mounted)|)
    {
      var count := ToastCount();
      text := if count > 1 then "1 of " + NatToString(count) else "";
    }

    /** `render`'s drawer. */
    function DrawerList(): seq<Notification>
      requires Valid()
      reads this
    {
      Drawer(Values(order, notifications))
    }
  }

  // ----- properties -----

  /** The badge shows exactly when more than one distinct toast is mounted,
      and its number reads back as the count. */
  lemma BadgeExactly(count: nat)
    ensures Badge(count) != "" <==> count > 1
    ensures count > 1 ==> Badge(count)[..5] == "1 of " && DigitsValue(Badge(count)[5..]) == count
  {
    if count > 1 {
      assert Badge(count)[5..] == NatToString(count);
      NatToStringValue(count);
    }
  }

  /** `toString` and the digit reading are inverse. */
  lemma {:induction false} NatToStringValue(n: nat)
    ensures DigitsValue(NatToString(n)) == n
  {
    if n >= 10 {
      var s := NatToString(n);
      assert s[..|s| - 1] == NatToString(n / 10);
      NatToStringValue(n / 10);
    }
  }

  /** A second toast for an id already mounted does not raise the count;
      a toast for a new id raises it by one. */
  lemma CountIsDistinctIds(mounted: seq<Toast>, t: Toast)
    ensures Ids(mounted + [t]) == Ids(mounted) + {t.id}
    ensures t.id in Ids(mounted) ==> |Ids(mounted + [t])| == |Ids(mounted)|
    ensures t.id !in Ids(mounted) ==> |Ids(mounted + [t])| == |Ids(mounted)| + 1
  {
    var s := mounted + [t];
    assert s[|mounted|].id == t.id;
    if t.id in Ids(mounted) {
      assert Ids(mounted) + {t.id} == Ids(mounted);
    }
    forall x | x in Ids(s) ensures x in Ids(mounted) + {t.id} {
      var i :| 0 <= i < |s| && s[i].id == x;
      if i < |mounted| {
        assert mounted[i].id == x;
      }
    }
    forall x | x in Ids(mounted) ensures x in Ids(s) {
      var i :| 0 <= i < |mounted| && mounted[i].id == x;
      assert s[i].id == x;
    }
  }

  /** The ids of a toast followed by some more. */
  lemma IdsCons(t: Toast, toasts: seq<Toast>)
    ensures Ids([t] + toasts) == {t.id} + Ids(toasts)
  {
    var s := [t] + toasts;
    forall x | x in Ids(s) ensures x in {t.id} + Ids(toasts) {
      var i :| 0 <= i < |s| && s[i].id == x;
      if i > 0 {
        assert toasts[i - 1].id == x;
      }
    }
    forall x | x in {t.id} + Ids(toasts) ensures x in Ids(s) {
      if x == t.id {
        assert s[0].id == x;
      } else {
        var i :| 0 <= i < |toasts| && toasts[i].id == x;
        assert s[i + 1].id == x;
      }
    }
  }

  /** Closing a toast removes every toast with that id and keeps all others:
      afterwards its id is gone from the count and no other id is. */
  lemma {:induction false} CloseRemovesAllWithId(toasts: seq<Toast>, id: string)
    ensures Ids(WithoutId(toasts, id)) == Ids(toasts) - {id}
  {
    if toasts != [] {
      CloseRemovesAllWithId(toasts[1..], id);
      assert toasts == [toasts[0]] + toasts[1..];
      IdsCons(toasts[0], toasts[1..]);
      if toasts[0].id != id {
        IdsCons(toasts[0], WithoutId(toasts[1..], id));
      }
    }
  }

  /** The two groups together hold every notification exactly as often as
      the input does. */
  lemma {:induction false} GroupsPartition(s: seq<Notification>)
    ensures multiset(OfGroup(s, true)) + multiset(OfGroup(s, false)) == multiset(s)
  {
    if s != [] {
      GroupsPartition(s[1..]);
      assert s == [s[0]] + s[1..];
    }
  }

  /** All progress notifications come before all others, and each group is
      newest first. */
  predicate DrawerShaped(d: seq<Notification>)
  {
    (forall i, j | 0 <= i < j < |d| :: d[j].kind == Progress ==> d[i].kind == Progress)
    && (forall i, j | 0 <= i < j < |d| && d[i].kind == d[j].kind :: d[i].timestamp >= d[j].timestamp)
  }

  /** Two newest-first lists, the first of progress notifications and the
      second of the others, put one after the other. */
  lemma ConcatOrdering(p: seq<Notification>, q: seq<Notification>)
    requires NewestFirst(p) && NewestFirst(q)
    requires forall i | 0 <= i < |p| :: (p[i].kind == Progress) == true
    requires forall i | 0 <= i < |q| :: (q[i].kind == Progress) == false
    ensures DrawerShaped(p + q)
  {
    var d := p + q;
    forall i, j | 0 <= i < j < |d| && d[i].kind == d[j].kind
      ensures d[i].timestamp >= d[j].timestamp
    {
      if j < |p| {
        assert d[i] == p[i] && d[j] == p[j];
      } else if i >= |p| {
        assert d[i] == q[i - |p|] && d[j] == q[j - |p|];
      }
    }
  }

  /** The drawer lists every notification exactly once, all progress
      notifications before all others, each group newest first. */
  lemma DrawerOrdering(all: seq<Notification>)
    ensures multiset(Drawer(all)) == multiset(all)
    ensures DrawerShaped(Drawer(all))
  {
    var p := SortedGroup(all, true);
    var q := SortedGroup(all, false);
    GroupsPartition(all);
    assert multiset(p + q) == multiset(all);
    ConcatOrdering(p, q);
  }

  /** Given the centre's invariant, the drawer's input holds every stored
      notification, and no notification twice. */
  lemma ValuesEachOnce(order: seq<string>, notifications: map<string, Notification>)
    requires forall k | k in notifications :: notifications[k].id == k
    requires forall i | 0 <= i < |order| :: order[i] in notifications
    requires forall k | k in notifications :: k in order
    requires forall i, j | 0 <= i < j < |order| :: order[i] != order[j]
    ensures var v := Values(order, notifications);
      forall k | k in notifications :: notifications[k] in v
    ensures var v := Values(order, notifications);
      forall i, j | 0 <= i < j < |v| :: v[i] != v[j]
  {
    var v := Values(order, notifications);
    forall k | k in notifications ensures notifications[k] in v {
      var i :| 0 <= i < |order| && order[i] == k;
      assert v[i] == notifications[k];
    }
    forall i, j | 0 <= i < j < |v| ensures v[i] != v[j] {
      assert v[i].id == order[i] && v[j].id == order[j];
    }
  }
}
