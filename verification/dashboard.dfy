/**
 * The admin dashboard (src/components/admin/Dashboard.js): the summary counters,
 * the revenue total, the five most recent bookings and the first notifications.
 */
module Dashboard {
  import opened Common
  import opened BookingStore

  predicate IsPending(b: Booking) { b.status == "pending" }
  predicate IsConfirmed(b: Booking) { b.status == "confirmed" }
  predicate IsPaid(b: Booking) { b.info.paymentStatus == "completed" }
  predicate IsUnread(n: Notification) { !n.read }

  /** Sum of `totalAmount` over the bookings whose payment is completed. */
  function Revenue(bs: seq<Booking>): real {
    SumAmounts(Filter(bs, IsPaid))
  }

  function UnreadCount(ns: seq<Notification>): nat {
    |Filter(ns, IsUnread)|
  }

  datatype Stats = Stats(
    totalBookings: nat,
    pendingBookings: nat,
    confirmedBookings: nat,
    totalRevenue: real,
    totalVenues: nat,
    unreadNotifications: nat)

  /** The `stats` object. */
  function ComputeStats(s: State): (r: Stats)
    ensures r.totalBookings == |s.bookings|
    ensures r.pendingBookings == |Filter(s.bookings, IsPending)|
    ensures r.confirmedBookings == |Filter(s.bookings, IsConfirmed)|
    ensures r.pendingBookings + r.confirmedBookings <= r.totalBookings
    ensures r.unreadNotifications == UnreadCount(s.notifications)
    ensures r.totalVenues == |s.halls| + |s.rooms|
    ensures r.unreadNotifications <= |s.notifications|
    ensures r.totalRevenue == Revenue(s.bookings)
  {
    FilterDisjointCount(s.bookings, IsPending, IsConfirmed);
    Stats(
      |s.bookings|,
      |Filter(s.bookings, IsPending)|,
      |Filter(s.bookings, IsConfirmed)|,
      Revenue(s.bookings),
      |s.halls| + |s.rooms|,
      UnreadCount(s.notifications))
  }

  /** With the built-in catalog the dashboard counts six venues and nothing else. */
  lemma InitialStats()
    ensures ComputeStats(InitialState()) == Stats(0, 0, 0, 0.0, 6, 0)
  {
  }

  /** Adding a booking raises revenue by its amount exactly when its payment is completed. */
  lemma RevenueAfterAdd(s: State, p: Payload, now: Millis)
    ensures Revenue(Step(s, AddBooking(p), now).bookings)
         == Revenue(s.bookings) + (if p.info.paymentStatus == "completed" then p.info.totalAmount else 0.0)
  {
    var b := NewBooking(p, now);
    FilterAppend(s.bookings, [b], IsPaid);
    SumAmountsAppend(Filter(s.bookings, IsPaid), Filter([b], IsPaid));
  }

  /** Revenue only looks at the payload fields, so two lists that agree on them agree on revenue. */
  lemma {:induction false} RevenueOnlyReadsInfo(bs: seq<Booking>, cs: seq<Booking>)
    requires |bs| == |cs|
    requires forall i :: 0 <= i < |bs| ==> bs[i].info == cs[i].info
    ensures Revenue(bs) == Revenue(cs)
  {
    if bs != [] {
      RevenueOnlyReadsInfo(bs[1..], cs[1..]);
    }
  }

  /** Confirming or cancelling a booking never changes the revenue figure. */
  lemma RevenueAfterStatusUpdate(s: State, id: Millis, status: string, now: Millis)
    ensures Revenue(Step(s, UpdateBookingStatus(id, status), now).bookings) == Revenue(s.bookings)
  {
    RevenueOnlyReadsInfo(s.bookings, SetStatus(s.bookings, id, status));
  }

  /** Every new booking adds exactly one unread notification. */
  lemma UnreadAfterAdd(s: State, p: Payload, now: Millis)
    ensures UnreadCount(Step(s, AddBooking(p), now).notifications) == UnreadCount(s.notifications) + 1
  {
    FilterAppend(s.notifications, [NewNotification(p, now)], IsUnread);
  }

  /** Marking a notification read never raises the unread count. */
  lemma {:induction false} UnreadAfterMarkRead(ns: seq<Notification>, id: Millis)
    ensures UnreadCount(MarkRead(ns, id)) <= UnreadCount(ns)
  {
    if ns != [] {
      UnreadAfterMarkRead(ns[1..], id);
    }
  }

  /** Newest first: `createdAt` never increases along the sequence. */
  predicate NewestFirst(s: seq<Booking>) {
    forall i, j :: 0 <= i < j < |s| ==> s[i].createdAt >= s[j].createdAt
  }

  /** Exchanges two bookings of the array, leaving the others in place. */
  method Swap(a: array<Booking>, i: nat, j: nat)
    requires i < j < a.Length
    modifies a
    ensures a[i] == old(a[j]) && a[j] == old(a[i])
    ensures forall m :: 0 <= m < a.Length && m != i && m != j ==> a[m] == old(a[m])
    ensures multiset(a[..]) == multiset(old(a[..]))
  {
    a[i], a[j] := a[j], a[i];
  }

  /**
   * `bookings.sort((a, b) => new Date(b.createdAt) - new Date(a.createdAt))`: sorts the
   * shared bookings array itself, newest first (an insertion sort).
   */
  method SortNewestFirst(a: array<Booking>)
    modifies a
    ensures NewestFirst(a[..])
    ensures multiset(a[..]) == multiset(old(a[..]))
  {
    if a.Length == 0 {
      return;
    }
    var i := 1;
    while i < a.Length
      invariant 1 <= i <= a.Length
      invariant forall k, l :: 0 <= k < l < i ==> a[k].createdAt >= a[l].createdAt
      invariant multiset(a[..]) == multiset(old(a[..]))
    {
      var j := i;
      while j > 0 && a[j - 1].createdAt < a[j].createdAt
        invariant 0 <= j <= i
        invariant forall k, l :: 0 <= k < l <= i && k != j && l != j ==> a[k].createdAt >= a[l].createdAt
        invariant forall l :: j < l <= i ==> a[j].createdAt > a[l].createdAt
        invariant multiset(a[..]) == multiset(old(a[..]))
      {
        Swap(a, j - 1, j);
        j := j - 1;
      }
      i := i + 1;
    }
  }

  /**
   * The sort runs on `state.bookings` itself, not on a copy: afterwards the store's own
   * list is newest first, a permutation of what it held, and nothing else in the store changes.
   */
  method SortStoreBookings(store: Provider)
    modifies store
    ensures NewestFirst(store.state.bookings)
    ensures multiset(store.state.bookings) == multiset(old(store.state.bookings))
    ensures store.state.halls == old(store.state.halls) && store.state.rooms == old(store.state.rooms)
    ensures store.state.notifications == old(store.state.notifications)
  {
    var bs := store.state.bookings;
    var a := new Booking[|bs|](i requires 0 <= i < |bs| => bs[i]);
    assert a[..] == bs;
    SortNewestFirst(a);
    store.state := store.state.(bookings := a[..]);
  }

  /** `recentBookings`: the store's list sorted in place as above, then its first five. */
  method RecentBookings(store: Provider) returns (recent: seq<Booking>)
    modifies store
    ensures multiset(store.state.bookings) == multiset(old(store.state.bookings))
    ensures NewestFirst(store.state.bookings)
    ensures store.state.halls == old(store.state.halls) && store.state.rooms == old(store.state.rooms)
    ensures store.state.notifications == old(store.state.notifications)
    ensures var bs := store.state.bookings;
      recent == bs[..if |bs| < 5 then |bs| else 5]
    ensures |recent| <= 5 && NewestFirst(recent)
    ensures forall i :: 0 <= i < |recent| ==> recent[i] in old(store.state.bookings)
    ensures forall i, j :: 0 <= i < |recent| && |recent| <= j < |store.state.bookings| ==>
      recent[i].createdAt >= store.state.bookings[j].createdAt
  {
    SortStoreBookings(store);
    var bs := store.state.bookings;
    recent := bs[..if |bs| < 5 then |bs| else 5];
    forall i | 0 <= i < |recent|
      ensures recent[i] in old(store.state.bookings)
    {
      assert recent[i] in multiset(bs);
    }
  }

  /** `notifications.slice(0, 3)`: the first three notifications in list order. */
  function ShownNotifications(ns: seq<Notification>): (r: seq<Notification>)
    ensures |r| <= 3 && |r| == (if |ns| < 3 then |ns| else 3)
    ensures forall i :: 0 <= i < |r| ==> r[i] == ns[i]
  {
    ns[..if |ns| < 3 then |ns| else 3]
  }
}
