/**
 * The client-side booking store (src/context/BookingContext.js): the catalog of
 * halls and rooms, the booking list and the admin notification feed, changed only
 * through the pure reducer `Step`. `Provider` is the React provider that holds the
 * current state and dispatches to the reducer.
 *
 * `Date.now()` and `new Date().toISOString()` are replaced by one clock reading
 * `now`, passed in by the caller; identifiers are not unique (two bookings made in
 * the same millisecond share an id), and nothing here assumes they are.
 */
module BookingStore {
  import opened Common

  /** A calendar date (`YYYY-MM-DD` input) as a day number. */
  type Day = int
  /** A clock reading in milliseconds; also stands for the ISO timestamp strings. */
  type Millis = int

  datatype Hall = Hall(id: int, name: string, capacity: int, price: int,
                       image: string, amenities: seq<string>, description: string)

  datatype Room = Room(id: int, name: string, roomType: string, price: int,
                       image: string, amenities: seq<string>, description: string)

  /** The venue-specific fields of a booking: a hall event or a room stay. */
  datatype Details =
    | HallDetails(hallId: int, hallName: string, eventDate: Option<Day>, eventTime: string, guestCount: int)
    | RoomDetails(roomId: int, roomName: string, checkIn: Option<Day>, checkOut: Option<Day>, nights: int, guests: int)

  /** Every booking field that comes from the payload handed to `addBooking`. */
  datatype BookingInfo = BookingInfo(
    bookingType: string,
    customerName: string,
    email: string,
    phone: string,
    specialRequests: string,
    details: Details,
    totalAmount: real,
    paymentStatus: string)

  /** A stored booking: the payload fields plus the three the reducer stamps. */
  datatype Booking = Booking(id: Millis, info: BookingInfo, status: string, createdAt: Millis)

  /**
   * The `ADD_BOOKING` payload: the booking fields, and whatever `id`, `status` or
   * `createdAt` keys the caller's object happens to carry (`None` when absent).
   */
  datatype Payload = Payload(info: BookingInfo, id: Option<Millis>, status: Option<string>, createdAt: Option<Millis>)

  datatype Notification = Notification(id: Millis, message: string, timestamp: Millis, read: bool)

  datatype State = State(bookings: seq<Booking>, halls: seq<Hall>, rooms: seq<Room>, notifications: seq<Notification>)

  /** A parsed `LOAD_DATA` payload: each top-level key may be present or absent. */
  datatype Snapshot = Snapshot(
    bookings: Option<seq<Booking>>,
    halls: Option<seq<Hall>>,
    rooms: Option<seq<Room>>,
    notifications: Option<seq<Notification>>)

  datatype Action =
    | AddBooking(payload: Payload)
    | UpdateBookingStatus(id: Millis, status: string)
    | MarkNotificationRead(id: Millis)
    | LoadData(data: Snapshot)
    | Other(tag: string)

  /** The built-in catalog: three halls, three rooms, no bookings, no notifications. */
  function InitialState(): (s: State)
    ensures s.bookings == [] && s.notifications == []
    ensures |s.halls| == 3 && |s.rooms| == 3
    ensures forall i :: 0 <= i < |s.halls| ==> s.halls[i].id == i + 1 && s.halls[i].price > 0 && s.halls[i].capacity > 0
    ensures forall i :: 0 <= i < |s.rooms| ==> s.rooms[i].id == i + 1 && s.rooms[i].price > 0
  {
    State(
      [],
      [ Hall(1, "Royal Grand Hall", 500, 50000,
             "photo-1519167758481-83f550bb49b3",
             ["AC", "Sound System", "Lighting", "Catering", "Parking"],
             "Luxurious hall perfect for grand wedding celebrations"),
        Hall(2, "Crystal Banquet", 300, 35000,
             "photo-1464207687429-7505649dae38",
             ["AC", "Sound System", "Lighting", "Parking"],
             "Elegant banquet hall for intimate celebrations"),
        Hall(3, "Golden Palace", 800, 75000,
             "photo-1578662996442-48f60103fc96",
             ["AC", "Sound System", "Lighting", "Catering", "Parking", "Decoration"],
             "Premium venue for the most special occasions") ],
      [ Room(1, "Deluxe Suite", "Suite", 5000,
             "photo-1578683010236-d716f9a3f461",
             ["AC", "WiFi", "TV", "Mini Bar", "Room Service"],
             "Spacious suite with premium amenities"),
        Room(2, "Premium Room", "Premium", 3500,
             "photo-1566665797739-1674de7a421a",
             ["AC", "WiFi", "TV", "Room Service"],
             "Comfortable room with modern facilities"),
        Room(3, "Standard Room", "Standard", 2500,
             "photo-1631049307264-da0ec9d70304",
             ["AC", "WiFi", "TV"],
             "Cozy room with essential amenities") ],
      [])
  }

  /** The sum of `totalAmount` over a list of bookings (a `reduce` from 0). */
  function SumAmounts(bs: seq<Booking>): real {
    if bs == [] then 0.0 else bs[0].info.totalAmount + SumAmounts(bs[1..])
  }

  /** Summing a concatenation sums the parts. */
  lemma {:induction false} SumAmountsAppend(bs: seq<Booking>, cs: seq<Booking>)
    ensures SumAmounts(bs + cs) == SumAmounts(bs) + SumAmounts(cs)
  {
    if bs == [] {
      assert bs + cs == cs;
    } else {
      assert (bs + cs)[1..] == bs[1..] + cs;
      SumAmountsAppend(bs[1..], cs);
    }
  }

  /** The booking `ADD_BOOKING` stores: the payload spread, then `id`, `status`, `createdAt`. */
  function NewBooking(p: Payload, now: Millis): Booking {
    Booking(now, p.info, "pending", now)
  }

  function NotificationMessage(p: Payload): string {
    "New " + p.info.bookingType + " booking received from " + p.info.customerName
  }

  /** The admin notification `ADD_BOOKING` appends. */
  function NewNotification(p: Payload, now: Millis): Notification {
    Notification(now, NotificationMessage(p), now, false)
  }

  /** The `bookings.map` of `UPDATE_BOOKING_STATUS`: every booking whose id matches gets the new status. */
  function SetStatus(bs: seq<Booking>, id: Millis, status: string): (r: seq<Booking>)
    ensures |r| == |bs|
    ensures forall i :: 0 <= i < |bs| ==>
      r[i].id == bs[i].id && r[i].info == bs[i].info && r[i].createdAt == bs[i].createdAt
    ensures forall i :: 0 <= i < |bs| ==>
      r[i].status == if bs[i].id == id then status else bs[i].status
  {
    if bs == [] then []
    else
      var b := if bs[0].id == id then bs[0].(status := status) else bs[0];
      [b] + SetStatus(bs[1..], id, status)
  }

  /** The `notifications.map` of `MARK_NOTIFICATION_READ`. */
  function MarkRead(ns: seq<Notification>, id: Millis): (r: seq<Notification>)
    ensures |r| == |ns|
    ensures forall i :: 0 <= i < |ns| ==>
      r[i].id == ns[i].id && r[i].message == ns[i].message && r[i].timestamp == ns[i].timestamp
    ensures forall i :: 0 <= i < |ns| ==> r[i].read == (ns[i].read || ns[i].id == id)
  {
    if ns == [] then []
    else
      var n := if ns[0].id == id then ns[0].(read := true) else ns[0];
      [n] + MarkRead(ns[1..], id)
  }

  /** `{...state, ...payload}`: each key present in the snapshot replaces the state's value. */
  function Merge(s: State, d: Snapshot): State {
    State(
      if d.bookings.Some? then d.bookings.value else s.bookings,
      if d.halls.Some? then d.halls.value else s.halls,
      if d.rooms.Some? then d.rooms.value else s.rooms,
      if d.notifications.Some? then d.notifications.value else s.notifications)
  }

  /** `bookingReducer`. */
  function Step(s: State, a: Action, now: Millis): (r: State)
    ensures a.AddBooking? ==>
      && |r.bookings| == |s.bookings| + 1 && r.bookings[..|s.bookings|] == s.bookings
      && |r.notifications| == |s.notifications| + 1 && r.notifications[..|s.notifications|] == s.notifications
      && r.halls == s.halls && r.rooms == s.rooms
    ensures a.UpdateBookingStatus? ==>
      |r.bookings| == |s.bookings| && r.halls == s.halls && r.rooms == s.rooms && r.notifications == s.notifications
    ensures a.MarkNotificationRead? ==>
      |r.notifications| == |s.notifications| && r.bookings == s.bookings && r.halls == s.halls && r.rooms == s.rooms
    ensures a.Other? ==> r == s
  {
    match a
    case AddBooking(p) =>
      s.(bookings := s.bookings + [NewBooking(p, now)],
         notifications := s.notifications + [NewNotification(p, now)])
    case UpdateBookingStatus(id, status) => s.(bookings := SetStatus(s.bookings, id, status))
    case MarkNotificationRead(id) => s.(notifications := MarkRead(s.notifications, id))
    case LoadData(d) => Merge(s, d)
    case Other(_) => s
  }

  /** The booking `ADD_BOOKING` appends keeps every payload field, is pending and is stamped with `now`. */
  lemma AddedBooking(s: State, p: Payload, now: Millis)
    ensures var b := Step(s, AddBooking(p), now).bookings[|s.bookings|];
      && b.info == p.info && b.info.paymentStatus == p.info.paymentStatus
      && b.id == now && b.status == "pending" && b.createdAt == now
  {
  }

  /** `id`, `status` and `createdAt` keys in the payload never reach the stored booking. */
  lemma PayloadKeysOverridden(s: State, p: Payload, q: Payload, now: Millis)
    requires p.info == q.info
    ensures Step(s, AddBooking(p), now) == Step(s, AddBooking(q), now)
  {
  }

  /** The notification `ADD_BOOKING` appends is unread and names the booking type and customer. */
  lemma AddedNotification(s: State, p: Payload, now: Millis)
    ensures var n := Step(s, AddBooking(p), now).notifications[|s.notifications|];
      && !n.read && n.id == now && n.timestamp == now
      && n.message == "New " + p.info.bookingType + " booking received from " + p.info.customerName
  {
  }

  /** Updating the status of an id no booking has leaves the bookings as they were. */
  lemma {:induction false} UnknownIdNoChange(s: State, id: Millis, status: string, now: Millis)
    requires forall i :: 0 <= i < |s.bookings| ==> s.bookings[i].id != id
    ensures Step(s, UpdateBookingStatus(id, status), now) == s
  {
    var r := SetStatus(s.bookings, id, status);
    assert forall i :: 0 <= i < |r| ==> r[i] == s.bookings[i];
    assert r == s.bookings;
  }

  /** After an update, every booking carrying that id has the new status; no other booking changes. */
  lemma UpdateSetsMatching(s: State, id: Millis, status: string, now: Millis)
    ensures var r := Step(s, UpdateBookingStatus(id, status), now).bookings;
      && (forall i :: 0 <= i < |r| && s.bookings[i].id == id ==> r[i] == s.bookings[i].(status := status))
      && (forall i :: 0 <= i < |r| && s.bookings[i].id != id ==> r[i] == s.bookings[i])
  {
  }

  /**
   * The reducer has no terminal-state guard: a confirmed booking can be cancelled, and a
   * cancelled one put back to pending.
   */
  lemma NoTerminalGuard(s: State, k: nat, now: Millis)
    requires k < |s.bookings| && s.bookings[k].status == "confirmed"
    ensures var s1 := Step(s, UpdateBookingStatus(s.bookings[k].id, "cancelled"), now);
      && s1.bookings[k].status == "cancelled"
      && Step(s1, UpdateBookingStatus(s.bookings[k].id, "pending"), now).bookings[k].status == "pending"
  {
  }

  /** Marking a notification read twice is the same as once. */
  lemma {:induction false} MarkReadIdempotent(s: State, id: Millis, now: Millis)
    ensures var s1 := Step(s, MarkNotificationRead(id), now);
      Step(s1, MarkNotificationRead(id), now) == s1
  {
    var once := MarkRead(s.notifications, id);
    var twice := MarkRead(once, id);
    assert forall i :: 0 <= i < |twice| ==> twice[i] == once[i];
    assert twice == once;
  }

  /** Marking read never clears a read flag, and sets it on every matching notification. */
  lemma MarkReadOnlySets(s: State, id: Millis, now: Millis)
    ensures var r := Step(s, MarkNotificationRead(id), now).notifications;
      forall i :: 0 <= i < |r| ==> (r[i].read <==> s.notifications[i].read || s.notifications[i].id == id)
  {
  }

  /** The snapshot `JSON.stringify(state)` writes: every top-level key present. */
  function Save(s: State): (d: Snapshot)
    ensures d.bookings.Some? && d.halls.Some? && d.rooms.Some? && d.notifications.Some?
  {
    Snapshot(Some(s.bookings), Some(s.halls), Some(s.rooms), Some(s.notifications))
  }

  /** Loading a saved state reproduces it exactly, whatever the state before. */
  lemma LoadSavedRoundTrip(before: State, saved: State, now: Millis)
    ensures Step(before, LoadData(Save(saved)), now) == saved
  {
  }

  /** `LOAD_DATA` replaces exactly the keys its payload carries and keeps the others. */
  lemma LoadDataShallowMerge(s: State, d: Snapshot, now: Millis)
    ensures var r := Step(s, LoadData(d), now);
      && (r.bookings == if d.bookings.Some? then d.bookings.value else s.bookings)
      && (r.halls == if d.halls.Some? then d.halls.value else s.halls)
      && (r.rooms == if d.rooms.Some? then d.rooms.value else s.rooms)
      && (r.notifications == if d.notifications.Some? then d.notifications.value else s.notifications)
      && (d == Snapshot(None, None, None, None) ==> r == s)
  {
  }

  /** What `localStorage.getItem('bookingData')` held at start-up. */
  datatype SavedData = Missing | Unparseable | Saved(data: Snapshot)

  /** `BookingProvider`: the current store state and the operations it exposes. */
  class Provider {
    var state: State

    constructor ()
      ensures state == InitialState()
    {
      state := InitialState();
    }

    /**
     * The mount effect: a saved snapshot is dispatched as `LOAD_DATA`. The source has no
     * `try` around `JSON.parse`, so an unparseable value throws (`crashed`) and loads nothing.
     */
    method Restore(saved: SavedData, now: Millis) returns (crashed: bool)
      modifies this
      ensures crashed <==> saved.Unparseable?
      ensures state == if saved.Saved? then Step(old(state), LoadData(saved.data), now) else old(state)
    {
      match saved
      case Missing => crashed := false;
      case Unparseable => crashed := true;
      case Saved(d) =>
        crashed := false;
        state := Step(state, LoadData(d), now);
    }

    method AddBooking(payload: Payload, now: Millis)
      modifies this
      ensures state == Step(old(state), Action.AddBooking(payload), now)
    {
      state := Step(state, Action.AddBooking(payload), now);
    }

    method UpdateBookingStatus(id: Millis, status: string, now: Millis)
      modifies this
      ensures state == Step(old(state), Action.UpdateBookingStatus(id, status), now)
    {
      state := Step(state, Action.UpdateBookingStatus(id, status), now);
    }

    method MarkNotificationRead(id: Millis, now: Millis)
      modifies this
      ensures state == Step(old(state), Action.MarkNotificationRead(id), now)
    {
      state := Step(state, Action.MarkNotificationRead(id), now);
    }
  }
}
