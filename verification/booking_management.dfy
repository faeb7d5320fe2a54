/**
 * The admin booking table (src/components/admin/BookingManagement.js): the search and
 * filter predicate, the status badge colour, the payment label and the rule that only
 * pending bookings offer confirm / cancel.
 */
module BookingManagement {
  import opened Common
  import opened Text
  import opened BookingStore
  import Dashboard

  /** `booking.hallName && booking.hallName.toLowerCase().includes(t)` and the same for rooms. */
  predicate VenueMatches(b: Booking, t: string) {
    match b.info.details
    case HallDetails(_, hallName, _, _, _) => hallName != "" && Contains(Lower(hallName), t)
    case RoomDetails(_, roomName, _, _, _, _) => roomName != "" && Contains(Lower(roomName), t)
  }

  /** Case-insensitive search on customer name, email, and the hall or room name. */
  predicate MatchesSearch(b: Booking, term: string) {
    var t := Lower(term);
    Contains(Lower(b.info.customerName), t) || Contains(Lower(b.info.email), t) || VenueMatches(b, t)
  }

  /** The predicate given to `bookings.filter`. */
  predicate MatchesFilters(b: Booking, term: string, statusFilter: string, typeFilter: string) {
    && MatchesSearch(b, term)
    && (statusFilter == "all" || b.status == statusFilter)
    && (typeFilter == "all" || b.info.bookingType == typeFilter)
  }

  /** `filteredBookings`: the matching bookings, in their original order. */
  function FilteredBookings(bs: seq<Booking>, term: string, statusFilter: string, typeFilter: string): (r: seq<Booking>)
    ensures IsSubsequence(r, bs) && |r| <= |bs|
    ensures forall i :: 0 <= i < |r| ==> MatchesFilters(r[i], term, statusFilter, typeFilter)
    ensures forall i :: 0 <= i < |bs| && MatchesFilters(bs[i], term, statusFilter, typeFilter) ==> bs[i] in r
    ensures forall b :: multiset(r)[b] == if MatchesFilters(b, term, statusFilter, typeFilter) then multiset(bs)[b] else 0
  {
    var keep := b => MatchesFilters(b, term, statusFilter, typeFilter);
    FilterMultiset(bs, keep);
    Filter(bs, keep)
  }

  /** Once the dashboard has sorted the store's list newest first, the table lists newest first too. */
  lemma TableNewestFirst(bs: seq<Booking>, term: string, statusFilter: string, typeFilter: string)
    requires Dashboard.NewestFirst(bs)
    ensures Dashboard.NewestFirst(FilteredBookings(bs, term, statusFilter, typeFilter))
  {
    FilterKeepsOrder(bs, b => MatchesFilters(b, term, statusFilter, typeFilter),
                     (x: Booking, y: Booking) => x.createdAt >= y.createdAt);
  }

  /** An empty search matches every booking. */
  lemma EmptySearchMatches(b: Booking)
    ensures MatchesSearch(b, "")
  {
    ContainsEmpty(Lower(b.info.customerName));
  }

  /** With an empty search and both filters on "all", the table shows every booking, in order. */
  lemma NoFilterShowsAll(bs: seq<Booking>)
    ensures FilteredBookings(bs, "", "all", "all") == bs
  {
    forall i | 0 <= i < |bs|
      ensures MatchesFilters(bs[i], "", "all", "all")
    {
      EmptySearchMatches(bs[i]);
    }
    FilterAll(bs, b => MatchesFilters(b, "", "all", "all"));
  }

  /** Search ignores the case of the search term. */
  lemma SearchIgnoresCase(b: Booking, term: string)
    ensures MatchesSearch(b, term) == MatchesSearch(b, Lower(term))
  {
    LowerIdempotent(term);
  }

  /** `getStatusColor`. */
  function StatusColor(status: string): (r: string)
    ensures r == "bg-gray-100 text-gray-800" <==> status !in {"confirmed", "pending", "cancelled"}
  {
    match status
    case "confirmed" => "bg-green-100 text-green-800"
    case "pending" => "bg-yellow-100 text-yellow-800"
    case "cancelled" => "bg-red-100 text-red-800"
    case _ => "bg-gray-100 text-gray-800"
  }

  /** The three known statuses get three different colours. */
  lemma StatusColorsDistinct()
    ensures StatusColor("confirmed") != StatusColor("pending")
    ensures StatusColor("pending") != StatusColor("cancelled")
    ensures StatusColor("confirmed") != StatusColor("cancelled")
  {
  }

  /** The payment line under the amount. */
  function PaymentLabel(b: Booking): (r: string)
    ensures r == "Paid" <==> b.info.paymentStatus == "completed"
    ensures r == "Paid" || r == "Pending"
  {
    if b.info.paymentStatus == "completed" then "Paid" else "Pending"
  }

  /** The status changes the table row and the detail view offer for a booking. */
  function OfferedStatusChanges(b: Booking): (r: seq<string>)
    ensures r != [] <==> b.status == "pending"
    ensures b.status == "pending" ==> "confirmed" in r && "cancelled" in r
    ensures forall i :: 0 <= i < |r| ==> r[i] == "confirmed" || r[i] == "cancelled"
  {
    if b.status == "pending" then ["confirmed", "cancelled"] else []
  }

  /**
   * Applying an offered change (`handleStatusUpdate`) moves a pending booking to confirmed or
   * cancelled; once it is there the view offers nothing more for it.
   */
  lemma OfferedChangeIsFinal(s: State, k: nat, newStatus: string, now: Millis)
    requires k < |s.bookings| && newStatus in OfferedStatusChanges(s.bookings[k])
    ensures s.bookings[k].status == "pending"
    ensures var r := Step(s, UpdateBookingStatus(s.bookings[k].id, newStatus), now);
      && r.bookings[k].status == newStatus
      && OfferedStatusChanges(r.bookings[k]) == []
  {
  }
}
