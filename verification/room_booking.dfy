/**
 * The room booking form (src/components/RoomBooking.js): the night count, the
 * total with its 10% service charge, the check-out date floor, the submit guard,
 * and the payload handed to the store once payment succeeds.
 *
 * Dates are day numbers (`None` for an empty date input); `parseInt(guests)` is
 * supplied by the caller as `parsedGuests`.
 */
module RoomBooking {
  import opened Common
  import opened BookingStore

  /** The `bookingData` form record. */
  datatype RoomForm = RoomForm(
    customerName: string,
    email: string,
    phone: string,
    checkIn: Option<Day>,
    checkOut: Option<Day>,
    guests: string,
    specialRequests: string)

  /** The form's initial (and post-booking) contents: one guest, everything else empty. */
  function EmptyRoomForm(): RoomForm {
    RoomForm("", "", "", None, None, "1", "")
  }

  /** `calculateNights`: whole days between the two dates, in either order; 0 if one is missing. */
  function Nights(checkIn: Option<Day>, checkOut: Option<Day>): (n: nat)
    ensures n == 0 <==> checkIn.None? || checkOut.None? || checkIn == checkOut
    ensures checkIn.Some? && checkOut.Some? && checkIn.value <= checkOut.value ==>
      n == checkOut.value - checkIn.value
  {
    if checkIn.None? || checkOut.None? then 0
    else if checkOut.value >= checkIn.value then checkOut.value - checkIn.value
    else checkIn.value - checkOut.value
  }

  /** Swapping check-in and check-out does not change the count: reversed dates still give nights. */
  lemma NightsSymmetric(a: Option<Day>, b: Option<Day>)
    ensures Nights(a, b) == Nights(b, a)
  {
  }

  /** `getTotalAmount`: the base price for the stay plus a 10% service charge. */
  function TotalAmount(price: int, nights: nat): (r: real)
    ensures r == 11.0 * (price as real) * (nights as real) / 10.0
    ensures nights == 0 ==> r == 0.0
    ensures price > 0 && nights > 0 ==> r > (price * nights) as real
  {
    var base := (price * nights) as real;
    base + base * 0.1
  }

  /** `getMinDate` / `getMinCheckOut`: the earliest check-out the date picker offers. */
  function MinCheckOut(checkIn: Option<Day>, today: Day): (d: Day)
    ensures checkIn.Some? ==> d == checkIn.value + 1
    ensures checkIn.None? ==> d == today
  {
    if checkIn.None? then today else checkIn.value + 1
  }

  /** A check-out picked at or after the floor always yields at least one night. */
  lemma FloorGivesNights(checkIn: Day, checkOut: Day, today: Day)
    requires checkOut >= MinCheckOut(Some(checkIn), today)
    ensures Nights(Some(checkIn), Some(checkOut)) == checkOut - checkIn >= 1
  {
  }

  /** The submit button is enabled exactly when the stay has at least one night. */
  predicate SubmitEnabled(form: RoomForm) {
    Nights(form.checkIn, form.checkOut) > 0
  }

  datatype SubmitOutcome = NoRoomSelected | InvalidDates | PaymentOpened

  /** `handleBookingSubmit`: no room does nothing, zero nights alerts, otherwise payment opens. */
  function SubmitDecision(selected: Option<Room>, form: RoomForm): (o: SubmitOutcome)
    ensures o == PaymentOpened <==> selected.Some? && SubmitEnabled(form)
    ensures o == NoRoomSelected <==> selected.None?
    ensures o == InvalidDates ==> form.checkIn.None? || form.checkOut.None? || form.checkIn == form.checkOut
  {
    if selected.None? then NoRoomSelected
    else if Nights(form.checkIn, form.checkOut) <= 0 then InvalidDates
    else PaymentOpened
  }

  /** The object `handlePaymentSuccess` passes to `addBooking`. */
  function RoomPayload(room: Room, form: RoomForm, parsedGuests: int): (p: Payload)
    ensures p.id.None? && p.status.None? && p.createdAt.None?
    ensures p.info.bookingType == "room" && p.info.paymentStatus == "completed"
    ensures p.info.customerName == form.customerName && p.info.email == form.email
    ensures p.info.phone == form.phone && p.info.specialRequests == form.specialRequests
    ensures p.info.details.RoomDetails? && p.info.details.roomId == room.id && p.info.details.roomName == room.name
    ensures p.info.details.checkIn == form.checkIn && p.info.details.checkOut == form.checkOut
    ensures p.info.details.guests == parsedGuests
    ensures p.info.details.nights == Nights(form.checkIn, form.checkOut)
    ensures p.info.totalAmount == 11.0 * (room.price as real) * (p.info.details.nights as real) / 10.0
  {
    var nights := Nights(form.checkIn, form.checkOut);
    Payload(
      BookingInfo("room", form.customerName, form.email, form.phone, form.specialRequests,
                  RoomDetails(room.id, room.name, form.checkIn, form.checkOut, nights, parsedGuests),
                  TotalAmount(room.price, nights), "completed"),
      None, None, None)
  }

  /** For a room, the stored total is the amount the payment modal charged. */
  lemma RoomStoresCharged(s: State, room: Room, form: RoomForm, parsedGuests: int, now: Millis)
    ensures var b := Step(s, AddBooking(RoomPayload(room, form, parsedGuests)), now).bookings[|s.bookings|];
      b.info.totalAmount == TotalAmount(room.price, Nights(form.checkIn, form.checkOut))
      && b.status == "pending" && b.info.paymentStatus == "completed"
  {
    AddedBooking(s, RoomPayload(room, form, parsedGuests), now);
  }

  /** The component's state: which room is selected, which panel shows, and the form. */
  class RoomBookingView {
    var selectedRoom: Option<Room>
    var showBookingForm: bool
    var showPayment: bool
    var bookingData: RoomForm

    constructor ()
      ensures selectedRoom == None && !showBookingForm && !showPayment && bookingData == EmptyRoomForm()
    {
      selectedRoom := None;
      showBookingForm := false;
      showPayment := false;
      bookingData := EmptyRoomForm();
    }

    /** "Book Now" on a room card. */
    method BookNow(room: Room)
      modifies this
      ensures selectedRoom == Some(room) && showBookingForm
      ensures showPayment == old(showPayment) && bookingData == old(bookingData)
    {
      selectedRoom := Some(room);
      showBookingForm := true;
    }

    /** The close button of the form. */
    method CloseForm()
      modifies this
      ensures selectedRoom == None && !showBookingForm
      ensures showPayment == old(showPayment) && bookingData == old(bookingData)
    {
      showBookingForm := false;
      selectedRoom := None;
    }

    /** `handleBookingSubmit`; `InvalidDates` is the alert shown for a zero-night stay. */
    method Submit() returns (outcome: SubmitOutcome)
      modifies this
      ensures outcome == SubmitDecision(old(selectedRoom), old(bookingData))
      ensures showPayment == (old(showPayment) || outcome == PaymentOpened)
      ensures selectedRoom == old(selectedRoom) && showBookingForm == old(showBookingForm)
      ensures bookingData == old(bookingData)
    {
      if selectedRoom.None? {
        return NoRoomSelected;
      }
      var nights := Nights(bookingData.checkIn, bookingData.checkOut);
      if nights <= 0 {
        return InvalidDates;
      }
      showPayment := true;
      outcome := PaymentOpened;
    }

    /** The payment modal's close button. */
    method ClosePayment()
      modifies this
      ensures !showPayment
      ensures selectedRoom == old(selectedRoom) && showBookingForm == old(showBookingForm)
      ensures bookingData == old(bookingData)
    {
      showPayment := false;
    }

    /**
     * `handlePaymentSuccess`: exactly one `addBooking` with the room payload, then the form
     * is reset and the selection cleared. With no room selected the source throws on
     * `selectedRoom.id` before anything happens (`ok` is false).
     */
    method PaymentSuccess(store: Provider, parsedGuests: int, now: Millis) returns (ok: bool)
      modifies this, store
      ensures ok == old(selectedRoom).Some?
      ensures ok ==> store.state == Step(old(store.state),
                                         AddBooking(RoomPayload(old(selectedRoom).value, old(bookingData), parsedGuests)), now)
      ensures ok ==> selectedRoom == None && !showPayment && !showBookingForm && bookingData == EmptyRoomForm()
      ensures !ok ==> store.state == old(store.state) && selectedRoom == old(selectedRoom)
      ensures !ok ==> showPayment == old(showPayment) && showBookingForm == old(showBookingForm)
      ensures !ok ==> bookingData == old(bookingData)
    {
      if selectedRoom.None? {
        return false;
      }
      var booking := RoomPayload(selectedRoom.value, bookingData, parsedGuests);
      store.AddBooking(booking, now);
      showPayment := false;
      showBookingForm := false;
      selectedRoom := None;
      bookingData := EmptyRoomForm();
      ok := true;
    }
  }
}
