/**
 * The marriage-hall booking form (src/components/HallBooking.js): the submit guard,
 * the payload handed to the store once payment succeeds, and the amount the payment
 * modal charges. `parseInt(guestCount)` is supplied by the caller as `parsedGuestCount`.
 *
 * The payload stores the bare hall price as `totalAmount`, while the payment modal is
 * given `price * 1.1`: `StoredBelowCharged` exhibits the gap, `CorrectedHallPayload`
 * stores the charged amount instead.
 */
module HallBooking {
  import opened Common
  import opened BookingStore
  import Dashboard

  /** The `bookingData` form record; every field starts (and is reset to) empty. */
  datatype HallForm = HallForm(
    customerName: string,
    email: string,
    phone: string,
    eventDate: Option<Day>,
    eventTime: string,
    guestCount: string,
    specialRequests: string)

  function EmptyHallForm(): HallForm {
    HallForm("", "", "", None, "", "", "")
  }

  /** The amount passed to the payment modal: the hall price plus a 10% service charge. */
  function ChargedAmount(hall: Hall): (r: real)
    ensures r == (hall.price as real) + (hall.price as real) / 10.0
    ensures hall.price > 0 ==> r > hall.price as real
  {
    (hall.price as real) * 1.1
  }

  /** The object `handlePaymentSuccess` passes to `addBooking`, exactly as the source builds it. */
  function HallPayload(hall: Hall, form: HallForm, parsedGuestCount: int): (p: Payload)
    ensures p.id.None? && p.status.None? && p.createdAt.None?
    ensures p.info.bookingType == "hall" && p.info.paymentStatus == "completed"
    ensures p.info.customerName == form.customerName && p.info.email == form.email
    ensures p.info.phone == form.phone && p.info.specialRequests == form.specialRequests
    ensures p.info.details.HallDetails? && p.info.details.hallId == hall.id && p.info.details.hallName == hall.name
    ensures p.info.details.eventDate == form.eventDate && p.info.details.eventTime == form.eventTime
    ensures p.info.details.guestCount == parsedGuestCount
    ensures p.info.totalAmount == hall.price as real
  {
    Payload(
      BookingInfo("hall", form.customerName, form.email, form.phone, form.specialRequests,
                  HallDetails(hall.id, hall.name, form.eventDate, form.eventTime, parsedGuestCount),
                  hall.price as real, "completed"),
      None, None, None)
  }

  /**
   * As written, a paid hall booking is stored below what was charged, and the dashboard
   * revenue grows by the bare price only.
   */
  lemma StoredBelowCharged(s: State, hall: Hall, form: HallForm, parsedGuestCount: int, now: Millis)
    requires hall.price > 0
    ensures var r := Step(s, AddBooking(HallPayload(hall, form, parsedGuestCount)), now);
      && r.bookings[|s.bookings|].info.totalAmount < ChargedAmount(hall)
      && Dashboard.Revenue(r.bookings) == Dashboard.Revenue(s.bookings) + hall.price as real
      && Dashboard.Revenue(r.bookings) < Dashboard.Revenue(s.bookings) + ChargedAmount(hall)
  {
    var p := HallPayload(hall, form, parsedGuestCount);
    AddedBooking(s, p, now);
    Dashboard.RevenueAfterAdd(s, p, now);
  }

  /** The Royal Grand Hall is charged 55000 but stored at 50000. */
  lemma RoyalGrandHallExample(form: HallForm, parsedGuestCount: int)
    ensures var hall := InitialState().halls[0];
      HallPayload(hall, form, parsedGuestCount).info.totalAmount == 50000.0 && ChargedAmount(hall) == 55000.0
  {
  }

  /** The payload with the stored total equal to the amount charged, as for rooms. */
  function CorrectedHallPayload(hall: Hall, form: HallForm, parsedGuestCount: int): (p: Payload)
    ensures p.info.totalAmount == ChargedAmount(hall)
    ensures p.info == HallPayload(hall, form, parsedGuestCount).info.(totalAmount := ChargedAmount(hall))
  {
    var q := HallPayload(hall, form, parsedGuestCount);
    q.(info := q.info.(totalAmount := ChargedAmount(hall)))
  }

  /** With the corrected payload, revenue grows by exactly the amount charged. */
  lemma CorrectedStoresCharged(s: State, hall: Hall, form: HallForm, parsedGuestCount: int, now: Millis)
    ensures var r := Step(s, AddBooking(CorrectedHallPayload(hall, form, parsedGuestCount)), now);
      && r.bookings[|s.bookings|].info.totalAmount == ChargedAmount(hall)
      && Dashboard.Revenue(r.bookings) == Dashboard.Revenue(s.bookings) + ChargedAmount(hall)
  {
    var p := CorrectedHallPayload(hall, form, parsedGuestCount);
    AddedBooking(s, p, now);
    Dashboard.RevenueAfterAdd(s, p, now);
  }

  /** The component's state: which hall is selected, which panel shows, and the form. */
  class HallBookingView {
    var selectedHall: Option<Hall>
    var showBookingForm: bool
    var showPayment: bool
    var bookingData: HallForm

    constructor ()
      ensures selectedHall == None && !showBookingForm && !showPayment && bookingData == EmptyHallForm()
    {
      selectedHall := None;
      showBookingForm := false;
      showPayment := false;
      bookingData := EmptyHallForm();
    }

    /** "Book Now" on a hall card. */
    method BookNow(hall: Hall)
      modifies this
      ensures selectedHall == Some(hall) && showBookingForm
      ensures showPayment == old(showPayment) && bookingData == old(bookingData)
    {
      selectedHall := Some(hall);
      showBookingForm := true;
    }

    /** The close button of the form. */
    method CloseForm()
      modifies this
      ensures selectedHall == None && !showBookingForm
      ensures showPayment == old(showPayment) && bookingData == old(bookingData)
    {
      showBookingForm := false;
      selectedHall := None;
    }

    /**
     * `handleBookingSubmit`: without a selected hall nothing happens; otherwise payment opens,
     * with no check of the form (the payload it builds there is never used).
     */
    method Submit() returns (paymentOpened: bool)
      modifies this
      ensures paymentOpened <==> old(selectedHall).Some?
      ensures showPayment == (old(showPayment) || paymentOpened)
      ensures selectedHall == old(selectedHall) && showBookingForm == old(showBookingForm)
      ensures bookingData == old(bookingData)
    {
      if selectedHall.None? {
        return false;
      }
      showPayment := true;
      paymentOpened := true;
    }

    /** The payment modal's close button. */
    method ClosePayment()
      modifies this
      ensures !showPayment
      ensures selectedHall == old(selectedHall) && showBookingForm == old(showBookingForm)
      ensures bookingData == old(bookingData)
    {
      showPayment := false;
    }

    /**
     * `handlePaymentSuccess`: exactly one `addBooking` with the hall payload, then the form is
     * emptied and the selection cleared. With no hall selected the source throws on
     * `selectedHall.id` before anything happens (`ok` is false).
     */
    method PaymentSuccess(store: Provider, parsedGuestCount: int, now: Millis) returns (ok: bool)
      modifies this, store
      ensures ok == old(selectedHall).Some?
      ensures ok ==> store.state == Step(old(store.state),
                                         AddBooking(HallPayload(old(selectedHall).value, old(bookingData), parsedGuestCount)), now)
      ensures ok ==> selectedHall == None && !showPayment && !showBookingForm && bookingData == EmptyHallForm()
      ensures !ok ==> store.state == old(store.state) && selectedHall == old(selectedHall)
      ensures !ok ==> showPayment == old(showPayment) && showBookingForm == old(showBookingForm)
      ensures !ok ==> bookingData == old(bookingData)
    {
      if selectedHall.None? {
        return false;
      }
      var booking := HallPayload(selectedHall.value, bookingData, parsedGuestCount);
      store.AddBooking(booking, now);
      showPayment := false;
      showBookingForm := false;
      selectedHall := None;
      bookingData := EmptyHallForm();
      ok := true;
    }
  }
}
