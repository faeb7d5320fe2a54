# Marriage-hall and room booking: a Dafny model

This project models the booking core of a venue-booking web application. Customers
book marriage halls and hotel rooms through a payment dialog. Every booking goes into a
client-side store. An admin area then shows the bookings, the derived customers and
summary figures. The model covers:

- the store reducer: adding a booking with its admin notification, changing a booking's
  status, marking a notification read, and loading a saved snapshot;
- the room and hall booking forms: night count, 10% service charge, check-out floor,
  submit guards, the payload handed to the store, and the reset after payment;
- the admin views: the booking search and filters, the status badge and payment label,
  the pending-only confirm/cancel actions, the dashboard figures, the five most recent
  bookings, the first three notifications, and the customers grouped by email;
- the card-input formatters of the payment dialog;
- the sign-in rule and the session store with its derived role flags.

Modules follow the source files:

- `BookingStore`: BookingContext.js.
- `RoomBooking`, `HallBooking`, `PaymentModal`: the customer components.
- `BookingManagement`, `Dashboard`, `CustomerManagement`: the admin components.
- `SignIn`, `AuthContext`: sign-in and the session.
- `Common` and `Text`: the JavaScript built-ins the views rely on, namely `filter`,
  first-occurrence deduplication, ASCII `toLowerCase`, `includes`, and stripping
  non-digits.

The reducer and the formatters are functions. State that components update step by step
is modelled as classes whose methods change their fields. These are the booking store
provider, the two booking forms, the payment form, the sign-in form and the session
provider. Each method is specified by the reducer or by a function of the old state.

The modelling choices are:

- Money is `real`, so the ×1.1 factor is exact.
- Dates are day numbers, with `None` for an empty date input.
- One clock reading `now` supplies a booking's `id` and `createdAt`, and the id and
  timestamp of its notification.
- `parseInt` results are passed in as parameters.
- The payment dialog's delay is not modelled; the success callback is modelled directly
  as the `PaymentSuccess` methods.
- The dashboard's `sort` runs on the store's own bookings list, so after a dashboard visit
  the store, the booking table and the customer list all see that list newest first.
  `Dashboard.SortStoreBookings` reorders the store's state accordingly.

## Model

| member | source | states |
|---|---|---|
| BookingStore.InitialState | src/context/BookingContext.js:5-66 | The store starts with no bookings and no notifications. It has three halls and three rooms, numbered 1 to 3, each with a positive price; the halls also have positive capacities. |
| BookingStore.Step | src/context/BookingContext.js:68-117 | ADD_BOOKING appends exactly one booking and one notification, keeping the earlier ones and the halls and rooms. UPDATE_BOOKING_STATUS keeps the booking count and every other list. MARK_NOTIFICATION_READ keeps the notification count and every other list. An unknown action returns the state unchanged. |
| BookingStore.AddedBooking | src/context/BookingContext.js:70-76 | The appended booking carries every payload field, including `paymentStatus`. Its `id` and `createdAt` are the clock reading and its status is `pending`. |
| BookingStore.PayloadKeysOverridden | src/context/BookingContext.js:71-76 | Payloads that differ only in `id`, `status` or `createdAt` keys give the same new state, so those keys are always overridden. |
| BookingStore.AddedNotification | src/context/BookingContext.js:80-85 | The appended notification is unread and says "New <type> booking received from <customerName>". |
| BookingStore.SetStatus | src/context/BookingContext.js:91-95 | Length and order are kept. Every booking whose id matches gets the new status, and ids, payload fields and creation times are untouched. |
| BookingStore.UpdateSetsMatching | src/context/BookingContext.js:88-96 | After an update, each matching booking equals the old one with the new status, and every other booking is unchanged. |
| BookingStore.UnknownIdNoChange | src/context/BookingContext.js:88-96 | An id that no booking has leaves the whole state equal to before. |
| BookingStore.NoTerminalGuard | src/context/BookingContext.js:91-95 | A confirmed booking can be cancelled and then put back to pending: no status is final. |
| BookingStore.MarkRead | src/context/BookingContext.js:101-105 | A notification is read afterwards iff it was read before or its id matches. Ids, messages and timestamps are kept. |
| BookingStore.MarkReadIdempotent | src/context/BookingContext.js:98-106 | Marking the same id read twice gives the same state as marking it once. |
| BookingStore.MarkReadOnlySets | src/context/BookingContext.js:98-106 | The read flag is only ever set, never cleared, and it is set on every matching notification. |
| BookingStore.Save | src/context/BookingContext.js:129-131 | The saved snapshot carries all four top-level keys. |
| BookingStore.LoadSavedRoundTrip | src/context/BookingContext.js:108-112 | Loading a saved snapshot reproduces the saved state exactly, whatever the state before. |
| BookingStore.LoadDataShallowMerge | src/context/BookingContext.js:108-112 | Each key present in the payload replaces the state's value and each absent key keeps it. An empty payload changes nothing. |
| BookingStore.SumAmountsAppend | src/components/admin/Dashboard.js:21-23 | The `totalAmount` sum over a concatenation is the sum of the two sums. |
| BookingStore.Provider.constructor | src/context/BookingContext.js:120 | The provider starts from the built-in initial state. |
| BookingStore.Provider.Restore | src/context/BookingContext.js:122-127 | A saved snapshot is loaded through LOAD_DATA and a missing one changes nothing. An unparseable one throws, which is reported as `crashed`, and loads nothing. |
| BookingStore.Provider.AddBooking | src/context/BookingContext.js:133-135 | The new state is the reducer applied to ADD_BOOKING. |
| BookingStore.Provider.UpdateBookingStatus | src/context/BookingContext.js:137-139 | The new state is the reducer applied to UPDATE_BOOKING_STATUS. |
| BookingStore.Provider.MarkNotificationRead | src/context/BookingContext.js:141-143 | The new state is the reducer applied to MARK_NOTIFICATION_READ. |
| RoomBooking.Nights | src/components/RoomBooking.js:21-27 | Nights are never negative. They are 0 exactly when a date is missing or the dates are equal, and the plain difference when the dates are in order. |
| RoomBooking.NightsSymmetric | src/components/RoomBooking.js:23-26 | Swapping check-in and check-out gives the same count, so reversed dates still count nights. |
| RoomBooking.TotalAmount | src/components/RoomBooking.js:29-34 | The total is 1.1 × price × nights. It is 0 for no nights and above the base price for a positive stay. |
| RoomBooking.MinCheckOut | src/components/RoomBooking.js:85-94 | The earliest check-out is the day after check-in, or today when check-in is empty. |
| RoomBooking.FloorGivesNights | src/components/RoomBooking.js:89-94 | Any check-out on or after that floor gives at least one night. |
| RoomBooking.SubmitDecision | src/components/RoomBooking.js:36-47 | Payment opens iff a room is selected and the stay has at least one night, which is also when the submit button is enabled (line 322). Without a room nothing happens. |
| RoomBooking.RoomPayload | src/components/RoomBooking.js:49-60 | The payload has type `room`, the selected room's id and name, the form fields, and the computed nights. Its total is 1.1 × price × nights, `guests` is the parsed integer and `paymentStatus` is `completed`. It has no id, status or creation keys. |
| RoomBooking.RoomStoresCharged | src/components/RoomBooking.js:49-62 | The stored room booking keeps the total the payment dialog charged. It is pending with a completed payment. |
| RoomBooking.RoomBookingView.constructor | src/components/RoomBooking.js:8-19 | Nothing is selected, no panel is open, and the form is empty with one guest. |
| RoomBooking.RoomBookingView.BookNow | src/components/RoomBooking.js:153-156 | "Book Now" selects the room and opens the form. |
| RoomBooking.RoomBookingView.CloseForm | src/components/RoomBooking.js:171-174 | Closing the form clears the selection. |
| RoomBooking.RoomBookingView.Submit | src/components/RoomBooking.js:36-47 | The outcome is the submit rule above. Only the payment flag may change, and it is set exactly when payment opens. |
| RoomBooking.RoomBookingView.ClosePayment | src/components/RoomBooking.js:337 | Closing the dialog hides it and changes nothing else. |
| RoomBooking.RoomBookingView.PaymentSuccess | src/components/RoomBooking.js:49-76 | With a room selected, there is exactly one ADD_BOOKING with the room payload. Then the panels close, the selection is cleared and the form is reset. Without a room, nothing changes. |
| HallBooking.ChargedAmount | src/components/HallBooking.js:314 | The amount given to the payment dialog is the price plus a tenth, which is above the price when the price is positive. |
| HallBooking.HallPayload | src/components/HallBooking.js:37-46 | The payload has type `hall`, the selected hall's id and name, the form fields, the parsed `guestCount` and `paymentStatus` `completed`. Its stored total is the bare hall price. |
| HallBooking.StoredBelowCharged | src/components/HallBooking.js:37-48 | For a positive price, the stored hall booking is below the amount charged, and dashboard revenue grows by the bare price only. |
| HallBooking.RoyalGrandHallExample | src/components/HallBooking.js:43 | The first catalogue hall is charged 55000 but stored at 50000. |
| HallBooking.CorrectedHallPayload | src/components/HallBooking.js:37-46 | The corrected payload is the same payload with the stored total equal to the charged amount. |
| HallBooking.CorrectedStoresCharged | src/components/HallBooking.js:37-48 | With the corrected payload, the stored total and the revenue increase both equal the charged amount. |
| HallBooking.HallBookingView.constructor | src/components/HallBooking.js:8-19 | Nothing is selected, no panel is open, and every form field is empty. |
| HallBooking.HallBookingView.BookNow | src/components/HallBooking.js:130-133 | "Book Now" selects the hall and opens the form. |
| HallBooking.HallBookingView.CloseForm | src/components/HallBooking.js:148-151 | Closing the form clears the selection. |
| HallBooking.HallBookingView.Submit | src/components/HallBooking.js:21-35 | The handler opens payment iff a hall is selected; it checks nothing in the form itself. Nothing else changes. |
| HallBooking.HallBookingView.ClosePayment | src/components/HallBooking.js:316 | Closing the dialog hides it and changes nothing else. |
| HallBooking.HallBookingView.PaymentSuccess | src/components/HallBooking.js:37-62 | With a hall selected, there is exactly one ADD_BOOKING with the hall payload. Then the panels close, the selection is cleared and every field is emptied. Without a hall, nothing changes. |
| Dashboard.ComputeStats | src/components/admin/Dashboard.js:17-26 | The total is the booking count. Pending and confirmed are the numbers of bookings with that status, and together they are at most the total. The venue count is halls + rooms. Unread is the number of unread notifications, at most the notification count. Revenue is the sum over completed payments. |
| Dashboard.InitialStats | src/components/admin/Dashboard.js:17-26 | With the built-in catalogue, the figures are 0 bookings, 0 revenue, 6 venues and no unread notifications. |
| Dashboard.RevenueAfterAdd | src/components/admin/Dashboard.js:21-23 | A new booking raises revenue by its amount iff its payment is completed. |
| Dashboard.RevenueOnlyReadsInfo | src/components/admin/Dashboard.js:21-23 | Revenue depends only on the payload fields of the bookings. |
| Dashboard.RevenueAfterStatusUpdate | src/components/admin/Dashboard.js:21-23 | Confirming or cancelling a booking never changes revenue. |
| Dashboard.UnreadAfterAdd | src/components/admin/Dashboard.js:25 | Each new booking adds exactly one unread notification. |
| Dashboard.UnreadAfterMarkRead | src/components/admin/Dashboard.js:25 | Marking a notification read never raises the unread count. |
| Dashboard.SortNewestFirst | src/components/admin/Dashboard.js:28-29 | The array is reordered in place, newest first, and holds the same multiset of bookings. |
| Dashboard.SortStoreBookings | src/components/admin/Dashboard.js:28-29 | The sort runs on the store's own bookings list: afterwards that list is newest first and a permutation of what it held, and halls, rooms and notifications are unchanged. |
| Dashboard.RecentBookings | src/components/admin/Dashboard.js:28-30 | The result is the first five (or fewer) of the store's list after that sort: newest first, all from the original list, none older than any booking left out. The store's list stays sorted newest first, as a permutation of what it held. |
| Dashboard.ShownNotifications | src/components/admin/Dashboard.js:246 | Exactly min(3, n) notifications are shown, the first ones in list order. |
| BookingManagement.FilteredBookings | src/components/admin/BookingManagement.js:24-34 | The result is an order-preserving subsequence. A booking is kept iff it matches the search, the status filter (`all` or equal) and the type filter (`all` or equal). Each kept booking appears as often as in the input. |
| BookingManagement.TableNewestFirst | src/components/admin/BookingManagement.js:24-34 | Once the dashboard has sorted the store newest first, the filtered table is newest first too. |
| BookingManagement.EmptySearchMatches | src/components/admin/BookingManagement.js:25-28 | An empty search matches every booking. |
| BookingManagement.NoFilterShowsAll | src/components/admin/BookingManagement.js:24-34 | An empty search with both filters on `all` shows every booking, in order. |
| BookingManagement.SearchIgnoresCase | src/components/admin/BookingManagement.js:25-28 | The search term's case does not matter. |
| BookingManagement.StatusColor | src/components/admin/BookingManagement.js:51-62 | The gray default is used exactly for statuses other than confirmed, pending and cancelled. |
| BookingManagement.StatusColorsDistinct | src/components/admin/BookingManagement.js:51-62 | Confirmed, pending and cancelled get three different colours. |
| BookingManagement.PaymentLabel | src/components/admin/BookingManagement.js:210 | The label is "Paid" iff the payment is completed, and "Pending" otherwise. |
| BookingManagement.OfferedStatusChanges | src/components/admin/BookingManagement.js:227-242 | Actions are offered iff the booking is pending. A pending booking is offered both confirm and cancel, and nothing else. The detail view at lines 367-388 follows the same rule. |
| BookingManagement.OfferedChangeIsFinal | src/components/admin/BookingManagement.js:367-388 | An offered change applies to a pending booking and sets the chosen status. Afterwards no further action is offered for that booking. |
| CustomerManagement.FindByEmail | src/components/admin/CustomerManagement.js:11 | The index returned is the first customer with that email, or the list length if there is none. |
| CustomerManagement.OtherCustomerKept | src/components/admin/CustomerManagement.js:10-27 | A booking with another email leaves a customer's record valid. |
| CustomerManagement.ExistingCustomerGrows | src/components/admin/CustomerManagement.js:12-14 | Appending the booking and adding its amount keeps the customer's record exact. |
| CustomerManagement.NewCustomerFormed | src/components/admin/CustomerManagement.js:15-25 | The first booking with an email makes a valid customer record. |
| CustomerManagement.GroupedExisting | src/components/admin/CustomerManagement.js:11-14 | A booking with a known email keeps the list grouped by email. |
| CustomerManagement.GroupedNew | src/components/admin/CustomerManagement.js:15-25 | A booking with a new email keeps the list grouped, with the new customer last. |
| CustomerManagement.CustomersGrouped | src/components/admin/CustomerManagement.js:10-27 | There is one customer per distinct email, in order of first appearance, with `id` equal to the email. Each customer's bookings are exactly the bookings with that email, in order. `totalSpent` is their sum. Name, phone and last booking come from the first of them. |
| CustomerManagement.AggregateCustomers | src/components/admin/CustomerManagement.js:10-27 | The loop that updates the accumulator in place yields the customers above, grouped by email. |
| CustomerManagement.DetailsFromFirstBooking | src/components/admin/CustomerManagement.js:18-23 | A customer's name, phone and last booking are those of the first booking with its email in the list given. Later bookings in that list never update them. |
| CustomerManagement.LastBookingIsNewest | src/components/admin/CustomerManagement.js:18-23 | Once the dashboard has sorted the store newest first, that first booking is the customer's newest one, so `lastBooking` is at least every booking's `createdAt`. |
| CustomerManagement.CustomerTotals | src/components/admin/CustomerManagement.js:13-22 | The customers' booking counts add up to the number of bookings, and their `totalSpent` values add up to the sum over all bookings. |
| CustomerManagement.SameEmailTwoBookings | src/components/admin/CustomerManagement.js:11-14 | Two bookings with one email make one customer holding both bookings and both amounts. |
| CustomerManagement.RepeatCountBound | src/components/admin/CustomerManagement.js:105 | Customers plus repeat customers are at most the total booking count. |
| CustomerManagement.RepeatCustomersBound | src/components/admin/CustomerManagement.js:105 | Over the aggregated customers, customers plus repeat customers are at most the number of bookings. |
| CustomerManagement.FilteredCustomers | src/components/admin/CustomerManagement.js:29-33 | The result is an order-preserving subsequence. A customer is kept iff its name or email contains the search case-insensitively, or its phone contains it as typed. Each kept customer appears as often as in the input. |
| CustomerManagement.EmptySearchKeepsAll | src/components/admin/CustomerManagement.js:29-33 | An empty search keeps every customer. |
| PaymentModal.Groups | src/components/PaymentModal.js:26-28 | There is one piece per started four characters. Each piece is 1 to 4 long, and all but the last are exactly 4. |
| PaymentModal.GroupsAreSlices | src/components/PaymentModal.js:26-28 | Piece j is `substring(4j, 4j + 4)` of the input. |
| PaymentModal.GroupsConcat | src/components/PaymentModal.js:26-28 | The pieces laid end to end give back the input. |
| PaymentModal.Join | src/components/PaymentModal.js:30 | Joining adds exactly one separator between consecutive pieces. |
| PaymentModal.JoinShape | src/components/PaymentModal.js:29-31 | Joining non-empty digit groups gives only digits and single spaces, each space between two digits. |
| PaymentModal.JoinDigits | src/components/PaymentModal.js:29-31 | Removing the spaces from the joined groups gives the groups laid end to end. |
| PaymentModal.CardNumberDigits | src/components/PaymentModal.js:21-34 | The output's digits are the first min(n, 16) digits typed. With fewer than 4 digits, the output is the stripped digits unchanged. |
| PaymentModal.CardNumberShape | src/components/PaymentModal.js:21-34 | The output has only digits and single separating spaces, with none leading or trailing. It is at most 19 characters long, so the guard at line 46 never rejects it. |
| PaymentModal.CardNumberGrouped | src/components/PaymentModal.js:23-31 | With at least 4 digits, the output is its own digits in groups of four. |
| PaymentModal.CardNumberIdempotent | src/components/PaymentModal.js:21-34 | Formatting a formatted number changes nothing. |
| PaymentModal.FormatCardNumber | src/components/PaymentModal.js:21-34 | The loop that pushes the four-character slices computes the format above. |
| PaymentModal.ExpiryShape | src/components/PaymentModal.js:36-42 | The output is at most 5 characters. From 2 digits on, it is the first two digits, `/`, then the third and fourth digits if typed, so it holds the first min(n, 4) digits. Below 2 digits, it is the digits. |
| PaymentModal.ExpiryIdempotent | src/components/PaymentModal.js:36-42 | Formatting a formatted expiry date changes nothing. |
| PaymentModal.PaymentForm.constructor | src/components/PaymentModal.js:7-12 | All four card fields start empty. |
| PaymentModal.PaymentForm.CardNumberChanged | src/components/PaymentModal.js:44-49 | The card number always becomes the formatted input, and the other fields are kept. |
| PaymentModal.PaymentForm.ExpiryChanged | src/components/PaymentModal.js:51-56 | The expiry always becomes the formatted input, and the other fields are kept. |
| PaymentModal.PaymentForm.CvvChanged | src/components/PaymentModal.js:58-63 | The CVV becomes the digits typed iff there are at most three of them. Otherwise every field is unchanged. |
| PaymentModal.PaymentForm.CardholderNameChanged | src/components/PaymentModal.js:182 | The cardholder name takes the text as typed, and the other fields are kept. |
| SignIn.Decide | src/components/auth/SignIn.js:21-39 | The user is signed in iff both fields are non-empty, as either `admin` or `user`. Otherwise the error is "Please enter both username and password". |
| SignIn.AdminOnlyWithAdminCredentials | src/components/auth/SignIn.js:21-28 | The admin role, shown as "Administrator", is given iff the credentials are exactly admin/admin123. |
| SignIn.OtherPairsAreUsers | src/components/auth/SignIn.js:29-36 | Any other non-empty pair signs in as `user` under the typed name. |
| SignIn.WrongAdminPasswordIsUser | src/components/auth/SignIn.js:21-36 | `admin` with a wrong non-empty password is an ordinary user named "admin". |
| SignIn.SignInForm.constructor | src/components/auth/SignIn.js:5-11 | Both fields and the error are empty, and the form is not loading. |
| SignIn.SignInForm.Submit | src/components/auth/SignIn.js:13-42 | Exactly one of two things happens. Either the session is saved and `login` is called with the decided role and name, or the error is set and the session is untouched. Loading is off afterwards, and the typed fields are kept. |
| SignIn.SignInForm.InputChanged | src/components/auth/SignIn.js:44-50 | Only the named field takes the typed value, and any error is cleared. |
| AuthContext.FlagsOf | src/context/AuthContext.js:43-45 | `isAuthenticated` iff there is a user. `isAdmin` iff its type is `admin` and `isUser` iff its type is `user`. |
| AuthContext.RolesExclusive | src/context/AuthContext.js:44-45 | `isAdmin` and `isUser` are never both true, and either one implies `isAuthenticated`. |
| AuthContext.RestoredUser | src/context/AuthContext.js:11-17 | The saved record becomes the user iff it parses and says it is authenticated. Otherwise the user is kept. |
| AuthContext.RestoredSlot | src/context/AuthContext.js:11-20 | An unparseable saved entry is removed, and any other entry is kept. |
| AuthContext.LoginSurvivesReload | src/context/AuthContext.js:25-33 | What `login` saves is restored as the same signed-in user. |
| AuthContext.LogoutSurvivesReload | src/context/AuthContext.js:35-38 | After `logout`, a reload restores no user. |
| AuthContext.RestoreIdempotent | src/context/AuthContext.js:9-23 | Restoring twice is the same as restoring once. |
| AuthContext.AuthProvider.constructor | src/context/AuthContext.js:6-7 | The provider starts with no user and loading. |
| AuthContext.AuthProvider.Restore | src/context/AuthContext.js:9-23 | The user and the saved entry become the restored ones, and loading is off in every case. |
| AuthContext.AuthProvider.Login | src/context/AuthContext.js:25-33 | The user is `{type, username, isAuthenticated: true}` and the same record is saved. |
| AuthContext.AuthProvider.Logout | src/context/AuthContext.js:35-38 | There is no user and nothing saved, whatever the state before, including right after `login`. |

## Left out

- JSX rendering, styling, icons and modal visibility beyond the flags the handlers set.
  LandingPage.js, VenueManagement.js and AdminDashboard.js are layout and navigation
  only. App.js view selection is routing glue. ProtectedRoute.js is not part of this
  model: it reads `isAdminAuthenticated` and `loginAdmin`, which AuthContext.js does not
  provide.
- Hall and room image URLs are shortened to their photo ids. They are display data only.
- `localStorage` and JSON: the saved booking state is a snapshot value, and the saved
  session is a three-way slot (absent, unparseable, parsed record). A parsed session
  record is reduced to `{type, username, isAuthenticated}`, with `isAuthenticated` as a
  boolean. A `LOAD_DATA` payload carries only the four known keys, so extra keys are
  not modelled.
- `Date`: `Date.now()`, ISO strings, time zones and `toISOString`. A single integer
  `now` stands for every clock reading of one action. `createdAt` is that integer,
  not an ISO string, and booking ids are not claimed to be unique.
- RoomBooking.Nights: dates are whole day numbers, so `Math.ceil` of a fractional day
  difference is not modelled.
- The `setTimeout` delays in the payment dialog and the sign-in form. Their effect is
  modelled as happening at once. `processing` and the payment-method choice of the
  payment dialog are not modelled, because they only gate the success callback that the
  booking forms model.
- Floating point: amounts are exact reals, so IEEE rounding of `* 0.1` and `* 1.1` and the
  customer averages with their `NaN || 0` fallbacks are not modelled.
- `Intl.NumberFormat` and `toLocaleDateString` formatting, and the alert texts.
- Case folding is ASCII only. Unicode `toLowerCase` is not modelled.
- `parseInt` is not modelled: its result is a parameter (`parsedGuests`,
  `parsedGuestCount`).
- Dashboard.SortNewestFirst: the order among bookings with equal `createdAt` is not
  stated, because the source's sort stability is not relied on.
- RoomBooking.RoomBookingView.Submit and HallBooking.HallBookingView.Submit: the browser's
  HTML constraint validation is not modelled. That covers `required` on the form fields,
  the hall guest count's `min`/`max` and the date inputs' `min`. The model's Submit
  follows the handler alone, so it opens payment for inputs the page would refuse to
  submit, such as an empty name, too many hall guests or reversed room dates.
- RoomBooking.RoomBookingView.PaymentSuccess and HallBooking.HallBookingView.PaymentSuccess:
  with no selection, the source throws a TypeError. The model reports this as `ok`
  false with nothing changed; the exception itself is not modelled.
- Where the code's behaviour differs from what its UI or wording suggests, the code is
  followed. `calculateNights` counts reversed room dates as positive nights because it
  takes `Math.abs`. A status change has no terminal-state guard in the reducer. A corrupt
  saved booking state throws at start-up, because `JSON.parse` there has no `try`.

## Findings

| source | as written | input that shows it | evidently intended | confidence | as-written member | corrected member |
|---|---|---|---|---|---|---|
| src/components/HallBooking.js:43 | The stored `totalAmount` is `selectedHall.price`, while the payment dialog charges `selectedHall.price * 1.1` (line 314). | Royal Grand Hall (price 50000): 55000 charged, 50000 stored, and revenue grows by 50000. | Store the amount charged, as room bookings do (price plus the 10% service charge). | not executed | HallBooking.StoredBelowCharged | HallBooking.CorrectedStoresCharged |
