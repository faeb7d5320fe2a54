/**
 * The admin customer list (src/components/admin/CustomerManagement.js): customers are
 * not stored but derived by grouping the bookings by email, then searched.
 */
module CustomerManagement {
  import opened Common
  import opened Text
  import opened BookingStore
  import Dashboard

  datatype Customer = Customer(
    id: string,
    name: string,
    email: string,
    phone: string,
    bookings: seq<Booking>,
    totalSpent: real,
    lastBooking: Millis)

  /** The customer record pushed for the first booking with a new email. */
  function NewCustomer(b: Booking): Customer {
    Customer(b.info.email, b.info.customerName, b.info.email, b.info.phone, [b], b.info.totalAmount, b.createdAt)
  }

  /** `acc.find(c => c.email === email)`: the index of the first customer with that email, or |cs|. */
  function FindByEmail(cs: seq<Customer>, email: string): (k: nat)
    ensures k <= |cs|
    ensures k < |cs| ==> cs[k].email == email
    ensures forall j :: 0 <= j < k ==> cs[j].email != email
  {
    if cs == [] then 0
    else if cs[0].email == email then 0
    else 1 + FindByEmail(cs[1..], email)
  }

  /** One step of the `reduce`: extend the customer with that email, or append a new one. */
  function AddBooking(cs: seq<Customer>, b: Booking): seq<Customer> {
    var k := FindByEmail(cs, b.info.email);
    if k < |cs| then
      cs[k := cs[k].(bookings := cs[k].bookings + [b], totalSpent := cs[k].totalSpent + b.info.totalAmount)]
    else
      cs + [NewCustomer(b)]
  }

  /** The `customers` array the `reduce` builds from the bookings, left to right. */
  function Customers(bs: seq<Booking>): seq<Customer>
    decreases |bs|
  {
    if bs == [] then [] else AddBooking(Customers(bs[..|bs| - 1]), bs[|bs| - 1])
  }

  function Emails(cs: seq<Customer>): (r: seq<string>)
    ensures |r| == |cs| && forall i :: 0 <= i < |cs| ==> r[i] == cs[i].email
  {
    seq(|cs|, i requires 0 <= i < |cs| => cs[i].email)
  }

  function BookingEmails(bs: seq<Booking>): (r: seq<string>)
    ensures |r| == |bs| && forall i :: 0 <= i < |bs| ==> r[i] == bs[i].info.email
  {
    seq(|bs|, i requires 0 <= i < |bs| => bs[i].info.email)
  }

  /** The test `booking.email === email`. */
  function EmailIs(email: string): Booking -> bool {
    (b: Booking) => b.info.email == email
  }

  /** The bookings made with one email, in their original order. */
  function ByEmail(bs: seq<Booking>, email: string): seq<Booking> {
    Filter(bs, EmailIs(email))
  }

  /**
   * What a customer derived from `bs` holds: its id is its email, its bookings are exactly
   * the bookings with that email, its total is their sum, and name, phone and last booking
   * come from the first of them.
   */
  predicate CustomerOf(bs: seq<Booking>, c: Customer) {
    && c.id == c.email
    && c.bookings == ByEmail(bs, c.email)
    && c.bookings != []
    && c.name == c.bookings[0].info.customerName
    && c.phone == c.bookings[0].info.phone
    && c.lastBooking == c.bookings[0].createdAt
    && c.totalSpent == SumAmounts(c.bookings)
  }

  /** One customer per distinct email, in order of first appearance, each as `CustomerOf` says. */
  predicate GroupedByEmail(bs: seq<Booking>, cs: seq<Customer>) {
    && Emails(cs) == Dedup(BookingEmails(bs))
    && forall k :: 0 <= k < |cs| ==> CustomerOf(bs, cs[k])
  }

  lemma ByEmailAppend(bs: seq<Booking>, b: Booking, email: string)
    ensures ByEmail(bs + [b], email) == ByEmail(bs, email) + (if b.info.email == email then [b] else [])
  {
    FilterAppend(bs, [b], EmailIs(email));
  }

  /** The emails of `bs + [b]`, deduplicated, gain `b`'s email unless it was already there. */
  lemma DedupStep(bs: seq<Booking>, b: Booking)
    ensures var d := Dedup(BookingEmails(bs));
      Dedup(BookingEmails(bs + [b])) == if b.info.email in d then d else d + [b.info.email]
  {
    assert BookingEmails(bs + [b])[..|bs|] == BookingEmails(bs);
  }

  /** A customer whose email differs from the new booking's is not affected by it. */
  lemma OtherCustomerKept(bs: seq<Booking>, b: Booking, c: Customer)
    requires CustomerOf(bs, c) && c.email != b.info.email
    ensures CustomerOf(bs + [b], c)
  {
    ByEmailAppend(bs, b, c.email);
  }

  /** Appending a booking to an existing customer keeps it a customer of the longer list. */
  lemma ExistingCustomerGrows(bs: seq<Booking>, b: Booking, c: Customer)
    requires CustomerOf(bs, c) && c.email == b.info.email
    ensures CustomerOf(bs + [b], c.(bookings := c.bookings + [b], totalSpent := c.totalSpent + b.info.totalAmount))
  {
    ByEmailAppend(bs, b, c.email);
    SumAmountsAppend(c.bookings, [b]);
  }

  /** The first booking with a new email makes a customer of the longer list. */
  lemma NewCustomerFormed(bs: seq<Booking>, b: Booking)
    requires forall i :: 0 <= i < |bs| ==> bs[i].info.email != b.info.email
    ensures CustomerOf(bs + [b], NewCustomer(b))
  {
    FilterNone(bs, EmailIs(b.info.email));
    ByEmailAppend(bs, b, b.info.email);
  }

  /** Replacing a customer by one with the same email keeps the list of emails. */
  lemma EmailsKept(cs: seq<Customer>, k: nat, c: Customer)
    requires k < |cs| && c.email == cs[k].email
    ensures Emails(cs[k := c]) == Emails(cs)
  {
    assert forall i :: 0 <= i < |cs| ==> Emails(cs[k := c])[i] == Emails(cs)[i];
  }

  /** A booking whose email already has a customer extends that customer. */
  lemma {:induction false} GroupedExisting(bs: seq<Booking>, cs: seq<Customer>, b: Booking)
    requires GroupedByEmail(bs, cs)
    requires FindByEmail(cs, b.info.email) < |cs|
    ensures GroupedByEmail(bs + [b], AddBooking(cs, b))
  {
    var e := b.info.email;
    var k := FindByEmail(cs, e);
    var grown := cs[k].(bookings := cs[k].bookings + [b], totalSpent := cs[k].totalSpent + b.info.totalAmount);
    var r := cs[k := grown];
    assert r == AddBooking(cs, b);
    var d := Dedup(BookingEmails(bs));
    assert e in d by {
      assert Emails(cs)[k] == e;
    }
    DedupStep(bs, b);
    EmailsKept(cs, k, grown);
    assert Emails(r) == Dedup(BookingEmails(bs + [b]));
    forall j | 0 <= j < |r|
      ensures CustomerOf(bs + [b], r[j])
    {
      assert CustomerOf(bs, cs[j]);
      if j == k {
        ExistingCustomerGrows(bs, b, cs[k]);
      } else {
        assert cs[j].email != e by {
          assert Emails(cs)[j] == cs[j].email && Emails(cs)[k] == e;
        }
        OtherCustomerKept(bs, b, cs[j]);
      }
    }
  }

  /** A booking with an email not seen before appends a new customer. */
  lemma {:induction false} GroupedNew(bs: seq<Booking>, cs: seq<Customer>, b: Booking)
    requires GroupedByEmail(bs, cs)
    requires FindByEmail(cs, b.info.email) == |cs|
    ensures GroupedByEmail(bs + [b], AddBooking(cs, b))
  {
    var e := b.info.email;
    var d := Dedup(BookingEmails(bs));
    var r := cs + [NewCustomer(b)];
    assert r == AddBooking(cs, b);
    assert e !in d;
    DedupStep(bs, b);
    forall i | 0 <= i < |bs|
      ensures bs[i].info.email != e
    {
      assert BookingEmails(bs)[i] in d;
    }
    NewCustomerFormed(bs, b);
    assert Emails(r) == Emails(cs) + [e];
    forall j | 0 <= j < |r|
      ensures CustomerOf(bs + [b], r[j])
    {
      if j < |cs| {
        assert CustomerOf(bs, cs[j]);
        OtherCustomerKept(bs, b, cs[j]);
      }
    }
  }

  /** The reduce groups the bookings by email. */
  lemma {:induction false} CustomersGrouped(bs: seq<Booking>)
    ensures GroupedByEmail(bs, Customers(bs))
  {
    if bs != [] {
      var prefix := bs[..|bs| - 1];
      assert bs == prefix + [bs[|bs| - 1]];
      CustomersGrouped(prefix);
      var cs, b := Customers(prefix), bs[|bs| - 1];
      if FindByEmail(cs, b.info.email) < |cs| {
        GroupedExisting(prefix, cs, b);
      } else {
        GroupedNew(prefix, cs, b);
      }
    }
  }

  /** `customers.reduce(...)` over the bookings, with the accumulator updated in place. */
  method AggregateCustomers(bookings: seq<Booking>) returns (customers: seq<Customer>)
    ensures customers == Customers(bookings)
    ensures GroupedByEmail(bookings, customers)
  {
    customers := [];
    var i := 0;
    while i < |bookings|
      invariant 0 <= i <= |bookings|
      invariant customers == Customers(bookings[..i])
    {
      var booking := bookings[i];
      var k := FindByEmail(customers, booking.info.email);
      if k < |customers| {
        var existing := customers[k];
        customers := customers[k := existing.(bookings := existing.bookings + [booking],
                                              totalSpent := existing.totalSpent + booking.info.totalAmount)];
      } else {
        customers := customers + [NewCustomer(booking)];
      }
      assert bookings[..i + 1][..i] == bookings[..i];
      i := i + 1;
    }
    assert bookings[..|bookings|] == bookings;
    CustomersGrouped(bookings);
  }

  /** The first booking made with an email gives its customer's name, phone and last-booking date. */
  lemma DetailsFromFirstBooking(bs: seq<Booking>, k: nat, j: nat)
    requires k < |Customers(bs)| && j < |bs|
    requires bs[j].info.email == Customers(bs)[k].email
    requires forall i :: 0 <= i < j ==> bs[i].info.email != bs[j].info.email
    ensures var c := Customers(bs)[k];
      c.name == bs[j].info.customerName && c.phone == bs[j].info.phone && c.lastBooking == bs[j].createdAt
  {
    CustomersGrouped(bs);
    FilterFirst(bs, EmailIs(bs[j].info.email), j);
  }

  /**
   * Once the dashboard has sorted the store's list newest first, the booking that gives a
   * customer's details is that customer's newest one.
   */
  lemma LastBookingIsNewest(bs: seq<Booking>, k: nat)
    requires Dashboard.NewestFirst(bs) && k < |Customers(bs)|
    ensures var c := Customers(bs)[k];
      forall j :: 0 <= j < |c.bookings| ==> c.lastBooking >= c.bookings[j].createdAt
  {
    CustomersGrouped(bs);
    var c := Customers(bs)[k];
    FilterKeepsOrder(bs, EmailIs(c.email), (x: Booking, y: Booking) => x.createdAt >= y.createdAt);
  }

  /** Number of bookings over all customers. */
  function BookingCount(cs: seq<Customer>): nat {
    if cs == [] then 0 else |cs[0].bookings| + BookingCount(cs[1..])
  }

  /** `totalSpent` summed over all customers. */
  function SpentTotal(cs: seq<Customer>): real {
    if cs == [] then 0.0 else cs[0].totalSpent + SpentTotal(cs[1..])
  }

  lemma {:induction false} TotalsUpdate(cs: seq<Customer>, k: nat, c: Customer)
    requires k < |cs|
    ensures BookingCount(cs[k := c]) == BookingCount(cs) - |cs[k].bookings| + |c.bookings|
    ensures SpentTotal(cs[k := c]) == SpentTotal(cs) - cs[k].totalSpent + c.totalSpent
  {
    if k > 0 {
      assert cs[k := c][1..] == cs[1..][k - 1 := c];
      TotalsUpdate(cs[1..], k - 1, c);
    }
  }

  lemma {:induction false} TotalsAppend(cs: seq<Customer>, c: Customer)
    ensures BookingCount(cs + [c]) == BookingCount(cs) + |c.bookings|
    ensures SpentTotal(cs + [c]) == SpentTotal(cs) + c.totalSpent
  {
    if cs == [] {
      assert cs + [c] == [c];
    } else {
      assert (cs + [c])[1..] == cs[1..] + [c];
      TotalsAppend(cs[1..], c);
    }
  }

  /** Every booking lands in exactly one customer, and the totals spent add up to all amounts. */
  lemma {:induction false} CustomerTotals(bs: seq<Booking>)
    ensures BookingCount(Customers(bs)) == |bs|
    ensures SpentTotal(Customers(bs)) == SumAmounts(bs)
  {
    if bs == [] {
      return;
    }
    var n := |bs|;
    var prefix, b := bs[..n - 1], bs[n - 1];
    assert bs == prefix + [b];
    CustomerTotals(prefix);
    SumAmountsAppend(prefix, [b]);
    var cs := Customers(prefix);
    var k := FindByEmail(cs, b.info.email);
    if k < |cs| {
      TotalsUpdate(cs, k, cs[k].(bookings := cs[k].bookings + [b], totalSpent := cs[k].totalSpent + b.info.totalAmount));
    } else {
      TotalsAppend(cs, NewCustomer(b));
    }
  }

  /** Two bookings with the same email make one customer with both bookings and both amounts. */
  lemma SameEmailTwoBookings(b1: Booking, b2: Booking)
    requires b1.info.email == b2.info.email
    ensures |Customers([b1, b2])| == 1
    ensures Customers([b1, b2])[0].bookings == [b1, b2]
    ensures Customers([b1, b2])[0].totalSpent == b1.info.totalAmount + b2.info.totalAmount
  {
    assert [b1, b2][..1] == [b1];
    assert [b1][..0] == [];
    assert Customers([b1]) == [NewCustomer(b1)];
    assert FindByEmail([NewCustomer(b1)], b2.info.email) == 0;
  }

  predicate IsRepeat(c: Customer) {
    |c.bookings| > 1
  }

  /** The "Repeat Customers" count. */
  function RepeatCount(cs: seq<Customer>): nat {
    |Filter(cs, IsRepeat)|
  }

  lemma {:induction false} RepeatCountBound(cs: seq<Customer>)
    requires forall k :: 0 <= k < |cs| ==> cs[k].bookings != []
    ensures |cs| + RepeatCount(cs) <= BookingCount(cs)
  {
    if cs != [] {
      RepeatCountBound(cs[1..]);
    }
  }

  /** Each repeat customer accounts for at least one extra booking. */
  lemma RepeatCustomersBound(bs: seq<Booking>)
    ensures |Customers(bs)| + RepeatCount(Customers(bs)) <= |bs|
  {
    CustomersGrouped(bs);
    CustomerTotals(bs);
    RepeatCountBound(Customers(bs));
  }

  /** The search predicate: name or email case-insensitively, phone as typed. */
  predicate MatchesCustomer(c: Customer, term: string) {
    || Contains(Lower(c.name), Lower(term))
    || Contains(Lower(c.email), Lower(term))
    || Contains(c.phone, term)
  }

  /** `filteredCustomers`: the matching customers, in order. */
  function FilteredCustomers(cs: seq<Customer>, term: string): (r: seq<Customer>)
    ensures IsSubsequence(r, cs) && |r| <= |cs|
    ensures forall i :: 0 <= i < |r| ==> MatchesCustomer(r[i], term)
    ensures forall i :: 0 <= i < |cs| && MatchesCustomer(cs[i], term) ==> cs[i] in r
    ensures forall c :: multiset(r)[c] == if MatchesCustomer(c, term) then multiset(cs)[c] else 0
  {
    var keep := c => MatchesCustomer(c, term);
    FilterMultiset(cs, keep);
    Filter(cs, keep)
  }

  /** An empty search keeps every customer. */
  lemma EmptySearchKeepsAll(cs: seq<Customer>)
    ensures FilteredCustomers(cs, "") == cs
  {
    forall i | 0 <= i < |cs|
      ensures MatchesCustomer(cs[i], "")
    {
      ContainsEmpty(Lower(cs[i].name));
    }
    FilterAll(cs, c => MatchesCustomer(c, ""));
  }
}
