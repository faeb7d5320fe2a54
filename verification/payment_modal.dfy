/**
 * The card-input formatters of the payment dialog (src/components/PaymentModal.js):
 * the card number is reduced to its digits and shown in groups of four, the expiry date
 * as MM/YY, and the CVV is accepted only while it has at most three digits.
 */
module PaymentModal {
  import opened Common
  import opened Text

  function Min(a: int, b: int): int {
    if a <= b then a else b
  }

  predicate AllDigits(s: string) {
    forall i :: 0 <= i < |s| ==> IsDigit(s[i])
  }

  /**
   * The `substring(i, i + 4)` pieces of `v` for i = 0, 4, 8, ...: one piece per started
   * four characters, each one to four long, and all but the last exactly four.
   */
  function Groups(v: string): (g: seq<string>)
    ensures |g| == (|v| + 3) / 4
    ensures forall j :: 0 <= j < |g| ==> 1 <= |g[j]| <= 4
    ensures forall j :: 0 <= j < |g| - 1 ==> |g[j]| == 4
    decreases |v|
  {
    if v == [] then []
    else if |v| <= 4 then [v]
    else [v[..4]] + Groups(v[4..])
  }

  /** Piece j of the groups is the slice of `v` from 4 * j to 4 * j + 4, clamped at the end. */
  lemma {:induction false} GroupsAreSlices(v: string)
    ensures forall j :: 0 <= j < |Groups(v)| ==> 4 * j < |v| && Groups(v)[j] == v[4 * j..Min(4 * j + 4, |v|)]
  {
    if |v| > 4 {
      var rest := v[4..];
      GroupsAreSlices(rest);
      forall j | 0 <= j < |Groups(v)|
        ensures 4 * j < |v| && Groups(v)[j] == v[4 * j..Min(4 * j + 4, |v|)]
      {
        if j > 0 {
          assert Groups(v)[j] == Groups(rest)[j - 1];
          var lo, hi := 4 * (j - 1), Min(4 * (j - 1) + 4, |rest|);
          assert hi + 4 == Min(4 * j + 4, |v|);
          assert forall k :: 0 <= k < hi - lo ==> rest[lo..hi][k] == v[lo + 4..hi + 4][k];
        }
      }
    }
  }

  /** The pieces laid end to end. */
  function Concat(ps: seq<string>): string {
    if ps == [] then "" else ps[0] + Concat(ps[1..])
  }

  /** `parts.join(' ')`: one space between consecutive pieces. */
  function Join(ps: seq<string>): (r: string)
    ensures ps != [] ==> |r| == |Concat(ps)| + |ps| - 1
  {
    if ps == [] then ""
    else if |ps| == 1 then ps[0]
    else ps[0] + " " + Join(ps[1..])
  }

  /** Cutting into groups loses and reorders nothing. */
  lemma {:induction false} GroupsConcat(v: string)
    ensures Concat(Groups(v)) == v
  {
    if |v| > 4 {
      GroupsConcat(v[4..]);
      assert v == v[..4] + v[4..];
    } else if v != [] {
      assert Concat([v]) == v + Concat([]);
    }
  }

  /** The groups of a digit string are digit strings. */
  lemma GroupsAreDigits(v: string)
    requires AllDigits(v)
    ensures forall j :: 0 <= j < |Groups(v)| ==> AllDigits(Groups(v)[j])
  {
    GroupsAreSlices(v);
  }

  /**
   * A card number as displayed: digits, and single spaces that each sit between two digits,
   * so there is no leading, trailing or doubled space.
   */
  predicate CardShape(r: string) {
    forall i {:trigger r[i]} :: 0 <= i < |r| ==>
      IsDigit(r[i]) || (r[i] == ' ' && 0 < i < |r| - 1 && IsDigit(r[i - 1]) && IsDigit(r[i + 1]))
  }

  /** One position of a well-shaped card number: a digit, or a space between two digits. */
  lemma CardShapeAt(r: string, k: nat)
    requires CardShape(r) && k < |r|
    ensures IsDigit(r[k]) || (r[k] == ' ' && 0 < k < |r| - 1 && IsDigit(r[k - 1]) && IsDigit(r[k + 1]))
  {
  }

  /** Joining non-empty digit groups with spaces gives a well-shaped card number. */
  lemma {:induction false} JoinShape(ps: seq<string>)
    requires forall j :: 0 <= j < |ps| ==> ps[j] != [] && AllDigits(ps[j])
    ensures CardShape(Join(ps))
    ensures ps != [] ==> Join(ps) != []
  {
    if |ps| > 1 {
      JoinShape(ps[1..]);
      var a, b := ps[0], Join(ps[1..]);
      var r := Join(ps);
      assert r == a + " " + b;
      assert CardShape(b);
      assert IsDigit(b[0]);
      forall i | 0 <= i < |r|
        ensures IsDigit(r[i]) || (r[i] == ' ' && 0 < i < |r| - 1 && IsDigit(r[i - 1]) && IsDigit(r[i + 1]))
      {
        if i < |a| {
          assert r[i] == a[i];
          assert IsDigit(a[i]);
        } else if i == |a| {
          assert r[i - 1] == a[|a| - 1] && r[i + 1] == b[0];
          assert IsDigit(a[|a| - 1]);
        } else {
          var k := i - |a| - 1;
          assert r[i] == b[k];
          CardShapeAt(b, k);
          if !IsDigit(b[k]) {
            assert r[i - 1] == b[k - 1] && r[i + 1] == b[k + 1];
          }
        }
      }
    }
  }

  /** Stripping non-digits from joined digit groups gives the groups laid end to end. */
  lemma {:induction false} JoinDigits(ps: seq<string>)
    requires forall j :: 0 <= j < |ps| ==> AllDigits(ps[j])
    ensures Digits(Join(ps)) == Concat(ps)
  {
    if |ps| == 1 {
      DigitsOfDigits(ps[0]);
      assert Concat(ps) == ps[0] + Concat([]);
    } else if |ps| > 1 {
      JoinDigits(ps[1..]);
      DigitsAppend(ps[0] + " ", Join(ps[1..]));
      DigitsAppend(ps[0], " ");
      DigitsOfDigits(ps[0]);
      assert Digits(" ") == "";
    }
  }

  /**
   * `formatCardNumber`: with fewer than four digits in the input, the digits themselves;
   * otherwise the first (at most sixteen) digits in groups of four joined by spaces.
   */
  function CardNumberFormat(value: string): string {
    var v := Digits(value);
    if |v| < 4 then v else Join(Groups(v[..Min(16, |v|)]))
  }

  /** The digits shown are the first min(n, 16) digits typed; fewer than four are shown as they are. */
  lemma CardNumberDigits(value: string)
    ensures var v := Digits(value);
      && Digits(CardNumberFormat(value)) == v[..Min(16, |v|)]
      && (|v| < 4 ==> CardNumberFormat(value) == v)
  {
    var v := Digits(value);
    if |v| < 4 {
      DigitsOfDigits(v);
    } else {
      var m := v[..Min(16, |v|)];
      GroupsAreDigits(m);
      JoinDigits(Groups(m));
      GroupsConcat(m);
    }
  }

  /** The output is well shaped and at most 19 characters, so the length guard never rejects it. */
  lemma CardNumberShape(value: string)
    ensures CardShape(CardNumberFormat(value))
    ensures |CardNumberFormat(value)| <= 19
  {
    var v := Digits(value);
    if |v| >= 4 {
      var m := v[..Min(16, |v|)];
      GroupsAreDigits(m);
      JoinShape(Groups(m));
      GroupsConcat(m);
    }
  }

  /** With at least four digits, the output is its own digits in groups of four. */
  lemma CardNumberGrouped(value: string)
    ensures |Digits(value)| >= 4 ==>
      var r := CardNumberFormat(value);
      r == Join(Groups(Digits(r)))
  {
    CardNumberDigits(value);
  }

  /** Formatting an already formatted card number changes nothing. */
  lemma CardNumberIdempotent(value: string)
    ensures CardNumberFormat(CardNumberFormat(value)) == CardNumberFormat(value)
  {
    CardNumberDigits(value);
    var v := Digits(value);
    var r := CardNumberFormat(value);
    if |v| >= 4 {
      var m := v[..Min(16, |v|)];
      assert Digits(r) == m;
      assert m[..Min(16, |m|)] == m;
    }
  }

  /** One step of the loop: the first piece of a non-empty string, then the groups of the rest. */
  lemma GroupsStep(m: string, i: nat)
    requires i < |m|
    ensures Groups(m[i..]) == [m[i..Min(i + 4, |m|)]] + Groups(m[Min(i + 4, |m|)..])
  {
    var s := m[i..];
    if |s| <= 4 {
      assert m[Min(i + 4, |m|)..] == [];
      assert s == m[i..Min(i + 4, |m|)];
    } else {
      assert s[..4] == m[i..i + 4];
      assert s[4..] == m[i + 4..];
    }
  }

  /** `formatCardNumber`, with the `for` loop that pushes the four-character slices. */
  method FormatCardNumber(value: string) returns (formatted: string)
    ensures formatted == CardNumberFormat(value)
  {
    var v := Digits(value);
    var found := if |v| >= 4 then v[..Min(16, |v|)] else "";
    var parts: seq<string> := [];
    var i := 0;
    while i < |found|
      invariant 0 <= i
      invariant parts + Groups(found[Min(i, |found|)..]) == Groups(found)
      decreases |found| - i
    {
      GroupsStep(found, i);
      parts := parts + [found[i..Min(i + 4, |found|)]];
      i := i + 4;
    }
    assert found[Min(i, |found|)..] == [];
    assert parts == Groups(found);
    assert |parts| > 0 <==> |v| >= 4;
    if |parts| > 0 {
      formatted := Join(parts);
    } else {
      formatted := v;
    }
  }

  /** `formatExpiryDate`: the first two digits, a slash and up to two more digits. */
  function ExpiryFormat(value: string): string {
    var v := Digits(value);
    if |v| >= 2 then v[..2] + "/" + v[2..Min(4, |v|)] else v
  }

  /**
   * The expiry is at most five characters; from two digits on it is MM/ followed by up to
   * two digits and holds the first (at most four) digits typed, and below two it is the digits.
   */
  lemma ExpiryShape(value: string)
    ensures var v, r := Digits(value), ExpiryFormat(value);
      && |r| <= 5
      && (|v| >= 2 ==> 3 <= |r| && r[..2] == v[..2] && r[2] == '/' && r[3..] == v[2..Min(4, |v|)])
      && (|v| >= 2 ==> Digits(r) == v[..Min(4, |v|)])
      && (|v| < 2 ==> r == v)
  {
    var v, r := Digits(value), ExpiryFormat(value);
    if |v| >= 2 {
      DigitsAppend(v[..2] + "/", v[2..Min(4, |v|)]);
      DigitsAppend(v[..2], "/");
      DigitsOfDigits(v[..2]);
      DigitsOfDigits(v[2..Min(4, |v|)]);
      assert Digits("/") == "";
      assert v[..2] + v[2..Min(4, |v|)] == v[..Min(4, |v|)];
    }
  }

  /** Formatting an already formatted expiry date changes nothing. */
  lemma ExpiryIdempotent(value: string)
    ensures ExpiryFormat(ExpiryFormat(value)) == ExpiryFormat(value)
  {
    ExpiryShape(value);
    var v := Digits(value);
    if |v| < 2 {
      DigitsOfDigits(v);
    } else {
      var w := v[..Min(4, |v|)];
      assert w[..2] == v[..2];
      assert w[2..Min(4, |w|)] == v[2..Min(4, |v|)];
    }
  }

  datatype CardDetails = CardDetails(cardNumber: string, expiryDate: string, cvv: string, cardholderName: string)

  /** The `cardDetails` state of the payment dialog and its change handlers. */
  class PaymentForm {
    var cardDetails: CardDetails

    constructor()
      ensures cardDetails == CardDetails("", "", "", "")
    {
      cardDetails := CardDetails("", "", "", "");
    }

    /** `handleCardNumberChange`: the guard on 19 characters always admits the formatted number. */
    method CardNumberChanged(input: string)
      modifies this
      ensures cardDetails == old(cardDetails).(cardNumber := CardNumberFormat(input))
    {
      var formatted := FormatCardNumber(input);
      CardNumberShape(input);
      if |formatted| <= 19 {
        cardDetails := cardDetails.(cardNumber := formatted);
      }
    }

    /** `handleExpiryChange`: the guard on 5 characters always admits the formatted date. */
    method ExpiryChanged(input: string)
      modifies this
      ensures cardDetails == old(cardDetails).(expiryDate := ExpiryFormat(input))
    {
      var formatted := ExpiryFormat(input);
      ExpiryShape(input);
      if |formatted| <= 5 {
        cardDetails := cardDetails.(expiryDate := formatted);
      }
    }

    /** `handleCvvChange`: the digits typed replace the CVV only while there are at most three. */
    method CvvChanged(input: string)
      modifies this
      ensures |Digits(input)| <= 3 ==> cardDetails == old(cardDetails).(cvv := Digits(input))
      ensures |Digits(input)| > 3 ==> cardDetails == old(cardDetails)
      ensures AllDigits(cardDetails.cvv) || cardDetails.cvv == old(cardDetails).cvv
    {
      var value := Digits(input);
      if |value| <= 3 {
        cardDetails := cardDetails.(cvv := value);
      }
    }

    /** The cardholder field takes the text as typed. */
    method CardholderNameChanged(input: string)
      modifies this
      ensures cardDetails == old(cardDetails).(cardholderName := input)
    {
      cardDetails := cardDetails.(cardholderName := input);
    }
  }
}
