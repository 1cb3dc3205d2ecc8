/** The payment page: the guard that decides whether an order can be paid,
    the four input sanitisers of the card form (card number, card holder,
    expiry date, CVV), the validity rule of the form and its submission. */
module Payment {
  import opened Wrappers
  import opened Seqs
  import opened Text
  import opened Models
  import opened UserStore

  const CardNotDigits := "Broj kartice mora sadržati samo brojeve"
  const CardTooShort := "Broj kartice mora imati najmanje 16 cifara"
  const HolderNotLetters := "Ime vlasnika kartice može sadržati samo slova"
  const MonthOutOfRange := "Mesec mora biti između 01 i 12"
  const YearInPast := "Godina ne može biti u prošlosti"
  const YearTooFar := "Godina ne može biti više od 10 godina u budućnosti"
  const CvvNotDigits := "CVV mora sadržati samo brojeve"
  const CvvTooShort := "CVV mora imati 3 cifre"
  const CardRequired := "Broj kartice je obavezan"
  const HolderRequired := "Ime vlasnika kartice je obavezno"
  const ExpiryRequired := "Datum isteka je obavezan"
  const CvvRequired := "CVV je obavezan"

  /** At most this many card digits are kept. */
  const MaxCardDigits := 16

  function Min(a: int, b: int): int { if a <= b then a else b }

  // ------------------------------------------------------------- loadOrder

  /** Where `loadOrder` leads: to the login page, to the user page, or to the
      form for the order. */
  datatype Entry = ToLogin | ToUserPage | Pay(order: Order)

  /** `loadOrder` given the active user: no user or no order list leads to
      login; a missing or canceled order leads to the user page. */
  function EntryFor(user: Option<User>, orderId: int): (r: Entry)
    ensures r == ToLogin <==> user.None? || user.value.orders.None?
    ensures r.Pay? ==> (
      && user.Some? && user.value.orders.Some?
      && var os := user.value.orders.value;
         var i := FirstIndex(os, HasId(orderId));
         i.Some? && r.order == os[i.value] && r.order.status == Ordered)
    ensures r == ToUserPage <==> (
      && user.Some? && user.value.orders.Some?
      && var os := user.value.orders.value;
         var i := FirstIndex(os, HasId(orderId));
         i.None? || os[i.value].status == Canceled)
  {
    if user.None? || user.value.orders.None? then ToLogin
    else
      var os := user.value.orders.value;
      match FirstIndex(os, HasId(orderId))
      case None => ToUserPage
      case Some(i) => if os[i].status == Canceled then ToUserPage else Pay(os[i])
  }

  // ----------------------------------------------------------- card number

  /** The loop of `validateCardNumber` as a function: a space before every
      fourth digit but the first, then the digit. */
  function Grouped(d: string): string
    decreases |d|
  {
    if d == [] then []
    else
      var i := |d| - 1;
      Grouped(d[..i]) + (if i > 0 && i % 4 == 0 then " " else "") + [d[i]]
  }

  /** Groups of four: position `k` of the result holds a space when
      `k % 5 == 4` and digit `k - k / 5` of the input otherwise. */
  lemma {:induction false} GroupedShape(d: string)
    ensures |Grouped(d)| == if d == [] then 0 else |d| + (|d| - 1) / 4
    ensures forall k :: 0 <= k < |Grouped(d)| ==> Grouped(d)[k] == if k % 5 == 4 then ' ' else d[k - k / 5]
    decreases |d|
  {
    if d != [] {
      var i := |d| - 1;
      GroupedShape(d[..i]);
      var g, r := Grouped(d[..i]), Grouped(d);
      if i == 0 {
        assert r == [d[0]];
      } else if i % 4 == 0 {
        SpacedStep(d, g, r);
      } else {
        PlainStep(d, g, r);
      }
    }
  }

  /** The step of `GroupedShape` that opens a new group of four. */
  lemma SpacedStep(d: string, g: string, r: string)
    requires |d| >= 2 && (|d| - 1) % 4 == 0
    requires |g| == (|d| - 1) + (|d| - 2) / 4
    requires forall k :: 0 <= k < |g| ==> g[k] == if k % 5 == 4 then ' ' else d[..|d| - 1][k - k / 5]
    requires r == g + " " + [d[|d| - 1]]
    ensures |r| == |d| + (|d| - 1) / 4
    ensures forall k :: 0 <= k < |r| ==> r[k] == if k % 5 == 4 then ' ' else d[k - k / 5]
  {
    var i := |d| - 1;
    var m := i / 4;
    assert i == 4 * m && (i - 1) / 4 == m - 1 && |g| == 5 * m - 1;
    forall k | 0 <= k < |r| ensures r[k] == if k % 5 == 4 then ' ' else d[k - k / 5] {
      if k < |g| {
        assert r[k] == g[k];
      } else if k == |g| {
        assert k == 5 * (m - 1) + 4;
      } else {
        assert k == 5 * m && k / 5 == m;
      }
    }
  }

  /** The step of `GroupedShape` that adds a digit to the current group. */
  lemma PlainStep(d: string, g: string, r: string)
    requires |d| >= 2 && (|d| - 1) % 4 != 0
    requires |g| == (|d| - 1) + (|d| - 2) / 4
    requires forall k :: 0 <= k < |g| ==> g[k] == if k % 5 == 4 then ' ' else d[..|d| - 1][k - k / 5]
    requires r == g + [d[|d| - 1]]
    ensures |r| == |d| + (|d| - 1) / 4
    ensures forall k :: 0 <= k < |r| ==> r[k] == if k % 5 == 4 then ' ' else d[k - k / 5]
  {
    var i := |d| - 1;
    var m, j := i / 4, i % 4;
    assert i == 4 * m + j && 1 <= j <= 3 && (i - 1) / 4 == m && |g| == 5 * m + j;
    forall k | 0 <= k < |r| ensures r[k] == if k % 5 == 4 then ' ' else d[k - k / 5] {
      if k < |g| {
        assert r[k] == g[k];
      } else {
        assert k == 5 * m + j && k / 5 == m;
      }
    }
  }

  /** Removing the spaces from the grouped digits gives the digits back. */
  lemma {:induction false} GroupedUngroups(d: string)
    requires AllDigits(d)
    ensures WithoutSpaces(Grouped(d)) == d
    decreases |d|
  {
    if d != [] {
      var i := |d| - 1;
      var sep: string := if i > 0 && i % 4 == 0 then " " else "";
      var init := d[..i];
      var g := Grouped(init);
      assert Grouped(d) == (g + sep) + [d[i]];
      GroupedUngroups(init);
      assert Filter(g + sep, NotSpace) == init by {
        FilterAppend(g, sep, NotSpace);
        assert Filter(sep, NotSpace) == [] by {
          if sep != [] {
            assert !NotSpace(sep[0]) && sep[1..] == [];
          }
        }
      }
      assert Filter([d[i]], NotSpace) == [d[i]] by {
        assert IsDigit(d[i]) && [d[i]][1..] == [];
      }
      FilterAppend(g + sep, [d[i]], NotSpace);
      assert init + [d[i]] == d;
    }
  }

  /** The first sixteen digits (`i < digitsOnly.length && i < 16`). */
  function FirstDigits(d: string): (r: string)
    ensures |r| == Min(|d|, MaxCardDigits) && r == d[..|r|]
  {
    d[..Min(|d|, MaxCardDigits)]
  }

  /** The formatting loop of `validateCardNumber`. */
  method FormatCardDigits(digitsOnly: string) returns (formatted: string)
    ensures formatted == Grouped(FirstDigits(digitsOnly))
  {
    formatted := "";
    var i := 0;
    while i < |digitsOnly| && i < MaxCardDigits
      invariant 0 <= i <= |digitsOnly| && i <= MaxCardDigits
      invariant formatted == Grouped(digitsOnly[..i])
    {
      if i > 0 && i % 4 == 0 {
        formatted := formatted + " ";
      }
      formatted := formatted + [digitsOnly[i]];
      assert digitsOnly[..i + 1][..i] == digitsOnly[..i];
      i := i + 1;
    }
    assert digitsOnly[..i] == FirstDigits(digitsOnly);
  }

  /** The digits `validateCardNumber` works on: spaces removed, then every
      other non-digit removed. */
  function CardDigits(raw: string): string {
    DigitsOf(WithoutSpaces(raw))
  }

  /** The value `validateCardNumber` leaves in the field. */
  function CardNumberText(raw: string): string {
    Grouped(FirstDigits(CardDigits(raw)))
  }

  /** The card number field holds at most the first sixteen digits of the
      input in groups of four separated by single spaces, nothing else, and
      is at most 19 characters long. */
  lemma CardNumberTextShape(raw: string)
    ensures var r := CardNumberText(raw);
      && |r| <= 19
      && (forall k :: 0 <= k < |r| ==> (IsDigit(r[k]) <==> k % 5 != 4) && (r[k] == ' ' <==> k % 5 == 4))
      && WithoutSpaces(r) == FirstDigits(CardDigits(raw))
  {
    var d := FirstDigits(CardDigits(raw));
    GroupedShape(d);
    GroupedUngroups(d);
    var r := Grouped(d);
    forall k | 0 <= k < |r| ensures (IsDigit(r[k]) <==> k % 5 != 4) && (r[k] == ' ' <==> k % 5 == 4) {
      if k % 5 != 4 {
        assert IsDigit(d[k - k / 5]);
      }
    }
  }

  /** The error message of `validateCardNumber`. */
  function CardNumberError(raw: string): (e: string)
    ensures e == CardNotDigits <==> !AllDigits(WithoutSpaces(raw))
    ensures e == CardTooShort <==> AllDigits(WithoutSpaces(raw)) && |WithoutSpaces(raw)| < MaxCardDigits
    ensures e == "" <==> AllDigits(WithoutSpaces(raw)) && |WithoutSpaces(raw)| >= MaxCardDigits
  {
    var input := WithoutSpaces(raw);
    var digitsOnly := DigitsOf(input);
    FilterIdentityIff(input, IsDigit);
    if input != digitsOnly then CardNotDigits
    else if |digitsOnly| < MaxCardDigits then CardTooShort
    else ""
  }

  // ----------------------------------------------------------- card holder

  predicate HolderChar(c: char) { IsAsciiLetter(c) || IsSpace(c) }

  predicate AllHolderChars(s: string) { forall i :: 0 <= i < |s| ==> HolderChar(s[i]) }

  /** The value `validateCardHolder` leaves in the field: the input with every
      character other than a letter or whitespace removed. */
  function HolderText(raw: string): (r: string)
    ensures AllHolderChars(r)
    ensures r == Filter(raw, HolderChar)
    ensures r == raw <==> AllHolderChars(raw)
  {
    FilterIdentityIff(raw, HolderChar);
    if !AllHolderChars(raw) then Filter(raw, HolderChar) else raw
  }

  function HolderError(raw: string): (e: string)
    ensures e == HolderNotLetters <==> !AllHolderChars(raw)
    ensures e == "" <==> AllHolderChars(raw)
  {
    if !AllHolderChars(raw) then HolderNotLetters else ""
  }

  /** Sanitising the sanitised name changes nothing and reports no error. */
  lemma HolderTextIdempotent(raw: string)
    ensures HolderText(HolderText(raw)) == HolderText(raw)
    ensures HolderError(HolderText(raw)) == ""
  {
  }

  // ----------------------------------------------------------- expiry date

  /** The expiry field and its error message. */
  datatype ExpiryField = ExpiryField(text: string, error: string)

  /** `MM/YY` formatting of a digit string: the first two digits, then a
      slash and the next (at most two) digits when there are more. */
  function MonthYear(d: string): (r: string)
    ensures |r| <= 5
  {
    if |d| > 0 then
      d[..Min(2, |d|)] + (if |d| > 2 then "/" + d[2..Min(4, |d|)] else "")
    else d
  }

  /** The year message for a year typed after a valid month. */
  function YearError(year: int, currentYear: int): (e: string)
    ensures e == "" <==> currentYear <= year <= currentYear + 10
  {
    if year < currentYear then YearInPast
    else if year > currentYear + 10 then YearTooFar
    else ""
  }

  /** `formatExpiryDate`: `raw` is the typed value, `current` the field's
      value and `error` its message before the call; `currentYear` is the
      current year modulo 100. The month is the value of the first two digits
      and the year the value of all the digits after them. */
  function ExpiryStep(raw: string, current: string, error: string, currentYear: int): (r: ExpiryField)
    ensures var d := DigitsOf(raw);
      |d| < |DigitsOf(current)| ==> r == ExpiryField(d, error)
    ensures var d := DigitsOf(raw);
      |d| >= |DigitsOf(current)| ==>
        && (|d| < 2 ==> r == ExpiryField(d, error))
        && (|d| >= 2 && !(1 <= DigitsValue(d[..2]) <= 12) ==> r == ExpiryField(d[..2], MonthOutOfRange))
        && (|d| == 2 && 1 <= DigitsValue(d) <= 12 ==> r == ExpiryField(d, ""))
        && (|d| > 2 && 1 <= DigitsValue(d[..2]) <= 12 ==>
              r.text == d[..2] + "/" + d[2..Min(4, |d|)] && r.error == YearError(DigitsValue(d[2..]), currentYear))
  {
    var input := DigitsOf(raw);
    if |input| < |DigitsOf(current)| then ExpiryField(input, error)
    else if |input| >= 2 then
      var month := DigitsValue(input[..2]);
      var year := if |input| > 2 then DigitsValue(input[2..]) else 0;
      assert |input| == 2 ==> input[..2] == input;
      if month < 1 || month > 12 then
        assert input[..2][..Min(2, 2)] == input[..2];
        ExpiryField(MonthYear(input[..2]), MonthOutOfRange)
      else if |input| > 2 then ExpiryField(MonthYear(input), YearError(year, currentYear))
      else ExpiryField(MonthYear(input), "")
    else ExpiryField(MonthYear(input), error)
  }

  /** `DigitsOf` of a concatenation, in the steps the lemmas below need. */
  lemma DigitsOfJoin(a: string, mid: string, b: string)
    requires AllDigits(a) && AllDigits(b) && !AllDigits(mid) && |mid| == 1
    ensures DigitsOf(a + (mid + b)) == a + b
  {
    FilterAppend(a, mid + b, IsDigit);
    FilterAppend(mid, b, IsDigit);
    FilterKeepsAll(a, IsDigit);
    FilterKeepsAll(b, IsDigit);
    assert Filter(mid, IsDigit) == Filter(mid[1..], IsDigit) == [];
  }

  /** The digits of a formatted date are its first (at most four) digits. */
  lemma MonthYearDigits(d: string)
    requires AllDigits(d)
    ensures DigitsOf(MonthYear(d)) == d[..Min(4, |d|)]
  {
    if |d| > 2 {
      var a, b := d[..2], d[2..Min(4, |d|)];
      assert MonthYear(d) == a + ("/" + b);
      assert !IsDigit("/"[0]);
      DigitsOfJoin(a, "/", b);
      assert a + b == d[..Min(4, |d|)];
    } else {
      FilterKeepsAll(d, IsDigit);
      assert MonthYear(d) == d;
    }
  }

  /** A field reachable from the empty one never holds more than four digits,
      and a five-character, error-free value is `MM/YY` with a month in 1..12
      and a year no earlier than the current one and at most ten years on. */
  lemma ExpiryValidMeans(raw: string, current: string, error: string, currentYear: int)
    requires |DigitsOf(current)| <= 4
    ensures |DigitsOf(ExpiryStep(raw, current, error, currentYear).text)| <= 4
    ensures var r := ExpiryStep(raw, current, error, currentYear);
      |r.text| == 5 && r.error == "" ==>
        var d := DigitsOf(raw);
        && r.text[2] == '/' && |d| >= 4
        && 1 <= DigitsValue(r.text[..2]) <= 12
        && currentYear <= DigitsValue(d[2..]) <= currentYear + 10
  {
    var d := DigitsOf(raw);
    var r := ExpiryStep(raw, current, error, currentYear);
    if |d| < |DigitsOf(current)| {
      FilterKeepsAll(d, IsDigit);
    } else if |d| >= 2 && !(1 <= DigitsValue(d[..2]) <= 12) {
      MonthYearDigits(d[..2]);
    } else {
      MonthYearDigits(d);
      if |r.text| == 5 && r.error == "" {
        assert |d| >= 4;
        assert r.text[..2] == d[..2];
      }
    }
  }

  /** Feeding the formatted value back in (as the browser does on the next
      keystroke without a change) keeps it, unless digits were deleted. */
  lemma ExpiryIdempotent(raw: string, current: string, error: string, currentYear: int)
    requires |DigitsOf(raw)| >= |DigitsOf(current)|
    ensures var r := ExpiryStep(raw, current, error, currentYear);
      ExpiryStep(r.text, r.text, r.error, currentYear).text == r.text
  {
    var d := DigitsOf(raw);
    var r := ExpiryStep(raw, current, error, currentYear);
    if |d| >= 2 && !(1 <= DigitsValue(d[..2]) <= 12) {
      MonthYearDigits(d[..2]);
      assert DigitsOf(r.text) == d[..2];
    } else {
      MonthYearDigits(d);
      var d2 := d[..Min(4, |d|)];
      assert DigitsOf(r.text) == d2;
      if |d| >= 2 {
        assert d2[..2] == d[..2];
      }
      if |d| > 2 {
        assert d2[2..Min(4, |d2|)] == d[2..Min(4, |d|)];
      }
    }
  }

  /** The digits of a typed `MM/Y…` value are the month's and the year's. */
  lemma DigitsOfDate(mm: string, yy: string)
    requires AllDigits(mm) && AllDigits(yy)
    ensures DigitsOf(mm + "/" + yy) == mm + yy
  {
    assert !IsDigit("/"[0]);
    assert mm + "/" + yy == mm + ("/" + yy);
    DigitsOfJoin(mm, "/", yy);
  }

  /** Once a valid month is typed, the field shows at most two year digits
      but judges the year by the value of every digit typed after the month. */
  lemma ExpiryJudgesHiddenDigits(mm: string, yy: string, current: string, error: string, currentYear: int)
    requires |mm| == 2 && AllDigits(mm) && 1 <= DigitsValue(mm) <= 12
    requires |yy| >= 1 && AllDigits(yy)
    requires |DigitsOf(current)| <= |mm| + |yy|
    ensures ExpiryStep(mm + "/" + yy, current, error, currentYear) ==
      ExpiryField(mm + "/" + yy[..Min(2, |yy|)], YearError(DigitsValue(yy), currentYear))
  {
    DigitsOfDate(mm, yy);
    var d := mm + yy;
    assert d[..2] == mm && d[2..] == yy && d[2..Min(4, |d|)] == yy[..Min(2, |yy|)];
  }

  /** With 2025 as the current year, "12/3099" shows as "12/30" and is
      rejected as more than ten years ahead, though "12/30" alone is accepted. */
  lemma HiddenDigitsExample()
    ensures "3099"[..Min(2, 4)] == "30"
    ensures YearError(DigitsValue("3099"), 25) == YearTooFar && YearError(DigitsValue("30"), 25) == ""
  {
    assert "30"[..1] == "3" && "309"[..2] == "30" && "3099"[..3] == "309";
    assert DigitsValue("309") == 309;
  }

  // ------------------------------------------------------------------- CVV

  /** The error message of `validateCVV`. */
  function CvvError(raw: string): (e: string)
    ensures e == CvvNotDigits <==> !AllDigits(raw)
    ensures e == CvvTooShort <==> AllDigits(raw) && 0 < |raw| < 3
    ensures e == "" <==> AllDigits(raw) && (|raw| == 0 || |raw| >= 3)
  {
    var digitsOnly := DigitsOf(raw);
    FilterIdentityIff(raw, IsDigit);
    if raw != digitsOnly then CvvNotDigits
    else if |digitsOnly| > 0 && |digitsOnly| < 3 then CvvTooShort
    else ""
  }

  // ------------------------------------------------------------------ form

  /** The values of the form's fields. */
  datatype CardForm = CardForm(
    cardNumber: string, cardHolder: string, expiryDate: string, cvv: string, termsAccepted: bool,
    cardNumberError: string, cardHolderError: string, expiryDateError: string, cvvError: string)

  /** `isFormValid` */
  predicate FormValid(f: CardForm) {
    && |f.cardNumber| >= 16
    && |f.cardHolder| > 0
    && |f.expiryDate| == 5
    && |f.cvv| == 3
    && f.termsAccepted
    && f.cardNumberError == ""
    && f.cardHolderError == ""
    && f.expiryDateError == ""
    && f.cvvError == ""
  }

  /** A valid form filled by the sanitisers holds exactly sixteen card
      digits and a three-digit CVV, and a CVV of four or more digits raises
      no message but keeps the form invalid. */
  lemma ValidFormMeans(f: CardForm, rawCard: string, rawCvv: string)
    requires f.cardNumber == CardNumberText(rawCard) && f.cardNumberError == CardNumberError(rawCard)
    requires f.cvv == DigitsOf(rawCvv) && f.cvvError == CvvError(rawCvv)
    ensures FormValid(f) ==>
      && WithoutSpaces(f.cardNumber) == CardDigits(rawCard)[..16]
      && |CardDigits(rawCard)| >= 16
      && AllDigits(f.cvv) && |f.cvv| == 3 && f.cvv == rawCvv
    ensures AllDigits(rawCvv) && |rawCvv| > 3 ==> f.cvvError == "" && !FormValid(f)
  {
    CardNumberTextShape(rawCard);
    if FormValid(f) {
      FilterKeepsAll(WithoutSpaces(rawCard), IsDigit);
      FilterKeepsAll(rawCvv, IsDigit);
    }
    if AllDigits(rawCvv) {
      FilterKeepsAll(rawCvv, IsDigit);
    }
  }

  /** What `onSubmit` did. */
  datatype Submission = Rejected(termsAlert: bool) | Ignored | Paid

  /** The payment page's state. */
  class PaymentForm {
    var orderId: int
    var order: Option<Order>
    var loading: bool
    var cardNumber: string
    var cardHolder: string
    var expiryDate: string
    var cvv: string
    var termsAccepted: bool
    var cardNumberError: string
    var cardHolderError: string
    var expiryDateError: string
    var cvvError: string

    /** The page for the order id of the route: still loading, empty form. */
    constructor (orderId: int)
      ensures this.orderId == orderId && order == None && loading
      ensures Form() == CardForm("", "", "", "", false, "", "", "", "")
    {
      this.orderId := orderId;
      order := None;
      loading := true;
      cardNumber, cardHolder, expiryDate, cvv := "", "", "", "";
      termsAccepted := false;
      cardNumberError, cardHolderError, expiryDateError, cvvError := "", "", "", "";
    }

    function Form(): CardForm
      reads this
    {
      CardForm(cardNumber, cardHolder, expiryDate, cvv, termsAccepted,
               cardNumberError, cardHolderError, expiryDateError, cvvError)
    }

    /** `loadOrder`: shows the order when the active user holds it and it is
        not canceled; otherwise the page is left (to login or to the user
        page) and nothing here changes. */
    method LoadOrder(store: Store) returns (entry: Entry)
      modifies this, store
      ensures entry == EntryFor(ActiveUser(old(store.Users()), old(store.active)), orderId)
      ensures entry.Pay? ==> order == Some(entry.order) && !loading
      ensures !entry.Pay? ==> order == old(order) && loading == old(loading)
      ensures Form() == old(Form()) && orderId == old(orderId)
      ensures store.stored == (if NoSession(store.active) then old(store.stored) else Some(old(store.Users())))
      ensures store.active == old(store.active)
    {
      var user := store.GetActiveUser();
      if user.None? || user.value.orders.None? {
        return ToLogin;
      }
      var os := user.value.orders.value;
      var i := 0;
      while i < |os|
        invariant 0 <= i <= |os|
        invariant forall j :: 0 <= j < i ==> !HasId(orderId)(os[j])
      {
        if os[i].id == orderId {
          FirstIndexAt(os, HasId(orderId), i);
          if os[i].status == Canceled {
            return ToUserPage;
          }
          order := Some(os[i]);
          loading := false;
          return Pay(os[i]);
        }
        i := i + 1;
      }
      return ToUserPage;
    }

    /** `validateCardNumber`; `shown` is the value written back to the input. */
    method ValidateCardNumber(value: string) returns (shown: string)
      modifies this
      ensures cardNumberError == CardNumberError(value)
      ensures shown == cardNumber == CardNumberText(value)
      ensures Form() == old(Form()).(cardNumber := cardNumber, cardNumberError := cardNumberError)
      ensures order == old(order) && loading == old(loading) && orderId == old(orderId)
    {
      var input := WithoutSpaces(value);
      var digitsOnly := DigitsOf(input);
      if input != digitsOnly {
        cardNumberError := CardNotDigits;
      } else if |digitsOnly| < MaxCardDigits {
        cardNumberError := CardTooShort;
      } else {
        cardNumberError := "";
      }
      var formatted := FormatCardDigits(digitsOnly);
      cardNumber := formatted;
      shown := formatted;
    }

    /** `validateCardHolder` */
    method ValidateCardHolder(value: string) returns (shown: string)
      modifies this
      ensures cardHolderError == HolderError(value)
      ensures shown == cardHolder == HolderText(value)
      ensures Form() == old(Form()).(cardHolder := cardHolder, cardHolderError := cardHolderError)
      ensures order == old(order) && loading == old(loading) && orderId == old(orderId)
    {
      if !AllHolderChars(value) {
        cardHolderError := HolderNotLetters;
        cardHolder := Filter(value, HolderChar);
      } else {
        cardHolderError := "";
        cardHolder := value;
      }
      shown := cardHolder;
    }

    /** `formatExpiryDate`; `currentYear` is `new Date().getFullYear() % 100`. */
    method FormatExpiryDate(value: string, currentYear: int) returns (shown: string)
      modifies this
      ensures ExpiryField(expiryDate, expiryDateError) == ExpiryStep(value, old(expiryDate), old(expiryDateError), currentYear)
      ensures shown == expiryDate
      ensures Form() == old(Form()).(expiryDate := expiryDate, expiryDateError := expiryDateError)
      ensures order == old(order) && loading == old(loading) && orderId == old(orderId)
    {
      var input := DigitsOf(value);
      if |input| < |DigitsOf(expiryDate)| {
        expiryDate := input;
        return input;
      }
      if |input| >= 2 {
        var month := DigitsValue(input[..2]);
        var year := if |input| > 2 then DigitsValue(input[2..]) else 0;
        if month < 1 || month > 12 {
          expiryDateError := MonthOutOfRange;
          input := input[..2];
        } else if |input| > 2 {
          if year < currentYear {
            expiryDateError := YearInPast;
          } else if year > currentYear + 10 {
            expiryDateError := YearTooFar;
          } else {
            expiryDateError := "";
          }
        } else {
          expiryDateError := "";
        }
      }
      if |input| > 0 {
        var formatted := input[..Min(2, |input|)];
        if |input| > 2 {
          formatted := formatted + "/" + input[2..Min(4, |input|)];
        }
        expiryDate := formatted;
      } else {
        expiryDate := input;
      }
      shown := expiryDate;
    }

    /** `validateCVV` */
    method ValidateCvv(value: string) returns (shown: string)
      modifies this
      ensures cvvError == CvvError(value)
      ensures shown == cvv == DigitsOf(value)
      ensures Form() == old(Form()).(cvv := cvv, cvvError := cvvError)
      ensures order == old(order) && loading == old(loading) && orderId == old(orderId)
    {
      var digitsOnly := DigitsOf(value);
      if value != digitsOnly {
        cvvError := CvvNotDigits;
      } else if |digitsOnly| > 0 && |digitsOnly| < 3 {
        cvvError := CvvTooShort;
      } else {
        cvvError := "";
      }
      cvv := digitsOnly;
      shown := digitsOnly;
    }

    predicate IsFormValid()
      reads this
    {
      FormValid(Form())
    }

    /** `onSubmit`: an invalid form only gets the "required" message on each
        empty field (and the terms alert); a second submission while the
        page is busy is ignored; otherwise the payment goes through. */
    method OnSubmit() returns (outcome: Submission)
      modifies this
      ensures !old(IsFormValid()) ==>
        && outcome == Rejected(!termsAccepted)
        && Form() == old(Form()).(
             cardNumberError := if cardNumber == "" then CardRequired else old(cardNumberError),
             cardHolderError := if cardHolder == "" then HolderRequired else old(cardHolderError),
             expiryDateError := if expiryDate == "" then ExpiryRequired else old(expiryDateError),
             cvvError := if cvv == "" then CvvRequired else old(cvvError))
        && loading == old(loading)
      ensures old(IsFormValid()) && old(loading) ==> outcome == Ignored && Form() == old(Form()) && loading
      ensures old(IsFormValid()) && !old(loading) ==> outcome == Paid && Form() == old(Form()) && loading
      ensures order == old(order) && orderId == old(orderId)
    {
      if !IsFormValid() {
        if cardNumber == "" { cardNumberError := CardRequired; }
        if cardHolder == "" { cardHolderError := HolderRequired; }
        if expiryDate == "" { expiryDateError := ExpiryRequired; }
        if cvv == "" { cvvError := CvvRequired; }
        return Rejected(!termsAccepted);
      }
      if loading {
        return Ignored;
      }
      loading := true;
      return Paid;
    }
  }
}
