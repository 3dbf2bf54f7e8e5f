/** The printed idempotency keys: they name one (order, event) pair, and how many of them the column holds. */
module Keys {
  import opened Basics

  const PAYMENT := "payment-"
  const STOCK_RESERVATION := "stock-reservation-"
  const DELIVERY := "delivery-"

  /** VARCHAR(64), and the text form of a UUID. */
  const COLUMN := 64
  const UUID := 36

  function Digit(d: nat): char
    requires d < 10
  {
    '0' + d as char
  }

  predicate IsDigit(c: char) {
    '0' <= c <= '9'
  }

  function Digits(n: nat): (s: string)
    ensures |s| > 0 && forall i :: 0 <= i < |s| ==> IsDigit(s[i])
  {
    (if n < 10 then "" else Digits(n / 10)) + [Digit(n % 10)]
  }

  /** The %d verb. */
  function Decimal(n: int): string {
    if n < 0 then "-" + Digits(-n) else Digits(n)
  }

  function Key(prefix: string, order: int, event: string): string {
    prefix + Decimal(order) + "-" + event
  }

  // ------------------------------------------------ reading a key back

  function Leading(s: string): (n: nat)
    ensures n <= |s| && forall i :: 0 <= i < n ==> IsDigit(s[i])
  {
    if s == "" || !IsDigit(s[0]) then 0 else 1 + Leading(s[1..])
  }

  function DigitValue(c: char): nat
    requires IsDigit(c)
  {
    c as int - '0' as int
  }

  function Value(s: string): nat
    requires forall i :: 0 <= i < |s| ==> IsDigit(s[i])
  {
    if s == "" then 0 else 10 * Value(s[..|s| - 1]) + DigitValue(s[|s| - 1])
  }

  /** A number up to the first '-' after its digits, and everything behind that '-'. */
  function ParseTail(s: string): Option<(int, string)> {
    var n := Leading(s);
    if n == 0 || n == |s| || s[n] != '-' then None else Some((Value(s[..n]), s[n + 1..]))
  }

  function ParseSigned(s: string): Option<(int, string)> {
    if s == "" || s[0] != '-' then ParseTail(s)
    else
      match ParseTail(s[1..])
      case None => None
      case Some(t) => Some((-t.0, t.1))
  }

  function Parse(prefix: string, key: string): Option<(int, string)> {
    if prefix <= key then ParseSigned(key[|prefix|..]) else None
  }

  lemma {:induction false} ValueOfDigits(n: nat)
    ensures Value(Digits(n)) == n
  {
    if n >= 10 {
      ValueOfDigits(n / 10);
      assert Digits(n)[..|Digits(n)| - 1] == Digits(n / 10);
      assert DigitValue(Digit(n % 10)) == n % 10;
    }
  }

  lemma {:induction false} LeadingDigits(s: string, rest: string)
    requires forall i :: 0 <= i < |s| ==> IsDigit(s[i])
    requires rest != "" && !IsDigit(rest[0])
    ensures Leading(s + rest) == |s|
  {
    if s == "" {
      assert s + rest == rest;
    } else {
      assert (s + rest)[1..] == s[1..] + rest;
      LeadingDigits(s[1..], rest);
    }
  }

  /** Where the digits end and the event begins. */
  lemma TailParts(n: nat, event: string)
    ensures var s, k := Digits(n) + "-" + event, |Digits(n)|;
      Leading(s) == k && k < |s| && s[k] == '-' && s[..k] == Digits(n) && s[k + 1..] == event
  {
    var s, k := Digits(n) + "-" + event, |Digits(n)|;
    assert s == Digits(n) + ("-" + event);
    LeadingDigits(Digits(n), "-" + event);
    assert s[..k] == Digits(n);
    assert s[k + 1..] == event;
  }

  lemma ParseTailOfDigits(n: nat, event: string)
    ensures ParseTail(Digits(n) + "-" + event) == Some((n, event))
  {
    var s, k := Digits(n) + "-" + event, |Digits(n)|;
    TailParts(n, event);
    ValueOfDigits(n);
    assert Value(s[..k]) == n;
  }

  lemma ParseSignedOfDecimal(n: int, event: string)
    ensures ParseSigned(Decimal(n) + "-" + event) == Some((n, event))
  {
    var s := Decimal(n) + "-" + event;
    if n < 0 {
      assert s[1..] == Digits(-n) + "-" + event;
      ParseTailOfDigits(-n, event);
    } else {
      assert s[0] == Digits(n)[0];
      ParseTailOfDigits(n, event);
    }
  }

  /** Every key can be read back, for any order number and any event identifier. */
  lemma KeyRoundTrip(prefix: string, order: int, event: string)
    ensures Parse(prefix, Key(prefix, order, event)) == Some((order, event))
  {
    var tail := Decimal(order) + "-" + event;
    var key := Key(prefix, order, event);
    assert key == prefix + tail;
    assert key[|prefix|..] == tail;
    ParseSignedOfDecimal(order, event);
  }

  /** What the three services print. */
  lemma PrintedKeys(event: string)
    ensures Key(PAYMENT, 120, event) == "payment-120-" + event
    ensures Key(STOCK_RESERVATION, 7, event) == "stock-reservation-7-" + event
    ensures Key(DELIVERY, -35, event) == "delivery--35-" + event
  {
    assert Digits(1) == "1" && Digits(12) == "12" && Digits(120) == "120";
    assert Digits(3) == "3" && Digits(35) == "35";
    assert PAYMENT + "120" + "-" == "payment-120-";
    assert STOCK_RESERVATION + "7" + "-" == "stock-reservation-7-";
    assert DELIVERY + "-35" + "-" == "delivery--35-";
  }

  /** Distinct pairs print distinct keys, so a key may stand for its pair. */
  lemma KeysAreInjective(prefix: string, order: int, event: string, order': int, event': string)
    ensures Key(prefix, order, event) == Key(prefix, order', event') <==> order == order' && event == event'
  {
    KeyRoundTrip(prefix, order, event);
    KeyRoundTrip(prefix, order', event');
  }

  // ------------------------------------------------ what fits the column

  function PowerOfTen(k: nat): (p: nat)
    ensures p >= 1
  {
    if k == 0 then 1 else 10 * PowerOfTen(k - 1)
  }

  lemma {:induction false} DigitsFit(n: nat, k: nat)
    requires k >= 1
    ensures |Digits(n)| <= k <==> n < PowerOfTen(k)
  {
    if k == 1 {
      assert PowerOfTen(1) == 10 * PowerOfTen(0);
    } else if n >= 10 {
      DigitsFit(n / 10, k - 1);
    } else {
      assert PowerOfTen(k) >= 10;
    }
  }

  /** A column leaves this many characters for the order number. */
  function Room(prefix: string): int {
    COLUMN - UUID - 1 - |prefix|
  }

  /** Which order numbers the column holds: the sign takes a character of its own. */
  lemma KeyFitsIff(prefix: string, order: int, event: string)
    requires |event| == UUID && Room(prefix) >= 2
    ensures |Key(prefix, order, event)| <= COLUMN <==>
            -(PowerOfTen(Room(prefix) - 1) as int) < order < PowerOfTen(Room(prefix))
  {
    if order < 0 {
      DigitsFit(-order, Room(prefix) - 1);
    } else {
      DigitsFit(order, Room(prefix));
    }
  }

  lemma PowersOfTen()
    ensures PowerOfTen(9) == 1_000_000_000
    ensures PowerOfTen(18) == 1_000_000_000_000_000_000
    ensures PowerOfTen(19) == 10_000_000_000_000_000_000
  {
    assert PowerOfTen(3) == 1000;
    assert PowerOfTen(6) == 1_000_000;
    assert PowerOfTen(9) == 1_000_000_000;
    assert PowerOfTen(12) == 1_000_000_000_000;
    assert PowerOfTen(15) == 1_000_000_000_000_000;
    assert PowerOfTen(18) == 1_000_000_000_000_000_000;
  }

  const MAX_INT64 := 0x7fff_ffff_ffff_ffff

  /** For positive int64 orders: every payment key fits, but only some delivery and stock-reservation keys do. */
  lemma WhichKeysFit(order: nat, event: string)
    requires |event| == UUID && order <= MAX_INT64
    ensures |Key(PAYMENT, order, event)| <= COLUMN
    ensures |Key(DELIVERY, order, event)| <= COLUMN <==> order < 1_000_000_000_000_000_000
    ensures |Key(STOCK_RESERVATION, order, event)| <= COLUMN <==> order < 1_000_000_000
  {
    PowersOfTen();
    KeyFitsIff(PAYMENT, order, event);
    KeyFitsIff(DELIVERY, order, event);
    KeyFitsIff(STOCK_RESERVATION, order, event);
  }
}
