/** Seat-count presentation: the Russian plural of "seat" after a count, the
    availability status of an excursion and the fill level of its progress bar.
    Counts are integers; the percentage is an exact rational. */
module Format {

  /** JavaScript's `a % b`: the remainder truncated toward zero, with the sign of `a`. */
  function JsRem(a: int, b: int): (r: int)
    requires b > 0
    ensures a >= 0 ==> 0 <= r < b && r == a % b
    ensures a < 0 ==> -b < r <= 0
  {
    if a >= 0 then a % b else -((-a) % b)
  }

  /** `format_people_left_title(n)`: the word for "seats" that follows the number n. */
  function PeopleLeftTitle(n: int): string {
    if 11 <= JsRem(n, 100) <= 14 then "мест"
    else
      var lastDigit := JsRem(n, 10);
      if lastDigit == 1 then "место"
      else if 2 <= lastDigit <= 4 then "места"
      else "мест"
  }

  /** The seat counts of an excursion, the only fields the status helpers read. */
  datatype Seats = Seats(peopleLeft: int, peopleAmount: int)

  /** `getPeopleStatusClass`; `left <= amount * 0.2` is compared exactly as `5 * left <= amount`. */
  function StatusClass(x: Seats): string {
    if x.peopleLeft == 0 then "sold-out"
    else if 5 * x.peopleLeft <= x.peopleAmount then "few-left"
    else "available"
  }

  /** `getPeopleStatusText` */
  function StatusText(x: Seats): string {
    if x.peopleLeft == 0 then "Мест нет"
    else if 5 * x.peopleLeft <= x.peopleAmount then "Мало мест"
    else "Есть места"
  }

  /** `getProgressPercentage`: the occupied share of the seats, in percent. */
  function ProgressPercentage(x: Seats): real {
    if x.peopleAmount == 0 then 0.0
    else ((x.peopleAmount - x.peopleLeft) as real / x.peopleAmount as real) * 100.0
  }

  /** `getProgressClass` */
  function ProgressClass(x: Seats): string {
    var percentage := ProgressPercentage(x);
    if percentage >= 90.0 then "danger"
    else if percentage >= 70.0 then "warning"
    else "success"
  }

  // ---------------------------------------------------------------------------
  // Properties

  /** The plural categories of Russian cardinals as the Unicode CLDR states them:
      "one" for 1, 21, 31, …; "few" for 2–4, 22–24, …; "many" for the rest. */
  function CldrForm(n: nat): string {
    if n % 10 == 1 && n % 100 != 11 then "место"
    else if 2 <= n % 10 <= 4 && !(12 <= n % 100 <= 14) then "места"
    else "мест"
  }

  /** For every count of zero or more the chosen word is the CLDR plural form. */
  lemma TitleIsCldrPlural(n: nat)
    ensures PeopleLeftTitle(n) == CldrForm(n)
  {
    LastDigitOfLastTwo(n);
    assert JsRem(n, 100) == n % 100 && JsRem(n, 10) == n % 10;
  }

  /** The last digit of a number is the last digit of its last two digits. */
  lemma LastDigitOfLastTwo(n: nat)
    ensures n % 10 == n % 100 % 10
  {
    var q, r := n / 100, n % 100;
    assert n == 100 * q + r;
    assert n == 10 * (10 * q + r / 10) + r % 10;
  }

  /** The remainder of a negated number is the negated remainder. */
  lemma JsRemIsOdd(a: int, b: int)
    requires b > 0
    ensures JsRem(-a, b) == -JsRem(a, b)
  {
  }

  /** The word depends on the last two digits only. */
  lemma TitlePeriodic(n: nat)
    ensures PeopleLeftTitle(n + 100) == PeopleLeftTitle(n)
  {
    assert n + 100 == 100 * (n / 100 + 1) + n % 100;
    assert n + 100 == 10 * (n / 10 + 10) + n % 10;
    TitleFromRemainders(n + 100, n);
  }

  /** The word is decided by the two remainders alone. */
  lemma TitleFromRemainders(m: int, n: int)
    requires JsRem(m, 100) == JsRem(n, 100) && JsRem(m, 10) == JsRem(n, 10)
    ensures PeopleLeftTitle(m) == PeopleLeftTitle(n)
  {
  }

  /** A negative count always gets "мест": JavaScript's remainder keeps the sign, so no
      negative count has a last digit of 1 to 4 (a floored remainder would give -9 "место"). */
  lemma NegativeCountsTakeGenitive(n: int)
    requires n < 0
    ensures PeopleLeftTitle(n) == "мест"
  {
  }

  /** Sold out exactly when no seat is left; few left exactly for a non-zero count of at most a
      fifth of the seats; available otherwise. */
  lemma StatusClassCases(x: Seats)
    ensures StatusClass(x) == "sold-out" <==> x.peopleLeft == 0
    ensures StatusClass(x) == "few-left" <==> x.peopleLeft != 0 && 5 * x.peopleLeft <= x.peopleAmount
    ensures StatusClass(x) == "available" <==> x.peopleLeft != 0 && 5 * x.peopleLeft > x.peopleAmount
  {
  }

  /** The status text names the status class, case by case. */
  lemma StatusTextMatchesClass(x: Seats)
    ensures StatusClass(x) == "sold-out" <==> StatusText(x) == "Мест нет"
    ensures StatusClass(x) == "few-left" <==> StatusText(x) == "Мало мест"
    ensures StatusClass(x) == "available" <==> StatusText(x) == "Есть места"
  {
  }

  /** For a consistent excursion the percentage lies between 0 and 100, and is 100 when sold out. */
  lemma PercentageBounds(x: Seats)
    requires 0 <= x.peopleLeft <= x.peopleAmount
    ensures 0.0 <= ProgressPercentage(x) <= 100.0
    ensures x.peopleAmount > 0 && x.peopleLeft == 0 ==> ProgressPercentage(x) == 100.0
  {
    if x.peopleAmount > 0 {
      var a := x.peopleAmount as real;
      var q := (x.peopleAmount - x.peopleLeft) as real / a;
      assert q * a == (x.peopleAmount - x.peopleLeft) as real;
      ScaleByPositive(q, 0.0, a);
      ScaleByPositive(1.0, q, a);
    }
  }

  /** The progress class over the seat counts: danger from 90% occupied, warning from 70%,
      success below. */
  lemma ProgressClassByCounts(x: Seats)
    requires x.peopleAmount > 0
    ensures ProgressClass(x) == "danger" <==> 10 * (x.peopleAmount - x.peopleLeft) >= 9 * x.peopleAmount
    ensures ProgressClass(x) == "warning" <==>
      10 * (x.peopleAmount - x.peopleLeft) < 9 * x.peopleAmount && 10 * (x.peopleAmount - x.peopleLeft) >= 7 * x.peopleAmount
  {
    var occupied := x.peopleAmount - x.peopleLeft;
    var a := x.peopleAmount as real;
    var p := ProgressPercentage(x);
    assert p * a == (100 * occupied) as real by {
      var q := occupied as real / a;
      assert q * a == occupied as real;
      assert p == q * 100.0;
    }
    ScaledThreshold(p, a, 100 * occupied, x.peopleAmount, 90);
    ScaledThreshold(p, a, 100 * occupied, x.peopleAmount, 70);
    assert "danger"[0] != "warning"[0] && "danger"[0] != "success"[0] && "warning"[0] != "success"[0];
  }

  /** With p * n = m and n > 0, p reaches the threshold t exactly when m reaches t * n. */
  lemma ScaledThreshold(p: real, a: real, m: int, n: int, t: int)
    requires n > 0 && a == n as real && p * a == m as real
    ensures (p >= t as real) == (m >= t * n)
  {
    ScaleByPositive(p, t as real, a);
    assert t as real * a == (t * n) as real;
  }

  lemma ScaleByPositive(u: real, v: real, a: real)
    requires a > 0.0
    ensures u >= v <==> u * a >= v * a
  {
    if u >= v {
      assert (u - v) * a >= 0.0;
    } else {
      assert (v - u) * a > 0.0;
    }
  }

  /** An excursion without seats shows an empty, successful bar. */
  lemma NoSeatsIsSuccess(x: Seats)
    requires x.peopleAmount == 0
    ensures ProgressPercentage(x) == 0.0 && ProgressClass(x) == "success"
  {
  }

  /** A sold-out excursion with seats shows the danger bar. */
  lemma SoldOutShowsDanger(x: Seats)
    requires x.peopleAmount > 0 && x.peopleLeft == 0
    ensures StatusClass(x) == "sold-out" && ProgressClass(x) == "danger"
  {
    PercentageBounds(x);
  }
}
