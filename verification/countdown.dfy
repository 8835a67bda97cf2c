/**
 * The offer countdown of main.js (`initCountdown`): a millisecond
 * difference between the end date and now becomes either "Offer expired"
 * or a whole number of days and hours. The clock is a parameter: the
 * model takes the difference itself.
 */
module Countdown {

  const MsPerHour: nat := 1000 * 60 * 60
  const MsPerDay: nat := 1000 * 60 * 60 * 24

  /** The end date is set fourteen days after page load. */
  const OfferDays: nat := 14

  /** What the countdown element shows. */
  datatype Display = Expired | Remaining(days: nat, hours: nat)

  /** `updateCountdown` for a difference of `d` milliseconds. For positive
      `d`, JavaScript's `Math.floor` of a quotient and its `%` agree with
      Dafny's `/` and `%`. The minutes the source computes are never shown
      and are not modelled. */
  function Show(d: int): (r: Display)
    ensures r.Expired? <==> d <= 0
    ensures r.Remaining? ==> r.hours < 24
    ensures r.Remaining? ==> r.days * 24 + r.hours == d / MsPerHour
  {
    if d <= 0 then Expired
    else Remaining(d / MsPerDay, (d % MsPerDay) / MsPerHour)
  }

  /** The display in hours, the unit the countdown is refreshed in. */
  function TotalHours(r: Display): nat {
    match r
    case Expired => 0
    case Remaining(days, hours) => days * 24 + hours
  }

  /** Any days/hours split of the whole hours left is the one shown: the
      display is the unique pair with hours below 24 whose total is the
      number of whole hours remaining. */
  lemma ShowUnique(d: int, days: nat, hours: nat)
    requires d > 0 && hours < 24
    requires days * MsPerDay + hours * MsPerHour <= d < days * MsPerDay + (hours + 1) * MsPerHour
    ensures Show(d) == Remaining(days, hours)
  {
    MulLe(hours + 1, 24, MsPerHour);
    DivBetween(d, MsPerDay, days);
    assert d % MsPerDay == d - days * MsPerDay;
    DivBetween(d % MsPerDay, MsPerHour, hours);
  }

  /** `q` is `n / m` when `q * m <= n < (q + 1) * m`. */
  lemma DivBetween(n: int, m: int, q: int)
    requires m > 0 && q * m <= n < (q + 1) * m
    ensures n / m == q
  {
    var k := n / m;
    assert n == k * m + n % m;
    if k > q {
      MulLe(q + 1, k, m);
    }
    if k < q {
      MulLe(k + 1, q, m);
    }
  }

  lemma MulLe(a: int, b: int, m: int)
    requires a <= b && m >= 0
    ensures a * m <= b * m
  {
    assert b * m - a * m == (b - a) * m;
  }

  /** A difference of exactly fourteen days shows fourteen days and no
      hours. */
  lemma FreshOffer()
    ensures Show(OfferDays * MsPerDay) == Remaining(OfferDays, 0)
  {
    ShowUnique(OfferDays * MsPerDay, OfferDays, 0);
  }

  /** The first display at page load: the end date is taken a moment
      before `now`, so the difference is fourteen days less the time
      between the two clock readings. Within the first hour that shows
      13 days and 23 hours, unless no time passed at all. */
  lemma FirstDisplay(d: int)
    requires OfferDays * MsPerDay - MsPerHour <= d <= OfferDays * MsPerDay
    ensures d == OfferDays * MsPerDay ==> Show(d) == Remaining(OfferDays, 0)
    ensures d < OfferDays * MsPerDay ==> Show(d) == Remaining(OfferDays - 1, 23)
  {
    if d == OfferDays * MsPerDay {
      FreshOffer();
    } else {
      ShowUnique(d, OfferDays - 1, 23);
    }
  }

  /** As time passes the display never goes up: a smaller difference shows
      no more hours in total, and expiry is final. */
  lemma {:induction false} ShowMonotone(d1: int, d2: int)
    requires d1 <= d2
    ensures TotalHours(Show(d1)) <= TotalHours(Show(d2))
    ensures Show(d2).Expired? ==> Show(d1).Expired?
  {
    if d1 > 0 {
      DivMonotone(d1, d2, MsPerHour);
    }
  }

  lemma DivMonotone(a: int, b: int, m: int)
    requires 0 <= a <= b && m > 0
    ensures a / m <= b / m
  {
    assert a == (a / m) * m + a % m;
    LeDiv(a / m, b, m);
  }

  /** A multiple of `m` below `n` is at most `n / m` multiples. */
  lemma LeDiv(q: int, n: int, m: int)
    requires m > 0 && q * m <= n
    ensures q <= n / m
  {
    assert n == (n / m) * m + n % m;
    if q > n / m {
      MulLe(n / m + 1, q, m);
    }
  }
}
