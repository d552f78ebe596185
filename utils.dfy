/** The pure helpers of `src/lib/utils.ts`: price arithmetic rounded to
    cents, tracking-id generation, status lookups, the e-mail and Australian
    phone validators, text truncation and the relative-time thresholds.
    Money is an exact `real`; clocks and `Math.random` are parameters. */
module Utils {
  import opened Common

  // ---------------------------------------------------------------------------
  // Money

  /** A whole number of cents. */
  predicate IsCents(x: real) {
    (x * 100.0).Floor as real == x * 100.0
  }

  /** `Math.round(x * 100) / 100`: round half up to the nearest cent. */
  function Round2(x: real): (r: real)
    ensures IsCents(r)
    ensures x - 0.005 < r <= x + 0.005
  {
    (x * 100.0 + 0.5).Floor as real / 100.0
  }

  /** Amounts already in whole cents are left alone, so rounding twice is
      rounding once. */
  lemma Round2OfCents(x: real)
    requires IsCents(x)
    ensures Round2(x) == x
  {
    var n := (x * 100.0).Floor;
    assert (x * 100.0 + 0.5).Floor == n;
  }

  lemma Round2Idempotent(x: real)
    ensures Round2(Round2(x)) == Round2(x)
  {
    Round2OfCents(Round2(x));
  }

  /** Rounding never reverses the order of two amounts. */
  lemma Round2Monotonic(x: real, y: real)
    requires x <= y
    ensures Round2(x) <= Round2(y)
  {
    var a, b := x * 100.0 + 0.5, y * 100.0 + 0.5;
    assert a <= b;
    assert a.Floor as real <= a && b < b.Floor as real + 1.0;
    assert a.Floor <= b.Floor;
  }

  /** `calculateDeliveryPrice`: base fee plus distance times rate times the
      service multiplier (1 when the caller passes none), rounded to cents.
      The result is the unique whole-cent amount within half a cent of the
      raw price, ties rounding up. */
  function CalculateDeliveryPrice(distanceKm: real, baseFee: real, kmRate: real,
                                  serviceMultiplier: Option<real>): (r: real)
    ensures IsCents(r)
    ensures var raw := RawPrice(baseFee, distanceKm, EffectiveRate(kmRate, serviceMultiplier));
            raw - 0.005 < r <= raw + 0.005
  {
    Round2(RawPrice(baseFee, distanceKm, EffectiveRate(kmRate, serviceMultiplier)))
  }

  /** A fixed fee plus a distance charged at a per-km rate. */
  function RawPrice(fee: real, distanceKm: real, rate: real): real {
    fee + distanceKm * rate
  }

  /** The per-km rate scaled by the service multiplier, which defaults to 1. */
  function EffectiveRate(kmRate: real, serviceMultiplier: Option<real>): real {
    kmRate * serviceMultiplier.GetOr(1.0)
  }

  /** A longer trip never costs less, whatever the (non-negative) rate and
      multiplier. */
  lemma DeliveryPriceMonotonicInDistance(d1: real, d2: real, baseFee: real, kmRate: real,
                                         serviceMultiplier: Option<real>)
    requires d1 <= d2 && kmRate >= 0.0 && serviceMultiplier.GetOr(1.0) >= 0.0
    ensures CalculateDeliveryPrice(d1, baseFee, kmRate, serviceMultiplier)
         <= CalculateDeliveryPrice(d2, baseFee, kmRate, serviceMultiplier)
  {
    var rate := EffectiveRate(kmRate, serviceMultiplier);
    MulMonotonic(0.0, kmRate, serviceMultiplier.GetOr(1.0));
    RoundedPriceMonotonic(baseFee, d1, d2, rate);
  }

  lemma RoundedPriceMonotonic(fee: real, d1: real, d2: real, rate: real)
    requires d1 <= d2 && rate >= 0.0
    ensures Round2(RawPrice(fee, d1, rate)) <= Round2(RawPrice(fee, d2, rate))
  {
    MulMonotonic(d1, d2, rate);
    Round2Monotonic(RawPrice(fee, d1, rate), RawPrice(fee, d2, rate));
  }

  lemma MulMonotonic(a: real, b: real, c: real)
    requires a <= b && c >= 0.0
    ensures a * c <= b * c
  {
  }

  /** Two amounts in whole cents that lie within half a cent of the same
      value, ties going up, are equal. */
  lemma CentsUnique(raw: real, a: real, b: real)
    requires IsCents(a) && IsCents(b)
    requires raw - 0.005 < a <= raw + 0.005 && raw - 0.005 < b <= raw + 0.005
    ensures a == b
  {
    var na, nb := (a * 100.0).Floor, (b * 100.0).Floor;
    assert na as real == a * 100.0 && nb as real == b * 100.0;
    assert -1 < na - nb < 1;
  }

  /** The standard rate (9.90 base, 1.80 per km, 12.5 km) comes to 32.40. */
  lemma StandardDeliveryPrice()
    ensures CalculateDeliveryPrice(12.5, 9.90, 1.80, None) == 32.40
  {
    var r := CalculateDeliveryPrice(12.5, 9.90, 1.80, None);
    assert IsCents(32.40) by { assert (32.40 * 100.0).Floor == 3240; }
    CentsUnique(32.40, r, 32.40);
  }

  /** `calculateBatchDeliveryPrice` result. `perDelivery` is None where the
      source divides by zero deliveries and gets a non-finite number. */
  datatype BatchPrice = BatchPrice(total: real, perDelivery: Option<real>)

  function CalculateBatchDeliveryPrice(totalRouteDistanceKm: real, numberOfDeliveries: int,
                                       batchBaseFee: real, kmRate: real): (r: BatchPrice)
    ensures var raw := batchBaseFee * numberOfDeliveries as real + totalRouteDistanceKm * kmRate;
            IsCents(r.total) && raw - 0.005 < r.total <= raw + 0.005
    ensures r.perDelivery.Some? <==> numberOfDeliveries != 0
    ensures numberOfDeliveries != 0 ==>
              var share := (batchBaseFee * numberOfDeliveries as real + totalRouteDistanceKm * kmRate)
                           / numberOfDeliveries as real;
              IsCents(r.perDelivery.value) && share - 0.005 < r.perDelivery.value <= share + 0.005
  {
    var total := batchBaseFee * numberOfDeliveries as real + totalRouteDistanceKm * kmRate;
    BatchPrice(Round2(total),
               if numberOfDeliveries == 0 then None else Some(Round2(total / numberOfDeliveries as real)))
  }

  /** A batch of one costs its whole total per delivery. */
  lemma BatchOfOne(totalRouteDistanceKm: real, batchBaseFee: real, kmRate: real)
    ensures var r := CalculateBatchDeliveryPrice(totalRouteDistanceKm, 1, batchBaseFee, kmRate);
            r.perDelivery == Some(r.total)
  {
  }

  // ---------------------------------------------------------------------------
  // Tracking ids

  /** The 32 characters a tracking id draws from: upper-case letters and
      digits without the look-alikes I, O, 0 and 1. */
  const TrackingAlphabet: string := "ABCDEFGHJKLMNPQRSTUVWXYZ23456789"

  /** An upper-case letter other than I and O, or a digit from 2 to 9. */
  predicate TrackingChar(c: char) {
    ('A' <= c <= 'Z' && c != 'I' && c != 'O') || ('2' <= c <= '9')
  }

  lemma TrackingAlphabetShape()
    ensures |TrackingAlphabet| == 32
    ensures forall i :: 0 <= i < |TrackingAlphabet| ==> TrackingChar(TrackingAlphabet[i])
  {
  }

  predicate IsTrackingId(s: string) {
    |s| == 12 && s[..4] == "Z2U-" && forall i :: 4 <= i < 12 ==> TrackingChar(s[i])
  }

  /** `chars.charAt(Math.floor(r * chars.length))` for one value r that
      `Math.random` returned. */
  function PickChar(r: real): (c: char)
    requires 0.0 <= r < 1.0
    ensures TrackingChar(c)
  {
    var k := (r * |TrackingAlphabet| as real).Floor;
    TrackingAlphabetShape();
    TrackingAlphabet[k]
  }

  /** `generateTrackingId`, given the eight values `Math.random` returns in
      turn (each in [0, 1), as `Math.random` promises). */
  method GenerateTrackingId(randoms: seq<real>) returns (id: string)
    requires |randoms| == 8
    requires forall i :: 0 <= i < |randoms| ==> 0.0 <= randoms[i] < 1.0
    ensures IsTrackingId(id)
    ensures forall i :: 0 <= i < 8 ==> id[4 + i] == PickChar(randoms[i])
  {
    id := "Z2U-";
    var i := 0;
    while i < 8
      invariant 0 <= i <= 8
      invariant |id| == 4 + i && id[..4] == "Z2U-"
      invariant forall k :: 0 <= k < i ==> id[4 + k] == PickChar(randoms[k])
    {
      id := id + [PickChar(randoms[i])];
      i := i + 1;
    }
    forall k | 4 <= k < 12
      ensures TrackingChar(id[k])
    {
      assert id[4 + (k - 4)] == PickChar(randoms[k - 4]);
    }
  }

  // ---------------------------------------------------------------------------
  // Status lookups

  const StatusColors: map<string, string> := map[
    "pending" := "status-pending",
    "scheduled" := "status-scheduled",
    "picked_up" := "status-picked-up",
    "on_route" := "status-on-route",
    "delivered" := "status-delivered",
    "on_hold" := "status-on-hold",
    "failed" := "status-failed",
    "redelivered" := "status-redelivered"]

  const StatusLabels: map<string, string> := map[
    "pending" := "Pending",
    "scheduled" := "Scheduled",
    "picked_up" := "Picked Up",
    "on_route" := "On Route",
    "delivered" := "Delivered",
    "on_hold" := "On Hold",
    "failed" := "Failed Delivery",
    "redelivered" := "Re-delivered"]

  /** The eight delivery statuses of the schema. */
  const KnownStatuses: set<string> :=
    {"pending", "scheduled", "picked_up", "on_route", "delivered", "on_hold", "failed", "redelivered"}

  /** `getStatusColor`: the status's class, `status-pending` for anything
      unknown. */
  function StatusColor(status: string): (r: string)
    ensures StartsWith(r, "status-")
    ensures status !in KnownStatuses ==> r == "status-pending"
    ensures status in KnownStatuses ==> r == StatusColors[status]
  {
    if status in StatusColors && StatusColors[status] != "" then StatusColors[status] else "status-pending"
  }

  /** `getStatusLabel`: the status's label, the input itself for anything
      unknown. */
  function StatusLabel(status: string): (r: string)
    ensures status !in KnownStatuses ==> r == status
    ensures status in KnownStatuses ==> r == StatusLabels[status] && r != status
  {
    if status in StatusLabels && StatusLabels[status] != "" then StatusLabels[status] else status
  }

  /** No label is itself a status key, so labelling a label changes nothing. */
  lemma StatusLabelIdempotent(status: string)
    ensures StatusLabel(StatusLabel(status)) == StatusLabel(status)
  {
    if status in KnownStatuses {
      assert StatusLabel(status) !in KnownStatuses;
    }
  }

  // ---------------------------------------------------------------------------
  // Validators

  /** A character of the class `[^\s@]`. */
  predicate EmailChar(c: char) {
    !IsWhitespace(c) && c != '@'
  }

  /** `[^\s@]+` matches s[lo..hi]. */
  predicate EmailRun(s: string, lo: int, hi: int)
    requires 0 <= lo <= hi <= |s|
  {
    lo < hi && forall k :: lo <= k < hi ==> EmailChar(s[k])
  }

  /** The source's pattern `^[^\s@]+@[^\s@]+\.[^\s@]+$`, read as: s splits
      at an `@` (position i) and a later `.` (position j) into three
      non-empty runs of characters that are neither white space nor `@`. */
  ghost predicate EmailPattern(s: string) {
    exists i, j :: 0 < i && i + 1 < j && j + 1 < |s| && s[i] == '@' && s[j] == '.'
                   && EmailRun(s, 0, i) && EmailRun(s, i + 1, j) && EmailRun(s, j + 1, |s|)
  }

  /** `validateEmail`, stated directly: no white space, exactly one `@`, a
      non-empty local part, and a `.` in the domain that is neither its
      first nor its last character. */
  predicate ValidateEmail(email: string) {
    && (forall k :: 0 <= k < |email| ==> !IsWhitespace(email[k]))
    && exists a :: 0 < a < |email| && email[a] == '@'
                   && (forall k :: 0 <= k < |email| && email[k] == '@' ==> k == a)
                   && (exists d :: a + 1 < d < |email| - 1 && email[d] == '.')
  }

  lemma ValidateEmailIsPattern(email: string)
    ensures ValidateEmail(email) <==> EmailPattern(email)
  {
    if ValidateEmail(email) {
      var a :| 0 < a < |email| && email[a] == '@'
               && (forall k :: 0 <= k < |email| && email[k] == '@' ==> k == a)
               && (exists d :: a + 1 < d < |email| - 1 && email[d] == '.');
      var d :| a + 1 < d < |email| - 1 && email[d] == '.';
      assert EmailRun(email, 0, a) && EmailRun(email, a + 1, d) && EmailRun(email, d + 1, |email|);
    }
    if EmailPattern(email) {
      var i, j :| 0 < i && i + 1 < j && j + 1 < |email| && email[i] == '@' && email[j] == '.'
                  && EmailRun(email, 0, i) && EmailRun(email, i + 1, j) && EmailRun(email, j + 1, |email|);
      forall k | 0 <= k < |email|
        ensures !IsWhitespace(email[k]) && (email[k] == '@' ==> k == i)
      {
        if k < i {
          assert EmailChar(email[k]);
        } else if i < k < j {
          assert EmailChar(email[k]);
        } else if j < k {
          assert EmailChar(email[k]);
        }
      }
      assert i + 1 < j < |email| - 1 && email[j] == '.';
    }
  }

  predicate AllDigits(s: string) {
    forall k :: 0 <= k < |s| ==> IsDigit(s[k])
  }

  /** `[2-478]`: the area or mobile prefix digit. */
  predicate AreaDigit(c: char) {
    c == '2' || c == '3' || c == '4' || c == '7' || c == '8'
  }

  /** `[2-478](\d{8}|\d{4}\s\d{4})$` matches u. */
  predicate PhoneTail(u: string) {
    && |u| >= 1 && AreaDigit(u[0])
    && ((|u| == 9 && AllDigits(u[1..]))
        || (|u| == 10 && AllDigits(u[1..5]) && IsWhitespace(u[5]) && AllDigits(u[6..])))
  }

  /** `^(\+61|0)[2-478](\d{8}|\d{4}\s\d{4})$` matches t. The two prefixes
      start with different characters, so at most one alternative applies. */
  predicate PhonePattern(t: string) {
    (StartsWith(t, "+61") && PhoneTail(t[3..])) || (StartsWith(t, "0") && PhoneTail(t[1..]))
  }

  /** `validateAustralianPhone`: the pattern tested on the number with every
      white-space character removed. */
  predicate ValidateAustralianPhone(phone: string) {
    PhonePattern(StripWhitespace(phone))
  }

  /** After stripping, the `\d{4}\s\d{4}` branch can never match: a valid
      number is `+61` or `0`, one of 2, 3, 4, 7, 8, then exactly eight
      digits. */
  lemma ValidateAustralianPhoneShape(phone: string)
    ensures var t := StripWhitespace(phone);
            ValidateAustralianPhone(phone) <==>
              || (|t| == 12 && t[..3] == "+61" && AreaDigit(t[3]) && AllDigits(t[4..]))
              || (|t| == 10 && t[0] == '0' && AreaDigit(t[1]) && AllDigits(t[2..]))
  {
    var t := StripWhitespace(phone);
    if StartsWith(t, "+61") && |t| == 13 {
      assert !IsWhitespace(t[8]);
      assert t[3..][5] == t[8];
    }
    if StartsWith(t, "0") && |t| == 11 {
      assert !IsWhitespace(t[6]);
      assert t[1..][5] == t[6];
    }
    if |t| == 12 && t[..3] == "+61" && AreaDigit(t[3]) && AllDigits(t[4..]) {
      assert t[3..][1..] == t[4..];
    }
    if |t| == 10 && t[0] == '0' && AreaDigit(t[1]) && AllDigits(t[2..]) {
      assert t[1..][1..] == t[2..];
    }
  }

  // ---------------------------------------------------------------------------
  // Text

  /** `s.slice(0, end)` with JavaScript's reading of a negative end as an
      offset from the end of the string. */
  function SliceTo(s: string, end: int): (r: string)
    ensures 0 <= end <= |s| ==> r == s[..end]
    ensures end > |s| ==> r == s
    ensures end < 0 ==> r == s[..if |s| + end < 0 then 0 else |s| + end]
  {
    var e := if end < 0 then (if |s| + end < 0 then 0 else |s| + end)
             else if end > |s| then |s| else end;
    s[..e]
  }

  /** `truncateText`. For a limit below 3 the source's negative slice end
      keeps all but the last 3 - maxLength characters before the ellipsis,
      so the result can be longer than the limit. */
  function TruncateText(text: string, maxLength: int): (r: string)
    ensures |text| <= maxLength ==> r == text
    ensures |text| > maxLength >= 3 ==> |r| == maxLength && r == text[..maxLength - 3] + "..."
    ensures |text| > maxLength && maxLength < 3 ==>
              r == text[..if |text| + maxLength - 3 < 0 then 0 else |text| + maxLength - 3] + "..."
  {
    if |text| <= maxLength then text else SliceTo(text, maxLength - 3) + "..."
  }

  // ---------------------------------------------------------------------------
  // Relative time

  /** What `formatRelativeTime` shows; `Absolute` stands for the short date
      the source formats with `Intl`. */
  datatype RelativeTime = JustNow | MinutesAgo(n: int) | HoursAgo(n: int) | DaysAgo(n: int) | Absolute(dateMs: int)

  const MinuteMs := 60000
  const HourMs := 3600000
  const DayMs := 86400000
  const WeekMs := 604800000

  lemma FloorDivChain(diff: int)
    ensures diff / MinuteMs / 60 == diff / HourMs
    ensures diff / MinuteMs / 60 / 24 == diff / DayMs
  {
    var m := diff / MinuteMs;
    var h := m / 60;
    var d := h / 24;
    assert diff == HourMs * h + (MinuteMs * (m % 60) + diff % MinuteMs);
    assert 0 <= MinuteMs * (m % 60) + diff % MinuteMs < HourMs;
    assert diff == DayMs * d + (HourMs * (h % 24) + MinuteMs * (m % 60) + diff % MinuteMs);
    assert 0 <= HourMs * (h % 24) + MinuteMs * (m % 60) + diff % MinuteMs < DayMs;
  }

  /** `formatRelativeTime(date)` at time `nowMs`. Minutes, hours and days are
      floored in turn; a date in the future counts as "just now". */
  function FormatRelativeTime(nowMs: int, dateMs: int): (r: RelativeTime)
    ensures var diff := nowMs - dateMs;
      && (r == JustNow <==> diff < MinuteMs)
      && (r.MinutesAgo? <==> MinuteMs <= diff < HourMs)
      && (r.MinutesAgo? ==> r.n == diff / MinuteMs && 1 <= r.n < 60)
      && (r.HoursAgo? <==> HourMs <= diff < DayMs)
      && (r.HoursAgo? ==> r.n == diff / HourMs && 1 <= r.n < 24)
      && (r.DaysAgo? <==> DayMs <= diff < WeekMs)
      && (r.DaysAgo? ==> r.n == diff / DayMs && 1 <= r.n < 7)
      && (r.Absolute? <==> WeekMs <= diff)
      && (r.Absolute? ==> r.dateMs == dateMs)
  {
    var diffMs := nowMs - dateMs;
    var diffMins := diffMs / MinuteMs;
    var diffHours := diffMins / 60;
    var diffDays := diffHours / 24;
    FloorDivChain(diffMs);
    if diffMins < 1 then JustNow
    else if diffMins < 60 then MinutesAgo(diffMins)
    else if diffHours < 24 then HoursAgo(diffHours)
    else if diffDays < 7 then DaysAgo(diffDays)
    else Absolute(dateMs)
  }

  /** The number a run of decimal digits denotes. */
  function DigitsValue(s: string): nat
    requires AllDigits(s)
  {
    if s == [] then 0
    else DigitsValue(s[..|s| - 1]) * 10 + (s[|s| - 1] - '0') as nat
  }

  /** Decimal digits of n, as template-string interpolation writes them:
      they denote n, with no leading zero. */
  function NatToString(n: nat): (r: string)
    ensures |r| >= 1 && AllDigits(r)
    ensures DigitsValue(r) == n
    ensures r[0] == '0' ==> r == "0"
  {
    var d := ['0' + (n % 10) as char];
    if n < 10 then d
    else
      var h := NatToString(n / 10);
      assert (h + d)[..|h + d| - 1] == h;
      h + d
  }

  /** s is a count followed by a unit suffix: `${n}m ago` and the like. */
  predicate CountWithSuffix(s: string, n: int, suffix: string) {
    |s| > |suffix| && s[|s| - |suffix|..] == suffix
    && AllDigits(s[..|s| - |suffix|]) && DigitsValue(s[..|s| - |suffix|]) == n
  }

  /** The text shown for a relative time other than a full date. */
  function RelativeTimeText(t: RelativeTime): (r: Option<string>)
    ensures t == JustNow ==> r == Some("Just now")
    ensures t.MinutesAgo? ==> (r.Some? <==> t.n >= 0) && (r.Some? ==> CountWithSuffix(r.value, t.n, "m ago"))
    ensures t.HoursAgo? ==> (r.Some? <==> t.n >= 0) && (r.Some? ==> CountWithSuffix(r.value, t.n, "h ago"))
    ensures t.DaysAgo? ==> (r.Some? <==> t.n >= 0) && (r.Some? ==> CountWithSuffix(r.value, t.n, "d ago"))
    ensures t.Absolute? ==> r.None?
  {
    match t
    case JustNow => Some("Just now")
    case MinutesAgo(n) => if n >= 0 then Some(WithSuffix(n, "m ago")) else None
    case HoursAgo(n) => if n >= 0 then Some(WithSuffix(n, "h ago")) else None
    case DaysAgo(n) => if n >= 0 then Some(WithSuffix(n, "d ago")) else None
    case Absolute(_) => None
  }

  function WithSuffix(n: nat, suffix: string): (r: string)
    ensures CountWithSuffix(r, n, suffix)
  {
    var digits := NatToString(n);
    assert (digits + suffix)[..|digits + suffix| - |suffix|] == digits;
    assert (digits + suffix)[|digits + suffix| - |suffix|..] == suffix;
    digits + suffix
  }

  /** Every moment less than a week ago is shown as text; older dates fall
      through to the formatted date. */
  lemma RelativeTextShown(nowMs: int, dateMs: int)
    ensures RelativeTimeText(FormatRelativeTime(nowMs, dateMs)).Some? <==> nowMs - dateMs < WeekMs
  {
  }
}
