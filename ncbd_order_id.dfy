/**
 * The customer-facing shop's order numbers (generateOrderId in
 * src/controllers/orderController.js): `NCBD-`, the UTC date as `yyyymmdd`,
 * `-`, and one more than the number of orders created that day, written in
 * decimal and left-padded with `0` to four digits. The clock and the day's
 * bounds are parameters; the count is `countDocuments`, which the soft-delete
 * find filter does not restrict.
 */
module NcbdOrderId {
  import opened Common
  import opened NcbdOrderModel

  const Prefix := "NCBD-"

  function DigitChar(d: nat): (c: char)
    requires d < 10
    ensures '0' <= c <= '9'
  {
    ('0' as int + d) as char
  }

  function DigitValue(c: char): nat {
    if '0' <= c <= '9' then c as int - '0' as int else 0
  }

  predicate AllDigits(s: string) {
    forall k :: 0 <= k < |s| ==> '0' <= s[k] <= '9'
  }

  /** `Number.prototype.toString()` on a non-negative integer. */
  function DecimalString(n: nat): (s: string)
    ensures s != [] && AllDigits(s)
  {
    if n < 10 then [DigitChar(n)] else DecimalString(n / 10) + [DigitChar(n % 10)]
  }

  /** The value of a string of decimal digits. */
  function ParseDecimal(s: string): nat {
    if s == [] then 0 else ParseDecimal(s[..|s| - 1]) * 10 + DigitValue(s[|s| - 1])
  }

  function Repeat(c: char, k: nat): (s: string)
    ensures |s| == k && forall i :: 0 <= i < k ==> s[i] == c
  {
    if k == 0 then [] else Repeat(c, k - 1) + [c]
  }

  /** `String.prototype.padStart` with a one-character pad. */
  function PadStart(s: string, width: nat, c: char): (r: string)
    ensures |r| == if |s| >= width then |s| else width
    ensures r[|r| - |s|..] == s
    ensures forall i :: 0 <= i < |r| - |s| ==> r[i] == c
  {
    if |s| >= width then s else Repeat(c, width - |s|) + s
  }

  /** The order number for a date part and a day's sequence number. */
  function FormatOrderId(datePart: string, sequence: nat): (id: string)
    ensures |id| >= |Prefix| + |datePart| + 5 && id[..|Prefix|] == Prefix
    ensures id[|Prefix|..|Prefix| + |datePart|] == datePart && id[|Prefix| + |datePart|] == '-'
    ensures AllDigits(id[|Prefix| + |datePart| + 1..])
  {
    var tail := PadStart(DecimalString(sequence), 4, '0');
    var id := Prefix + datePart + "-" + tail;
    assert id[|Prefix| + |datePart| + 1..] == tail;
    id
  }

  /** Reading an order number back: the date part and the sequence number, for an 8-character date part. */
  function ParseOrderId(id: string): Option<(string, nat)> {
    if |id| >= 15 && id[..5] == Prefix && id[13] == '-' && AllDigits(id[14..]) then Some((id[5..13], ParseDecimal(id[14..])))
    else None
  }

  lemma {:induction false} ParseDecimalString(n: nat)
    ensures ParseDecimal(DecimalString(n)) == n
  {
    if n >= 10 {
      var s := DecimalString(n);
      assert s[..|s| - 1] == DecimalString(n / 10);
      ParseDecimalString(n / 10);
    }
  }

  lemma {:induction false} ParseZeros(k: nat)
    ensures ParseDecimal(Repeat('0', k)) == 0
  {
    if k > 0 {
      assert Repeat('0', k)[..k - 1] == Repeat('0', k - 1);
      ParseZeros(k - 1);
    }
  }

  /** Leading zeros do not change a decimal value. */
  lemma {:induction false} ParseLeadingZeros(k: nat, s: string)
    ensures ParseDecimal(Repeat('0', k) + s) == ParseDecimal(s)
  {
    if s == [] {
      assert Repeat('0', k) + s == Repeat('0', k);
      ParseZeros(k);
    } else {
      var init := s[..|s| - 1];
      var z := Repeat('0', k) + s;
      assert z[..|z| - 1] == Repeat('0', k) + init;
      ParseLeadingZeros(k, init);
    }
  }

  lemma ParsePadded(n: nat)
    ensures ParseDecimal(PadStart(DecimalString(n), 4, '0')) == n
  {
    var s := DecimalString(n);
    if |s| < 4 { ParseLeadingZeros(4 - |s|, s); }
    ParseDecimalString(n);
  }

  /** Reading back a number with an 8-character date part gives the date part and the sequence number. */
  lemma FormatOrderIdRoundTrip(datePart: string, sequence: nat)
    requires |datePart| == 8
    ensures ParseOrderId(FormatOrderId(datePart, sequence)) == Some((datePart, sequence))
  {
    var id := FormatOrderId(datePart, sequence);
    assert id[14..] == PadStart(DecimalString(sequence), 4, '0');
    ParsePadded(sequence);
  }

  /** Two numbers with 8-character date parts are equal only for the same date and sequence number. */
  lemma FormatOrderIdInjective(d1: string, n1: nat, d2: string, n2: nat)
    requires |d1| == 8 && |d2| == 8
    requires FormatOrderId(d1, n1) == FormatOrderId(d2, n2)
    ensures d1 == d2 && n1 == n2
  {
    FormatOrderIdRoundTrip(d1, n1);
    FormatOrderIdRoundTrip(d2, n2);
  }

  /** The sequence part has at least four digits, so sequences below 10000 give numbers of one length. */
  lemma SequencePadded(datePart: string, sequence: nat)
    requires sequence < 10000
    ensures |FormatOrderId(datePart, sequence)| == |Prefix| + |datePart| + 5
  {
    var s := DecimalString(sequence);
    assert |s| <= 4 by { DecimalLength(sequence); }
  }

  lemma {:induction false} DecimalLength(n: nat)
    ensures n < 10 ==> |DecimalString(n)| == 1
    ensures n < 100 ==> |DecimalString(n)| <= 2
    ensures n < 1000 ==> |DecimalString(n)| <= 3
    ensures n < 10000 ==> |DecimalString(n)| <= 4
    ensures n >= 10 ==> |DecimalString(n)| >= 2
    ensures n >= 100 ==> |DecimalString(n)| >= 3
    ensures n >= 1000 ==> |DecimalString(n)| >= 4
    ensures n >= 10000 ==> |DecimalString(n)| >= 5
  {
    if n >= 10 { DecimalLength(n / 10); }
  }

  /** `countDocuments` over the day's creation window: deleted orders count too. */
  function TodayCount(orders: seq<Order>, dayStart: int, dayEnd: int): (n: nat)
    ensures n <= |orders|
  {
    Count(orders, (o: Order) => dayStart <= o.createdAt <= dayEnd)
  }

  /** The order number `createOrder` asks for. */
  function GenerateOrderId(orders: seq<Order>, datePart: string, dayStart: int, dayEnd: int): (id: string)
    ensures |datePart| == 8 ==> ParseOrderId(id) == Some((datePart, TodayCount(orders, dayStart, dayEnd) + 1))
  {
    var id := FormatOrderId(datePart, TodayCount(orders, dayStart, dayEnd) + 1);
    assert |datePart| == 8 ==> ParseOrderId(id) == Some((datePart, TodayCount(orders, dayStart, dayEnd) + 1)) by {
      if |datePart| == 8 { FormatOrderIdRoundTrip(datePart, TodayCount(orders, dayStart, dayEnd) + 1); }
    }
    id
  }

  /** Deleting an order (setting its flag) does not change the day's count, so numbers are not reused. */
  lemma {:induction false} CountIgnoresDeletion(orders: seq<Order>, id: nat, dayStart: int, dayEnd: int)
    requires id < |orders|
    ensures TodayCount(orders[id := orders[id].(isDeleted := true)], dayStart, dayEnd) == TodayCount(orders, dayStart, dayEnd)
  {
    var p := (o: Order) => dayStart <= o.createdAt <= dayEnd;
    var r := orders[id := orders[id].(isDeleted := true)];
    if id < |orders| - 1 {
      assert r[..|r| - 1] == orders[..|orders| - 1][id := orders[id].(isDeleted := true)];
      CountIgnoresDeletion(orders[..|orders| - 1], id, dayStart, dayEnd);
    } else {
      assert r[..|r| - 1] == orders[..|orders| - 1];
    }
  }

  // ---------------------------------------------------------------------------
  // The clock behind the date part and the day's window

  const HourMs := 3_600_000
  const DayMs := 86_400_000

  /** Asia/Dhaka, where the shop's server runs, is six hours ahead of UTC. */
  const DhakaOffsetMs := 6 * HourMs

  /** The local day, numbered from the epoch, of the clock `now` of a server `offsetMs` ahead of UTC. */
  function LocalDay(now: int, offsetMs: int): int {
    (now + offsetMs) / DayMs
  }

  /**
   * `setHours(0, 0, 0, 0)` on the clock `now` (milliseconds since the epoch)
   * of a server `offsetMs` ahead of UTC: the first millisecond of its local day.
   */
  function LocalDayStart(now: int, offsetMs: int): (s: int)
    ensures s <= now < s + DayMs
  {
    LocalDay(now, offsetMs) * DayMs - offsetMs
  }

  lemma SameDaySameStart(t1: int, t2: int, offsetMs: int)
    requires LocalDay(t1, offsetMs) == LocalDay(t2, offsetMs)
    ensures LocalDayStart(t1, offsetMs) == LocalDayStart(t2, offsetMs)
  {
  }

  /** The `yyyymmdd` of the local day of `now`, where `dateOf` writes the date of a day numbered from the epoch. */
  function LocalDate(now: int, offsetMs: int, dateOf: int -> string): string {
    dateOf(LocalDay(now, offsetMs))
  }

  /** The `yyyymmdd` of the UTC day of `now` (`toISOString().slice(0, 10)` without the dashes). */
  function UtcDate(now: int, dateOf: int -> string): string {
    dateOf(now / DayMs)
  }

  /**
   * generateOrderId as written: the date part is the UTC date of `now`
   * (`toISOString`), the counted window is the local day (`setHours`).
   * `dateOf` gives the `yyyymmdd` of a day numbered from the epoch.
   */
  function OrderIdAsWrittenAt(orders: seq<Order>, now: int, offsetMs: int, dateOf: int -> string): string {
    var start := LocalDayStart(now, offsetMs);
    GenerateOrderId(orders, UtcDate(now, dateOf), start, start + DayMs - 1)
  }

  /** The number as intended: the date part and the counted window are the same local day. */
  function OrderIdAt(orders: seq<Order>, now: int, offsetMs: int, dateOf: int -> string): string {
    var start := LocalDayStart(now, offsetMs);
    GenerateOrderId(orders, LocalDate(now, offsetMs, dateOf), start, start + DayMs - 1)
  }

  /** Storing one more order raises the day's count by one exactly when it was created within the window. */
  lemma {:induction false} TodayCountAppend(orders: seq<Order>, o: Order, dayStart: int, dayEnd: int)
    ensures TodayCount(orders + [o], dayStart, dayEnd)
         == TodayCount(orders, dayStart, dayEnd) + if dayStart <= o.createdAt <= dayEnd then 1 else 0
  {
    assert (orders + [o])[..|orders|] == orders;
  }

  /** An order created at `t1` is counted by every later call on the same local day. */
  lemma {:induction false} SameDayCountsStored(orders: seq<Order>, o: Order, t1: int, t2: int, offsetMs: int)
    requires o.createdAt == t1 && LocalDay(t1, offsetMs) == LocalDay(t2, offsetMs)
    ensures var s1, s2 := LocalDayStart(t1, offsetMs), LocalDayStart(t2, offsetMs);
      TodayCount(orders + [o], s2, s2 + DayMs - 1) == TodayCount(orders, s1, s1 + DayMs - 1) + 1
  {
    SameDaySameStart(t1, t2, offsetMs);
    var s := LocalDayStart(t1, offsetMs);
    TodayCountAppend(orders, o, s, s + DayMs - 1);
  }

  /** The number the intended generator gives reads back as its local date and sequence. */
  lemma OrderIdAtReadsBack(orders: seq<Order>, now: int, offsetMs: int, dateOf: int -> string)
    requires |LocalDate(now, offsetMs, dateOf)| == 8
    ensures ParseOrderId(OrderIdAt(orders, now, offsetMs, dateOf)) ==
              Some((LocalDate(now, offsetMs, dateOf),
                    TodayCount(orders, LocalDayStart(now, offsetMs), LocalDayStart(now, offsetMs) + DayMs - 1) + 1))
  {}

  /**
   * With the two days' dates written as distinct 8-character strings, once
   * an order holding the intended number is stored, no later call hands out
   * its number again.
   */
  lemma {:induction false} OrderIdAtFresh(orders: seq<Order>, o: Order, t1: int, t2: int, offsetMs: int, dateOf: int -> string)
    requires |LocalDate(t1, offsetMs, dateOf)| == 8 && |LocalDate(t2, offsetMs, dateOf)| == 8
    requires LocalDay(t1, offsetMs) != LocalDay(t2, offsetMs) ==>
               LocalDate(t1, offsetMs, dateOf) != LocalDate(t2, offsetMs, dateOf)
    requires o.createdAt == t1 && o.orderId == OrderIdAt(orders, t1, offsetMs, dateOf)
    ensures o.orderId != OrderIdAt(orders + [o], t2, offsetMs, dateOf)
  {
    OrderIdAtReadsBack(orders, t1, offsetMs, dateOf);
    OrderIdAtReadsBack(orders + [o], t2, offsetMs, dateOf);
    if LocalDay(t1, offsetMs) == LocalDay(t2, offsetMs) {
      SameDayCountsStored(orders, o, t1, t2, offsetMs);
    }
  }

  /** Eleven at night in Dhaka, 17:00 UTC, on day 20000 since the epoch. */
  const EveningMs := 20000 * DayMs + 17 * HourMs

  /**
   * As written, an order placed at eleven at night in Dhaka and the first
   * order after local midnight, two hours later, get the same number: both
   * carry the UTC date, and the second counts from the new local day.
   */
  lemma OrderIdCollisionAsWritten(o: Order, dateOf: int -> string)
    requires o.createdAt == EveningMs && o.orderId == OrderIdAsWrittenAt([], EveningMs, DhakaOffsetMs, dateOf)
    ensures OrderIdAsWrittenAt([o], EveningMs + 2 * HourMs, DhakaOffsetMs, dateOf) == o.orderId
  {
    var later := EveningMs + 2 * HourMs;
    assert EveningMs / DayMs == 20000 && later / DayMs == 20000;
    assert (later + DhakaOffsetMs) / DayMs == 20001;
    var start := LocalDayStart(later, DhakaOffsetMs);
    assert start == 20000 * DayMs + 18 * HourMs;
    assert [o][..0] == [];
    assert TodayCount([o], start, start + DayMs - 1) == 0;
  }
}
