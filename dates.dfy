/**
 * Dates as the row loops build them: `parseInt(n, 10)` of each `/`-separated
 * part, then `new Date(y, m - 1, d)` at local midnight. A date is a day number
 * (days since 1970-01-01) or `None` for an Invalid Date, whose `getTime()` is
 * `NaN`.
 */
module Dates {
  import opened Wrappers
  import opened Text

  type Date = Option<int>

  predicate IsDigit(c: char) {
    '0' <= c <= '9'
  }

  /** The number of leading decimal digits. */
  function DigitPrefix(s: string): (n: nat)
    ensures n <= |s|
    ensures forall i :: 0 <= i < n ==> IsDigit(s[i])
    ensures n < |s| ==> !IsDigit(s[n])
  {
    if s != [] && IsDigit(s[0]) then 1 + DigitPrefix(s[1..]) else 0
  }

  /** The value of a string of decimal digits. */
  function DigitsValue(s: string): nat
    requires forall i :: 0 <= i < |s| ==> IsDigit(s[i])
  {
    if s == [] then 0
    else
      var c := s[|s| - 1];
      assert IsDigit(c);
      10 * DigitsValue(s[..|s| - 1]) + (c as int - '0' as int)
  }

  /** What `parseInt` reads digits from: the text after leading whitespace and one sign. */
  function Unsigned(s: string): string {
    var t := TrimStart(s);
    if t != [] && (t[0] == '-' || t[0] == '+') then t[1..] else t
  }

  /**
   * `parseInt(s, 10)`: leading whitespace is skipped, one sign is allowed, and
   * the longest run of digits after it is read; no digit gives `NaN`.
   */
  function ParseInt(s: string): (r: Option<int>)
    ensures r.Some? <==> Unsigned(s) != [] && IsDigit(Unsigned(s)[0])
  {
    var t := TrimStart(s);
    var neg := t != [] && t[0] == '-';
    var u := Unsigned(s);
    var n := DigitPrefix(u);
    if n == 0 then None
    else
      var v: int := DigitsValue(u[..n]);
      Some(if neg then -v else v)
  }

  /** The decimal digits of `n`, the inverse of `DigitsValue`. */
  function Decimal(n: nat): (s: string)
    ensures s != [] && forall i :: 0 <= i < |s| ==> IsDigit(s[i])
  {
    var d := [('0' as int + n % 10) as char];
    if n < 10 then d else Decimal(n / 10) + d
  }

  lemma {:induction false} DecimalValue(n: nat)
    ensures DigitsValue(Decimal(n)) == n
  {
    var s := Decimal(n);
    if n >= 10 {
      DecimalValue(n / 10);
      assert s[..|s| - 1] == Decimal(n / 10);
    }
  }

  lemma {:induction false} DigitPrefixAll(s: string)
    requires forall i :: 0 <= i < |s| ==> IsDigit(s[i])
    ensures DigitPrefix(s) == |s|
  {
    if s != [] {
      DigitPrefixAll(s[1..]);
    }
  }

  /** `parseInt` reads back every non-negative number written in decimal. */
  lemma ParseIntDecimal(n: nat)
    ensures ParseInt(Decimal(n)) == Some(n)
  {
    var s := Decimal(n);
    assert IsDigit(s[0]);
    assert TrimStart(s) == s;
    assert Unsigned(s) == s;
    DigitPrefixAll(s);
    DecimalValue(n);
    assert s[..|s|] == s;
  }

  /** Days from 1970-01-01 to the first day of `month` (1-12) of `year`, proleptic Gregorian. */
  function DaysFromCivil(year: int, month: int): int
    requires 1 <= month <= 12
  {
    var y := if month <= 2 then year - 1 else year;
    var era := y / 400;
    var yoe := y - era * 400;
    var mp := (month + 9) % 12;
    var doy := (153 * mp + 2) / 5;
    var doe := yoe * 365 + yoe / 4 - yoe / 100 + doy;
    era * 146097 + doe - 719468
  }

  /** ECMAScript's limit on time values: 8.64e15 ms, that is 1e8 days either side of 1970. */
  const MaxDays: int := 100000000

  /**
   * `new Date(y, m - 1, d)` with `setHours(0,0,0,0)`: `NaN` in any part gives an
   * Invalid Date; years 0-99 mean 1900-1999; months and days out of range carry
   * over as `MakeDay` prescribes.
   */
  function MakeDate(y: Option<int>, m: Option<int>, d: Option<int>): (r: Date)
    ensures (y.None? || m.None? || d.None?) ==> r.None?
    ensures r.Some? ==> -MaxDays <= r.value <= MaxDays
  {
    if y.None? || m.None? || d.None? then None
    else
      var year := if 0 <= y.value <= 99 then 1900 + y.value else y.value;
      var month := m.value - 1;
      var day := DaysFromCivil(year + month / 12, month % 12 + 1) + d.value - 1;
      if -MaxDays <= day <= MaxDays then Some(day) else None
  }

  /** The day of month counts one day at a time. */
  lemma MakeDateNextDay(y: int, m: int, d: int)
    requires MakeDate(Some(y), Some(m), Some(d)).Some? && MakeDate(Some(y), Some(m), Some(d + 1)).Some?
    ensures MakeDate(Some(y), Some(m), Some(d + 1)).value == MakeDate(Some(y), Some(m), Some(d)).value + 1
  {
  }

  /** Month 13 of a year is January of the next (for years outside the two-digit range). */
  lemma MakeDateMonthCarry(y: int, d: int)
    requires y >= 100
    ensures MakeDate(Some(y), Some(13), Some(d)) == MakeDate(Some(y + 1), Some(1), Some(d))
  {
  }

  /** 1 January 1970 is day 0. */
  lemma EpochIsDayZero()
    ensures MakeDate(Some(1970), Some(1), Some(1)) == Some(0)
  {
    assert 0 / 12 == 0 && 0 % 12 == 0;
    assert 1969 / 400 == 4;
    assert (153 * 10 + 2) / 5 == 306;
    assert 369 / 4 == 92 && 369 / 100 == 3;
    assert DaysFromCivil(1970, 1) == 0;
  }

  datatype Bucket = Today | Pending | Future

  /**
   * The three-way test on `getTime()`: equal to today, earlier, else future. A
   * `NaN` time fails both comparisons and falls through to the future bucket.
   */
  function BucketOf(fecha: Date, today: int): (b: Bucket)
    ensures b == Today <==> fecha == Some(today)
    ensures b == Pending <==> fecha.Some? && fecha.value < today
    ensures b == Future <==> fecha.None? || fecha.value > today
  {
    if fecha == Some(today) then Today
    else if fecha.Some? && fecha.value < today then Pending
    else Future
  }

  /** The elements of `ts` whose date falls into bucket `b`, in input order. */
  function InBucket<T>(ts: seq<T>, fechaOf: T -> Date, today: int, b: Bucket): (r: seq<T>)
    ensures |r| <= |ts|
  {
    if ts == [] then []
    else
      var last := ts[|ts| - 1];
      InBucket(ts[..|ts| - 1], fechaOf, today, b) + (if BucketOf(fechaOf(last), today) == b then [last] else [])
  }

  /** Appending one element extends the bucket it belongs to and no other. */
  lemma InBucketSnoc<T>(ts: seq<T>, t: T, fechaOf: T -> Date, today: int, b: Bucket)
    ensures InBucket(ts + [t], fechaOf, today, b)
            == InBucket(ts, fechaOf, today, b) + (if BucketOf(fechaOf(t), today) == b then [t] else [])
  {
    assert (ts + [t])[..|ts|] == ts;
  }

  lemma {:induction false} InBucketMembers<T>(ts: seq<T>, fechaOf: T -> Date, today: int, b: Bucket)
    ensures forall t <- InBucket(ts, fechaOf, today, b) :: t in ts && BucketOf(fechaOf(t), today) == b
  {
    if ts != [] {
      InBucketMembers(ts[..|ts| - 1], fechaOf, today, b);
    }
  }

  lemma AddToOne<T>(a: multiset<T>, b: multiset<T>, c: multiset<T>, o: multiset<T>, s: multiset<T>)
    requires a + b + c == s
    ensures (a + o) + b + c == s + o && a + (b + o) + c == s + o && a + b + (c + o) == s + o
  {
  }

  lemma PartSnoc<T>(ts: seq<T>, t: T, fechaOf: T -> Date, today: int, b: Bucket)
    ensures BucketOf(fechaOf(t), today) == b ==>
              multiset(InBucket(ts + [t], fechaOf, today, b)) == multiset(InBucket(ts, fechaOf, today, b)) + multiset{t}
    ensures BucketOf(fechaOf(t), today) != b ==> InBucket(ts + [t], fechaOf, today, b) == InBucket(ts, fechaOf, today, b)
  {
    InBucketSnoc(ts, t, fechaOf, today, b);
  }

  /** Every element lands in exactly one of the three buckets. */
  lemma {:induction false} BucketsPartition<T>(ts: seq<T>, fechaOf: T -> Date, today: int)
    ensures multiset(InBucket(ts, fechaOf, today, Today)) + multiset(InBucket(ts, fechaOf, today, Pending))
            + multiset(InBucket(ts, fechaOf, today, Future)) == multiset(ts)
  {
    if ts != [] {
      var init, last := ts[..|ts| - 1], ts[|ts| - 1];
      BucketsPartition(init, fechaOf, today);
      var a, b, c := multiset(InBucket(init, fechaOf, today, Today)), multiset(InBucket(init, fechaOf, today, Pending)),
                     multiset(InBucket(init, fechaOf, today, Future));
      assert multiset(ts) == multiset(init) + multiset{last} by {
        assert ts == init + [last];
      }
      PartSnoc(init, last, fechaOf, today, Today);
      PartSnoc(init, last, fechaOf, today, Pending);
      PartSnoc(init, last, fechaOf, today, Future);
      assert init + [last] == ts;
      AddToOne(a, b, c, multiset{last}, multiset(init));
    }
  }
}
