/**
 * What the two sheet loaders share: rows are padded with empty cells before
 * they are read, the status column must say "no realizado", and accepted rows
 * are split into the three date buckets, of which pending and future are then
 * sorted by date.
 */
module Rows {
  import opened Wrappers
  import opened Seqs
  import opened Text
  import opened Sorting
  import opened Dates

  /** A cell as the loaders see it: past the end of a short row it reads as `''`. */
  function Cell(row: seq<string>, i: nat): string {
    if i < |row| then row[i] else ""
  }

  /** The row after pushing `''` until it has at least `width` cells. */
  function Pad(row: seq<string>, width: nat): (r: seq<string>)
    ensures |r| == if |row| < width then width else |row|
    ensures r[..|row|] == row
    ensures forall i :: |row| <= i < |r| ==> r[i] == ""
  {
    if |row| < width then row + seq(width - |row|, _ => "") else row
  }

  /** Padding changes no cell: every cell below `width` reads as before. */
  lemma PadCells(row: seq<string>, width: nat)
    ensures forall i: nat :: i < width ==> Pad(row, width)[i] == Cell(row, i)
  {
    var r := Pad(row, width);
    forall i: nat | i < width ensures r[i] == Cell(row, i) {
      if i < |row| {
        assert r[..|row|][i] == row[i];
      }
    }
  }

  /** `while (row.length < width) row.push('')`. */
  method PadRow(row: seq<string>, width: nat) returns (padded: seq<string>)
    ensures padded == Pad(row, width)
  {
    padded := row;
    while |padded| < width
      invariant |row| <= |padded|
      invariant |row| < width ==> |padded| <= width
      invariant |row| >= width ==> padded == row
      invariant padded == row + seq(|padded| - |row|, _ => "")
      decreases width - |padded|
    {
      assert seq(|padded| + 1 - |row|, _ => "") == seq(|padded| - |row|, _ => "") + [""];
      padded := padded + [""];
    }
  }

  /** The status test `(cell || '').trim().toLowerCase() === 'no realizado'`. */
  predicate StatusOpen(cell: string) {
    ToLower(Trim(cell)) == "no realizado"
  }

  /** The three arrays a loader returns: today, pending and future. */
  datatype Buckets<T> = Buckets(today: seq<T>, pending: seq<T>, future: seq<T>)

  /**
   * The loaders' result for the accepted items `ts`: today's items in input
   * order, the earlier and the later ones each sorted by `(a, b) => a.fecha - b.fecha`.
   */
  function Bucketize<T>(ts: seq<T>, fechaOf: T -> Date, today: int): Buckets<T> {
    Buckets(InBucket(ts, fechaOf, today, Today),
            SortBy(InBucket(ts, fechaOf, today, Pending), fechaOf),
            SortBy(InBucket(ts, fechaOf, today, Future), fechaOf))
  }

  /** Every accepted item lands in exactly one bucket. */
  lemma BucketizeSplits<T>(ts: seq<T>, fechaOf: T -> Date, today: int)
    ensures var b := Bucketize(ts, fechaOf, today);
            multiset(b.today) + multiset(b.pending) + multiset(b.future) == multiset(ts)
  {
    BucketsPartition(ts, fechaOf, today);
    SortBySorted(InBucket(ts, fechaOf, today, Pending), fechaOf);
    SortBySorted(InBucket(ts, fechaOf, today, Future), fechaOf);
  }

  /**
   * Today's items are dated today, pending ones are dated and earlier, future
   * ones are later or have an Invalid Date.
   */
  lemma BucketizeDates<T>(ts: seq<T>, fechaOf: T -> Date, today: int)
    ensures forall t <- Bucketize(ts, fechaOf, today).today :: t in ts && fechaOf(t) == Some(today)
    ensures forall t <- Bucketize(ts, fechaOf, today).pending :: t in ts && fechaOf(t).Some? && fechaOf(t).value < today
    ensures forall t <- Bucketize(ts, fechaOf, today).future :: t in ts && (fechaOf(t).None? || fechaOf(t).value > today)
  {
    var p, f := InBucket(ts, fechaOf, today, Pending), InBucket(ts, fechaOf, today, Future);
    InBucketMembers(ts, fechaOf, today, Today);
    InBucketMembers(ts, fechaOf, today, Pending);
    InBucketMembers(ts, fechaOf, today, Future);
    SortBySorted(p, fechaOf);
    SortBySorted(f, fechaOf);
    forall t | t in SortBy(p, fechaOf) ensures t in p {
      assert t in multiset(p);
    }
    forall t | t in SortBy(f, fechaOf) ensures t in f {
      assert t in multiset(f);
    }
  }

  /** Pending and future are in ascending date order. */
  lemma BucketizeSorted<T>(ts: seq<T>, fechaOf: T -> Date, today: int)
    ensures Sorted(Bucketize(ts, fechaOf, today).pending, fechaOf)
    ensures Sorted(Bucketize(ts, fechaOf, today).future, fechaOf)
  {
    SortBySorted(InBucket(ts, fechaOf, today, Pending), fechaOf);
    SortBySorted(InBucket(ts, fechaOf, today, Future), fechaOf);
  }

  /** Items with the same date keep their input order in pending and future (a stable sort). */
  lemma BucketizeStable<T>(ts: seq<T>, fechaOf: T -> Date, today: int, d: Date)
    ensures FilterKey(Bucketize(ts, fechaOf, today).pending, fechaOf, d)
            == FilterKey(InBucket(ts, fechaOf, today, Pending), fechaOf, d)
    ensures FilterKey(Bucketize(ts, fechaOf, today).future, fechaOf, d)
            == FilterKey(InBucket(ts, fechaOf, today, Future), fechaOf, d)
  {
    SortByStable(InBucket(ts, fechaOf, today, Pending), fechaOf, d);
    SortByStable(InBucket(ts, fechaOf, today, Future), fechaOf, d);
  }

  /** Sorting the pending bucket again, as `sendDepartment` does, changes nothing. */
  lemma ResortPending<T>(ts: seq<T>, fechaOf: T -> Date, today: int)
    ensures SortBy(Bucketize(ts, fechaOf, today).pending, fechaOf) == Bucketize(ts, fechaOf, today).pending
  {
    BucketizeSorted(ts, fechaOf, today);
    SortByIdempotent(Bucketize(ts, fechaOf, today).pending, fechaOf);
  }
}
