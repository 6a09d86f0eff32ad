/**
 * Aging of the bills still open at the cutoff: each unpaid bill goes into one of
 * four day-bands by its age, the bands are summed per party, and every such bill
 * becomes a log row and a pending invoice for the post-cutoff allocation.
 */
module Aging {
  import opened Common
  import opened Reconciliation

  /** The four aging buckets, keyed "0-45", "46-60", "61-90" and ">90" in the summary and the log. */
  datatype Bucket = UpTo45 | UpTo60 | UpTo90 | Over90

  /** The if/elif chain on the age in days. */
  function BucketOf(age: int): Bucket
  {
    if age <= 45 then UpTo45
    else if age <= 60 then UpTo60
    else if age <= 90 then UpTo90
    else Over90
  }

  /** The day-band a bucket stands for. */
  predicate InBand(age: int, b: Bucket)
  {
    match b
    case UpTo45 => age <= 45
    case UpTo60 => 45 < age <= 60
    case UpTo90 => 60 < age <= 90
    case Over90 => 90 < age
  }

  /** Every age lies in exactly one band, the one BucketOf picks. */
  lemma BucketPartition(age: int, b: Bucket)
    ensures InBand(age, b) <==> b == BucketOf(age)
  {
  }

  /** The four running totals of the `buckets` dict. */
  datatype BucketSums = BucketSums(upTo45: int, upTo60: int, upTo90: int, over90: int)

  const NoSums := BucketSums(0, 0, 0, 0)

  function Get(s: BucketSums, b: Bucket): int
  {
    match b
    case UpTo45 => s.upTo45
    case UpTo60 => s.upTo60
    case UpTo90 => s.upTo90
    case Over90 => s.over90
  }

  /** `buckets[bucket] += x`. */
  function AddTo(s: BucketSums, b: Bucket, x: int): (r: BucketSums)
    ensures Get(r, b) == Get(s, b) + x
    ensures forall c :: c != b ==> Get(r, c) == Get(s, c)
  {
    match b
    case UpTo45 => s.(upTo45 := s.upTo45 + x)
    case UpTo60 => s.(upTo60 := s.upTo60 + x)
    case UpTo90 => s.(upTo90 := s.upTo90 + x)
    case Over90 => s.(over90 := s.over90 + x)
  }

  /** Total Outstanding: sum(buckets.values()). */
  function Total(s: BucketSums): int
  {
    s.upTo45 + s.upTo60 + s.upTo90 + s.over90
  }

  /** One row of the invoice-level aging log. */
  datatype AgingRow = AgingRow(party: string, invoiceDate: int, amount: nat, matched: nat, unpaid: int, age: int, bucket: Bucket)

  /** A pending invoice: its date and amount, what is still owed, and what later payments covered and when. */
  datatype Invoice = Invoice(date: int, amount: nat, remaining: nat, paid: nat, paidDate: Option<int>)

  /** The log row of a bill. */
  function RowOf(party: string, b: Bill, cutoff: int): AgingRow
  {
    var age := cutoff - b.date;
    AgingRow(party, b.date, b.amount, b.matched, Unpaid(b), age, BucketOf(age))
  }

  /** The log rows of the bills with something unpaid, in queue order. */
  function AgedRows(party: string, bills: seq<Bill>, cutoff: int): seq<AgingRow>
  {
    if bills == [] then []
    else
      var b := bills[|bills| - 1];
      AgedRows(party, bills[..|bills| - 1], cutoff) + (if Unpaid(b) <= 0 then [] else [RowOf(party, b, cutoff)])
  }

  /** The pending invoices of the bills with something unpaid, in queue order. */
  function PendingOf(bills: seq<Bill>): seq<Invoice>
  {
    if bills == [] then []
    else
      var b := bills[|bills| - 1];
      PendingOf(bills[..|bills| - 1]) + (if Unpaid(b) <= 0 then [] else [Invoice(b.date, b.amount, Unpaid(b), 0, None)])
  }

  /** The buckets after adding every log row's unpaid amount to its bucket. */
  function SumBuckets(rows: seq<AgingRow>): BucketSums
  {
    if rows == [] then NoSums
    else
      var r := rows[|rows| - 1];
      AddTo(SumBuckets(rows[..|rows| - 1]), r.bucket, r.unpaid)
  }

  function UnpaidSum(rows: seq<AgingRow>): int
  {
    if rows == [] then 0 else UnpaidSum(rows[..|rows| - 1]) + rows[|rows| - 1].unpaid
  }

  /** Unpaid amount of the rows in bucket `b`. */
  function BucketUnpaid(rows: seq<AgingRow>, b: Bucket): int
  {
    if rows == [] then 0
    else BucketUnpaid(rows[..|rows| - 1], b) + (if rows[|rows| - 1].bucket == b then rows[|rows| - 1].unpaid else 0)
  }

  /** Each bucket holds exactly the unpaid amounts of its rows, so the four buckets
      partition the rows and Total Outstanding is the sum of all unpaid amounts. */
  lemma {:induction false} BucketsPartitionUnpaid(rows: seq<AgingRow>)
    ensures forall b :: Get(SumBuckets(rows), b) == BucketUnpaid(rows, b)
    ensures Total(SumBuckets(rows)) == UnpaidSum(rows)
    decreases |rows|
  {
    if rows != [] {
      BucketsPartitionUnpaid(rows[..|rows| - 1]);
    }
  }

  /**
   * With the queue invariant no open bill is skipped: log row i describes bill i,
   * with unpaid = amount - matched > 0, the age in days to the cutoff and the
   * bucket of that age.
   */
  lemma {:induction false} AgedRowsSpec(party: string, bills: seq<Bill>, cutoff: int)
    requires BillsOk(bills)
    ensures |AgedRows(party, bills, cutoff)| == |bills|
    ensures forall i :: 0 <= i < |bills| ==> AgedRows(party, bills, cutoff)[i] == RowOf(party, bills[i], cutoff)
    ensures forall i :: 0 <= i < |bills| ==> AgedRows(party, bills, cutoff)[i].unpaid > 0
    decreases |bills|
  {
    if bills != [] {
      var init := bills[..|bills| - 1];
      var last := bills[|bills| - 1];
      assert BillsOk(init);
      AgedRowsSpec(party, init, cutoff);
      var rows := AgedRows(party, bills, cutoff);
      var before := AgedRows(party, init, cutoff);
      assert Unpaid(last) > 0;
      assert rows == before + [RowOf(party, last, cutoff)];
      forall i | 0 <= i < |bills|
        ensures rows[i] == RowOf(party, bills[i], cutoff)
      {
        if i < |init| {
          assert rows[i] == before[i] && bills[i] == init[i];
        }
      }
    }
  }

  /** With the queue invariant the log rows add up to the party's outstanding amount. */
  lemma {:induction false} AgedRowsSum(party: string, bills: seq<Bill>, cutoff: int)
    requires BillsOk(bills)
    ensures UnpaidSum(AgedRows(party, bills, cutoff)) == Outstanding(bills)
    decreases |bills|
  {
    if bills != [] {
      var init := bills[..|bills| - 1];
      var last := bills[|bills| - 1];
      assert BillsOk(init);
      AgedRowsSum(party, init, cutoff);
      var rows := AgedRows(party, bills, cutoff);
      assert Unpaid(last) > 0;
      assert rows == AgedRows(party, init, cutoff) + [RowOf(party, last, cutoff)];
      assert rows[..|rows| - 1] == AgedRows(party, init, cutoff);
    }
  }

  /** Every log row is matched by the pending invoice at the same position, whatever the queue. */
  lemma {:induction false} PendingMatchesRows(party: string, bills: seq<Bill>, cutoff: int)
    ensures |PendingOf(bills)| == |AgedRows(party, bills, cutoff)|
    ensures forall i :: 0 <= i < |PendingOf(bills)| ==>
      var r, p := AgedRows(party, bills, cutoff)[i], PendingOf(bills)[i];
      && r.unpaid > 0 && p.remaining == r.unpaid
      && p.date == r.invoiceDate && p.amount == r.amount && p.paid == 0 && p.paidDate == None
    decreases |bills|
  {
    if bills != [] {
      PendingMatchesRows(party, bills[..|bills| - 1], cutoff);
    }
  }

  /** Bills dated on or before the cutoff have a non-negative age. */
  lemma {:induction false} AgesNonNegative(party: string, bills: seq<Bill>, cutoff: int)
    requires forall i :: 0 <= i < |bills| ==> bills[i].date <= cutoff
    ensures forall r :: r in AgedRows(party, bills, cutoff) ==> r.age >= 0
    decreases |bills|
  {
    if bills != [] {
      AgesNonNegative(party, bills[..|bills| - 1], cutoff);
    }
  }

  /** Reading one more bill appends its log row and pending invoice, if it has anything unpaid. */
  lemma AgedRowsSnoc(party: string, bills: seq<Bill>, i: nat, cutoff: int)
    requires i < |bills|
    ensures AgedRows(party, bills[..i + 1], cutoff)
      == AgedRows(party, bills[..i], cutoff) + (if Unpaid(bills[i]) <= 0 then [] else [RowOf(party, bills[i], cutoff)])
    ensures PendingOf(bills[..i + 1])
      == PendingOf(bills[..i]) + (if Unpaid(bills[i]) <= 0 then [] else [Invoice(bills[i].date, bills[i].amount, Unpaid(bills[i]), 0, None)])
  {
    assert bills[..i + 1][..i] == bills[..i];
  }

  lemma SumBucketsSnoc(rows: seq<AgingRow>, r: AgingRow)
    ensures SumBuckets(rows + [r]) == AddTo(SumBuckets(rows), r.bucket, r.unpaid)
  {
    assert (rows + [r])[..|rows|] == rows;
  }

  /** The aging loop: skips settled bills, buckets each unpaid one by age, logs it and queues it for allocation. */
  method AgeBills(party: string, bills: seq<Bill>, cutoff: int) returns (buckets: BucketSums, log: seq<AgingRow>, pending: seq<Invoice>)
    ensures log == AgedRows(party, bills, cutoff) && pending == PendingOf(bills)
    ensures buckets == SumBuckets(log)
    ensures Total(buckets) == UnpaidSum(log)
  {
    buckets, log, pending := NoSums, [], [];
    for i := 0 to |bills|
      invariant log == AgedRows(party, bills[..i], cutoff) && pending == PendingOf(bills[..i])
      invariant buckets == SumBuckets(log)
    {
      AgedRowsSnoc(party, bills, i, cutoff);
      var bill := bills[i];
      var unpaid := bill.amount - bill.matched;
      if unpaid <= 0 {
        continue;
      }
      var age := cutoff - bill.date;
      var bucket: Bucket;
      if age <= 45 {
        bucket := UpTo45;
      } else if age <= 60 {
        bucket := UpTo60;
      } else if age <= 90 {
        bucket := UpTo90;
      } else {
        bucket := Over90;
      }
      var row := AgingRow(party, bill.date, bill.amount, bill.matched, unpaid, age, bucket);
      assert row == RowOf(party, bill, cutoff);
      SumBucketsSnoc(log, row);
      buckets := AddTo(buckets, bucket, unpaid);
      log := log + [row];
      pending := pending + [Invoice(bill.date, bill.amount, unpaid, 0, None)];
    }
    assert bills[..|bills|] == bills;
    BucketsPartitionUnpaid(log);
  }
}
