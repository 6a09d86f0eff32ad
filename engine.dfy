/**
 * calculate_creditor_aging_and_43b: the per-party pipeline (reconcile, age,
 * allocate post-cutoff payments, classify) and its run over every party of the
 * parsed ledger, producing the aging summary, the invoice-level aging log and
 * the 43B(h) disallowance log.
 */
module Engine {
  import opened Common
  import opened Ledger
  import opened Reconciliation
  import opened Aging
  import opened Allocation
  import opened Exemption

  /** One row of the aging summary. */
  datatype Summary = Summary(party: string, total: int, buckets: BucketSums, advance: int)

  /** The three output tables. */
  datatype Report = Report(summary: seq<Summary>, log: seq<AgingRow>, disallow: seq<DisallowRow>)

  const NoReport := Report([], [], [])

  /** The summary row of a party from its queues at the cutoff. */
  function SummaryOf(party: string, q: Queues, cutoff: int): Summary
  {
    var buckets := SumBuckets(AgedRows(party, q.bills, cutoff));
    Summary(party, Total(buckets), buckets, AdvanceTotal(q.advances))
  }

  /** The three tables' rows of a party, from its queues at the cutoff, its post-cutoff payments and its exemption. */
  function Assemble(v: Variant, party: string, q: Queues, pays: seq<Payment>, cutoff: int, e: Exemption): Report
  {
    Report([SummaryOf(party, q, cutoff)], AgedRows(party, q.bills, cutoff),
           ClassifyAll(v, party, AllocateAll(PendingOf(q.bills), pays), e))
  }

  /** The loop body of one party: its transactions are already in date order. */
  function PartyReport(v: Variant, party: string, txns: seq<Txn>, cutoff: int, e: Exemption): Report
  {
    Assemble(v, party, Reconcile(txns, cutoff), PaymentsAfterCutoff(txns, cutoff), cutoff, e)
  }

  lemma {:induction false} AdvanceTotalNonNegative(advances: seq<Advance>)
    ensures AdvanceTotal(advances) >= 0
    decreases |advances|
  {
    if advances != [] {
      AdvanceTotalNonNegative(advances[..|advances| - 1]);
    }
  }

  /**
   * The summary row: Total Outstanding is what the queued bills still owe and the
   * advance what the queued advances hold, so their difference is the queues'
   * balance; neither is negative and at most one is non-zero.
   */
  lemma SummaryBalance(party: string, q: Queues, cutoff: int)
    requires QueuesOk(q)
    ensures SummaryOf(party, q, cutoff).party == party
    ensures SummaryOf(party, q, cutoff).total == Outstanding(q.bills)
    ensures SummaryOf(party, q, cutoff).advance == AdvanceTotal(q.advances)
    ensures SummaryOf(party, q, cutoff).total >= 0 && SummaryOf(party, q, cutoff).advance >= 0
    ensures SummaryOf(party, q, cutoff).total == 0 || SummaryOf(party, q, cutoff).advance == 0
  {
    SummaryTotal(party, q, cutoff);
    AdvanceTotalNonNegative(q.advances);
    OutstandingNonNegative(q.bills);
  }

  lemma SummaryTotal(party: string, q: Queues, cutoff: int)
    requires BillsOk(q.bills)
    ensures SummaryOf(party, q, cutoff).total == Outstanding(q.bills)
  {
    var log := AgedRows(party, q.bills, cutoff);
    AgedRowsSum(party, q.bills, cutoff);
    BucketsPartitionUnpaid(log);
  }

  /** Each bucket of the summary row holds the unpaid amounts of the log rows in that bucket, and the total is their sum. */
  lemma SummaryBuckets(party: string, q: Queues, cutoff: int)
    ensures forall b :: Get(SummaryOf(party, q, cutoff).buckets, b) == BucketUnpaid(AgedRows(party, q.bills, cutoff), b)
    ensures SummaryOf(party, q, cutoff).total == UnpaidSum(AgedRows(party, q.bills, cutoff))
  {
    BucketsPartitionUnpaid(AgedRows(party, q.bills, cutoff));
  }

  lemma {:induction false} OutstandingNonNegative(bills: seq<Bill>)
    requires BillsOk(bills)
    ensures Outstanding(bills) >= 0
    decreases |bills|
  {
    if bills != [] {
      assert BillsOk(bills[..|bills| - 1]);
      OutstandingNonNegative(bills[..|bills| - 1]);
    }
  }

  /** The invoices after allocation line up with the aging log, row by row. */
  lemma InvoicesMatchLog(party: string, bills: seq<Bill>, pays: seq<Payment>, cutoff: int)
    requires BillsOk(bills)
    ensures var log, invs := AgedRows(party, bills, cutoff), AllocateAll(PendingOf(bills), pays);
      && |invs| == |log|
      && forall i :: 0 <= i < |log| ==> LinesUp(party, log[i], invs[i])
  {
    var log := AgedRows(party, bills, cutoff);
    var pending := PendingOf(bills);
    var invs := AllocateAll(pending, pays);
    assert |log| == |bills| && forall i :: 0 <= i < |log| ==> log[i] == RowOf(party, bills[i], cutoff) by {
      AgedRowsSpec(party, bills, cutoff);
    }
    assert |pending| == |log| && forall i :: 0 <= i < |log| ==>
      && pending[i].remaining == log[i].unpaid && pending[i].paid == 0 && pending[i].paidDate == None
      && pending[i].date == log[i].invoiceDate && pending[i].amount == log[i].amount by {
      PendingMatchesRows(party, bills, cutoff);
    }
    assert |invs| == |pending| && forall i :: 0 <= i < |pending| ==>
      && invs[i].date == pending[i].date && invs[i].amount == pending[i].amount
      && invs[i].paid + invs[i].remaining == pending[i].remaining by {
      AllocateAllSpec(pending, pays);
    }
    forall i | 0 <= i < |log|
      ensures LinesUp(party, log[i], invs[i])
    {
      assert log[i] == RowOf(party, bills[i], cutoff);
      assert bills[i].matched < bills[i].amount;
    }
  }

  /** An aging-log row and the invoice it became: same invoice, and what was paid after the cutoff plus what remains is the row's unpaid amount. */
  predicate LinesUp(party: string, row: AgingRow, inv: Invoice)
  {
    && row.party == party && row.unpaid > 0
    && inv.date == row.invoiceDate && inv.amount == row.amount
    && inv.paid + inv.remaining == row.unpaid && inv.paid <= inv.amount
  }

  /**
   * Every aging-log row has exactly one disallowance row, for the same invoice,
   * whose unpaid-after and reported paid amounts add up to the row's unpaid
   * amount at the cutoff.
   */
  lemma DisallowSpec(v: Variant, party: string, q: Queues, pays: seq<Payment>, cutoff: int, e: Exemption)
    requires BillsOk(q.bills)
    ensures var r := Assemble(v, party, q, pays, cutoff, e);
      && |r.disallow| == |r.log|
      && forall i :: 0 <= i < |r.log| ==> Accounted(party, r.log[i], r.disallow[i])
  {
    var log, invs := AgedRows(party, q.bills, cutoff), AllocateAll(PendingOf(q.bills), pays);
    var rows := ClassifyAll(v, party, invs, e);
    InvoicesMatchLog(party, q.bills, pays, cutoff);
    ClassifyAllSpec(v, party, invs, e);
    forall i | 0 <= i < |log|
      ensures Accounted(party, log[i], rows[i])
    {
      assert LinesUp(party, log[i], invs[i]);
      assert rows[i] == Classify(v, party, invs[i], e);
    }
  }

  /** A disallowance row accounts for an aging-log row: same invoice, and its unpaid-after and reported paid amounts add up to the row's unpaid amount at the cutoff. */
  predicate Accounted(party: string, row: AgingRow, d: DisallowRow)
  {
    && row.party == party && row.unpaid > 0
    && d.party == party && d.invoiceDate == row.invoiceDate && d.amount == row.amount
    && d.unpaidAfter + d.paidReported == row.unpaid
  }

  /** The summary row of a party's report is the one of its queues at the cutoff. */
  lemma PartySummary(v: Variant, party: string, txns: seq<Txn>, cutoff: int, e: Exemption)
    ensures PartyReport(v, party, txns, cutoff, e).summary == [SummaryOf(party, Reconcile(txns, cutoff), cutoff)]
  {
  }

  /** The summary row of well-formed queues: Total Outstanding minus the advance is their balance. */
  lemma SummaryNet(party: string, q: Queues, cutoff: int)
    requires BillsOk(q.bills)
    ensures SummaryOf(party, q, cutoff).total - SummaryOf(party, q, cutoff).advance == Balance(q)
  {
    SummaryTotal(party, q, cutoff);
  }

  /** Balance conservation for one party: Total Outstanding minus the advance is the party's net balance up to the cutoff. */
  lemma PartyReportBalance(v: Variant, party: string, txns: seq<Txn>, cutoff: int, e: Exemption)
    ensures var s := PartyReport(v, party, txns, cutoff, e).summary[0];
      s.total - s.advance == NetEffect(txns, cutoff)
  {
    PartySummary(v, party, txns, cutoff, e);
    ReconcileOk(txns, cutoff);
    ReconcileBalance(txns, cutoff);
    SummaryNet(party, Reconcile(txns, cutoff), cutoff);
  }

  /** A party either still owes (Total Outstanding) or holds an advance, never both, and neither is negative. */
  lemma PartyReportSettled(v: Variant, party: string, txns: seq<Txn>, cutoff: int, e: Exemption)
    ensures var s := PartyReport(v, party, txns, cutoff, e).summary[0];
      s.total >= 0 && s.advance >= 0 && (s.total == 0 || s.advance == 0)
  {
    PartySummary(v, party, txns, cutoff, e);
    ReconcileOk(txns, cutoff);
    SummaryBalance(party, Reconcile(txns, cutoff), cutoff);
  }

  /** One summary row, for the party, whose total is the sum of the log's unpaid amounts. */
  lemma PartyReportTotal(v: Variant, party: string, txns: seq<Txn>, cutoff: int, e: Exemption)
    ensures var r := PartyReport(v, party, txns, cutoff, e);
      && |r.summary| == 1 && r.summary[0].party == party
      && r.summary[0].total == UnpaidSum(r.log)
  {
    var q := Reconcile(txns, cutoff);
    SummaryBuckets(party, q, cutoff);
  }

  /** Every aging-log row of the party has exactly one disallowance row, which accounts for it. */
  lemma PartyReportRows(v: Variant, party: string, txns: seq<Txn>, cutoff: int, e: Exemption)
    ensures var r := PartyReport(v, party, txns, cutoff, e);
      && |r.disallow| == |r.log|
      && forall i :: 0 <= i < |r.log| ==> Accounted(party, r.log[i], r.disallow[i])
  {
    ReconcileOk(txns, cutoff);
    DisallowSpec(v, party, Reconcile(txns, cutoff), PaymentsAfterCutoff(txns, cutoff), cutoff, e);
  }

  /**
   * With the party's transactions in date order, every aged invoice is dated on
   * or before the cutoff (its age is not negative), the aging log is in invoice
   * date order, and the post-cutoff payments come in date order.
   */
  lemma PartyReportOrdered(party: string, txns: seq<Txn>, cutoff: int)
    requires DateSorted(txns)
    ensures var log := AgedRows(party, Reconcile(txns, cutoff).bills, cutoff);
      && (forall i :: 0 <= i < |log| ==> log[i].age >= 0)
      && (forall i, j :: 0 <= i < j < |log| ==> log[i].invoiceDate <= log[j].invoiceDate)
    ensures PaymentsInDateOrder(PaymentsAfterCutoff(txns, cutoff))
  {
    PaymentsOrdered(txns, cutoff);
    var q := Reconcile(txns, cutoff);
    if txns != [] {
      ReconcileOrdered(txns, cutoff);
    }
    ReconcileOk(txns, cutoff);
    AgedRowsSpec(party, q.bills, cutoff);
    AgesNonNegative(party, q.bills, cutoff);
    var log := AgedRows(party, q.bills, cutoff);
    forall i | 0 <= i < |log|
      ensures log[i].age >= 0
    {
      assert log[i] in log;
    }
  }

  /** The party's output as the method computes it, stage by stage. */
  method RunParty(v: Variant, party: string, group: seq<Txn>, cutoff: int, table: seq<MsmeRow>) returns (r: Report)
    ensures r == PartyReport(v, party, SortRecords(group), cutoff, IsExempt(table, party))
  {
    var txns := SortRecords(group);
    var bills, advances := ReconcileParty(txns, cutoff);
    var buckets, log, pending := AgeBills(party, bills, cutoff);
    var pays := CollectPayments(txns, cutoff);
    var invs := AllocateAfterCutoff(pending, pays);
    var e := IsExempt(table, party);
    var rows := BuildDisallowances(v, party, invs, e);
    r := Report([Summary(party, Total(buckets), buckets, AdvanceTotal(advances))], log, rows);
  }

  /**
   * Only the last payment that reduced an invoice counts: 400 paid on day 10 and
   * 600 on day 60 leave the paid date at day 60, so the invoice of day 0 is late
   * under both rules although its first payment came in time.
   */
  lemma LastPaymentDecides(v: Variant)
    ensures var invs := AllocateAll([Invoice(0, 1000, 1000, 0, None)], [Payment(10, 400), Payment(60, 600)]);
      && invs == [Invoice(0, 1000, 0, 1000, Some(60))]
      && Classify(v, "Acme", invs[0], Exemption(false, "")).within == "No"
      && Classify(v, "Acme", invs[0], Exemption(false, "")).disallowed == "Yes"
  {
    var pays := [Payment(10, 400), Payment(60, 600)];
    assert pays[..1] == [Payment(10, 400)] && pays[..1][..0] == [];
    var first := Allocate([Invoice(0, 1000, 1000, 0, None)], 400, 10);
    assert first.0 == [Invoice(0, 1000, 600, 400, Some(10))];
    assert first.0[1..] == [] && Share(first.0[0], 600) == 600;
    assert Allocate(first.0[1..], 0, 60) == ([], 0);
    assert Take(first.0[0], 600, 60) == Invoice(0, 1000, 0, 1000, Some(60));
    var second := Allocate(first.0, 600, 60);
    assert second.0 == [Invoice(0, 1000, 0, 1000, Some(60))];
  }

  /** "Acme": a bill of 1000 on 2025-01-01 paid in full on 2025-02-01; cutoff 2025-03-31. */
  lemma AcmeExample(v: Variant, e: Exemption)
    ensures var r := PartyReport(v, "Acme", [Txn("Acme", 20089, 0, 1000), Txn("Acme", 20120, 1000, 0)], 20178, e);
      r.log == [] && r.disallow == [] && r.summary[0].total == 0 && r.summary[0].advance == 0
  {
    var t0, t1 := Txn("Acme", 20089, 0, 1000), Txn("Acme", 20120, 1000, 0);
    var txns := [t0, t1];
    assert txns[..1] == [t0] && [t0][..0] == [];
    var q0 := Queues([], []);
    assert Reconcile([t0], 20178) == Step(q0, t0, 20178);
    assert ConsumeAdvances([], 1000) == ([], 1000);
    var q1 := Queues([Bill(20089, 1000, 0)], []);
    assert Step(q0, t0, 20178) == q1;
    assert Reconcile(txns, 20178) == Step(q1, t1, 20178);
    assert PayBills(q1.bills, 1000) == PayBills([], 0);
    assert Step(q1, t1, 20178) == q0;
    AllocateAllSpec([], PaymentsAfterCutoff(txns, 20178));
  }

  /** "Beta": a payment of 500 on 2025-01-01 with no bill before it becomes an advance of 500. */
  lemma BetaExample(v: Variant, e: Exemption)
    ensures var r := PartyReport(v, "Beta", [Txn("Beta", 20089, 500, 0)], 20178, e);
      r.log == [] && r.disallow == [] && r.summary[0].buckets == NoSums
      && r.summary[0].total == 0 && r.summary[0].advance == 500
  {
    var t0 := Txn("Beta", 20089, 500, 0);
    assert [t0][..0] == [];
    var q0 := Queues([], []);
    assert Reconcile([t0], 20178) == Step(q0, t0, 20178);
    assert PayBills([], 500) == ([], 500);
    var q1 := Queues([], [Advance(20089, 500)]);
    assert Step(q0, t0, 20178) == q1;
    assert [Advance(20089, 500)][..0] == [];
    AllocateAllSpec([], PaymentsAfterCutoff([t0], 20178));
  }

  // ---------------------------------------------------------------
  // Grouping by party
  // ---------------------------------------------------------------

  /** The parties of the records, each once, in order of first appearance. */
  function Parties(data: seq<Txn>): seq<string>
  {
    if data == [] then []
    else
      var init := Parties(data[..|data| - 1]);
      var p := data[|data| - 1].party;
      if p in init then init else init + [p]
  }

  /** A party's records, in their order in `data`. */
  function GroupOf(data: seq<Txn>, p: string): seq<Txn>
  {
    if data == [] then []
    else
      var t := data[|data| - 1];
      GroupOf(data[..|data| - 1], p) + (if t.party == p then [t] else [])
  }

  /**
   * groupby("Party") partitions the records: each party appears once, the
   * parties are exactly those of the records, and a party's group holds exactly
   * its records, so every record lies in exactly one group.
   */
  lemma {:induction false} GroupingSpec(data: seq<Txn>)
    ensures forall i, j :: 0 <= i < j < |Parties(data)| ==> Parties(data)[i] != Parties(data)[j]
    ensures forall p :: p in Parties(data) <==> exists t :: t in data && t.party == p
    ensures forall p, t :: t in GroupOf(data, p) <==> t in data && t.party == p
    decreases |data|
  {
    if data != [] {
      var init := data[..|data| - 1];
      var last := data[|data| - 1];
      GroupingSpec(init);
      assert data == init + [last];
      forall p | p in Parties(data)
        ensures exists t :: t in data && t.party == p
      {
        if p in Parties(init) {
          var t :| t in init && t.party == p;
          assert t in data;
        } else {
          assert last in data;
        }
      }
      forall p | exists t :: t in data && t.party == p
        ensures p in Parties(data)
      {
        var t :| t in data && t.party == p;
        if t in init {
          assert p in Parties(init);
        }
      }
    }
  }

  /** The groups of sorted records are in date order. */
  lemma {:induction false} GroupOfDateSorted(data: seq<Txn>, p: string)
    requires Sorted(data)
    ensures DateSorted(GroupOf(data, p))
    decreases |data|
  {
    if data != [] {
      var init := data[..|data| - 1];
      var last := data[|data| - 1];
      assert Sorted(init);
      GroupOfDateSorted(init, p);
      GroupingSpec(init);
      if last.party == p {
        var g := GroupOf(init, p);
        forall i | 0 <= i < |g|
          ensures g[i].date <= last.date
        {
          assert g[i] in g;
          var k :| 0 <= k < |init| && init[k] == g[i];
          SortedKeyLe(data, k, |data| - 1);
          StrLessIrreflexive(p);
        }
      }
    }
  }

  /** On (party, date)-sorted records, `group.sort_values("Date")` leaves every group as it is. */
  lemma GroupOfSortedFixed(data: seq<Txn>, p: string)
    requires Sorted(data)
    ensures SortRecords(GroupOf(data, p)) == GroupOf(data, p)
  {
    var g := GroupOf(data, p);
    GroupOfDateSorted(data, p);
    GroupingSpec(data);
    forall i | 0 <= i < |g|
      ensures g[i].party == p
    {
      assert g[i] in g;
    }
    SortKeepsSortedGroup(g, p);
  }

  /**
   * On (party, date)-sorted records the parties appear in strictly ascending
   * order, so first-appearance order is the sorted key order `groupby` uses.
   */
  lemma {:induction false} PartiesAscending(data: seq<Txn>)
    requires Sorted(data)
    ensures forall i, j :: 0 <= i < j < |Parties(data)| ==> StrLess(Parties(data)[i], Parties(data)[j])
    decreases |data|
  {
    if data != [] {
      var init := data[..|data| - 1];
      var last := data[|data| - 1];
      assert Sorted(init);
      PartiesAscending(init);
      if last.party !in Parties(init) {
        var ps := Parties(init);
        GroupingSpec(init);
        forall i | 0 <= i < |ps|
          ensures StrLess(ps[i], last.party)
        {
          assert ps[i] in ps;
          var t :| t in init && t.party == ps[i];
          var k :| 0 <= k < |init| && init[k] == t;
          SortedKeyLe(data, k, |data| - 1);
        }
      }
    }
  }

  lemma {:induction false} StrLessTransitive(a: string, b: string, c: string)
    requires StrLess(a, b) && StrLess(b, c)
    ensures StrLess(a, c)
    decreases |a|
  {
    if a != [] && a[0] == b[0] && b[0] == c[0] {
      StrLessTransitive(a[1..], b[1..], c[1..]);
    }
  }

  lemma KeyLeTransitive(a: Txn, b: Txn, c: Txn)
    requires KeyLe(a, b) && KeyLe(b, c)
    ensures KeyLe(a, c)
  {
    if StrLess(a.party, b.party) && StrLess(b.party, c.party) {
      StrLessTransitive(a.party, b.party, c.party);
    }
  }

  /** Adjacent order gives order between any two positions. */
  lemma {:induction false} SortedKeyLe(s: seq<Txn>, i: int, j: int)
    requires Sorted(s) && 0 <= i <= j < |s|
    ensures KeyLe(s[i], s[j]) || s[i] == s[j]
    decreases j - i
  {
    if i < j {
      SortedKeyLe(s, i + 1, j);
      if s[i + 1] == s[j] {
      } else {
        KeyLeTransitive(s[i], s[i + 1], s[j]);
      }
    }
  }

  // ---------------------------------------------------------------
  // The whole run
  // ---------------------------------------------------------------

  function Join(a: Report, b: Report): Report
  {
    Report(a.summary + b.summary, a.log + b.log, a.disallow + b.disallow)
  }

  /** The reports of the parties `ps`, one after another. */
  function ReportsFor(v: Variant, ps: seq<string>, data: seq<Txn>, cutoff: int, table: seq<MsmeRow>): Report
  {
    if ps == [] then NoReport
    else
      var p := ps[|ps| - 1];
      Join(ReportsFor(v, ps[..|ps| - 1], data, cutoff, table), PartyReport(v, p, SortRecords(GroupOf(data, p)), cutoff, IsExempt(table, p)))
  }

  /** calculate_creditor_aging_and_43b on the parsed records. */
  function Calculate(v: Variant, data: seq<Txn>, cutoff: int, table: Option<seq<MsmeRow>>): Result<Report, string>
  {
    match ExemptionTable(v, table)
    case Err(msg) => Err(msg)
    case Ok(t) => Ok(ReportsFor(v, Parties(data), data, cutoff, t))
  }

  /** The shape of the reports of the parties `ps`: one summary row per party, in
      party order, one disallowance row per log row, and the summary totals adding
      up to the log's unpaid amounts. */
  predicate Covers(r: Report, ps: seq<string>)
  {
    && |r.summary| == |ps|
    && (forall k :: 0 <= k < |ps| ==> r.summary[k].party == ps[k])
    && |r.disallow| == |r.log|
    && TotalsSum(r.summary) == UnpaidSum(r.log)
  }

  /** Appending one party's report keeps the shape. */
  lemma JoinCovers(a: Report, ps: seq<string>, b: Report, p: string)
    requires Covers(a, ps) && Covers(b, [p])
    ensures Covers(Join(a, b), ps + [p])
  {
    TotalsSumAppend(a.summary, b.summary);
    UnpaidSumAppend(a.log, b.log);
  }

  /** One party's report has the shape of a one-party run. */
  lemma PartyReportCovers(v: Variant, party: string, txns: seq<Txn>, cutoff: int, e: Exemption)
    ensures Covers(PartyReport(v, party, txns, cutoff, e), [party])
  {
    var b := PartyReport(v, party, txns, cutoff, e);
    PartyReportTotal(v, party, txns, cutoff, e);
    PartyReportRows(v, party, txns, cutoff, e);
    assert b.summary == [b.summary[0]];
  }

  /** The reports of any list of parties have that shape. */
  lemma {:induction false} ReportsForSpec(v: Variant, ps: seq<string>, data: seq<Txn>, cutoff: int, table: seq<MsmeRow>)
    ensures Covers(ReportsFor(v, ps, data, cutoff, table), ps)
    decreases |ps|
  {
    if ps != [] {
      var init := ps[..|ps| - 1];
      var p := ps[|ps| - 1];
      var a := ReportsFor(v, init, data, cutoff, table);
      var b := PartyReport(v, p, SortRecords(GroupOf(data, p)), cutoff, IsExempt(table, p));
      ReportsForSpec(v, init, data, cutoff, table);
      PartyReportCovers(v, p, SortRecords(GroupOf(data, p)), cutoff, IsExempt(table, p));
      CoversSnoc(ReportsFor(v, ps, data, cutoff, table), a, b, ps);
    }
  }

  lemma CoversSnoc(r: Report, a: Report, b: Report, ps: seq<string>)
    requires ps != [] && Covers(a, ps[..|ps| - 1]) && Covers(b, [ps[|ps| - 1]]) && r == Join(a, b)
    ensures Covers(r, ps)
  {
    JoinCovers(a, ps[..|ps| - 1], b, ps[|ps| - 1]);
    assert ps[..|ps| - 1] + [ps[|ps| - 1]] == ps;
  }

  function TotalsSum(s: seq<Summary>): int
  {
    if s == [] then 0 else TotalsSum(s[..|s| - 1]) + s[|s| - 1].total
  }

  lemma {:induction false} TotalsSumAppend(a: seq<Summary>, b: seq<Summary>)
    ensures TotalsSum(a + b) == TotalsSum(a) + TotalsSum(b)
    decreases |b|
  {
    if b != [] {
      assert (a + b)[..|a + b| - 1] == a + b[..|b| - 1];
      TotalsSumAppend(a, b[..|b| - 1]);
    } else {
      assert a + b == a;
    }
  }

  lemma {:induction false} UnpaidSumAppend(a: seq<AgingRow>, b: seq<AgingRow>)
    ensures UnpaidSum(a + b) == UnpaidSum(a) + UnpaidSum(b)
    decreases |b|
  {
    if b != [] {
      assert (a + b)[..|a + b| - 1] == a + b[..|b| - 1];
      UnpaidSumAppend(a, b[..|b| - 1]);
    } else {
      assert a + b == a;
    }
  }

  /**
   * The whole run: it fails only in the first version and only on a missing
   * MSME table; otherwise there is one summary row per party, each party once.
   */
  lemma CalculateSpec(v: Variant, data: seq<Txn>, cutoff: int, table: Option<seq<MsmeRow>>)
    ensures Calculate(v, data, cutoff, table).Err? <==> v == FirstTry && table.None?
    ensures Calculate(v, data, cutoff, table).Ok? ==>
      var r := Calculate(v, data, cutoff, table).value;
      && |r.summary| == |Parties(data)|
      && (forall k :: 0 <= k < |r.summary| ==> r.summary[k].party == Parties(data)[k])
      && (forall j, k :: 0 <= j < k < |r.summary| ==> r.summary[j].party != r.summary[k].party)
      && |r.disallow| == |r.log|
      && TotalsSum(r.summary) == UnpaidSum(r.log)
  {
    GroupingSpec(data);
    match ExemptionTable(v, table)
    case Err(_) =>
    case Ok(t) =>
      ReportsForSpec(v, Parties(data), data, cutoff, t);
  }

  /** With an empty MSME table no disallowance row carries an exemption: every invoice faces the 45-day test. */
  lemma {:induction false} ReportsWithoutTable(v: Variant, ps: seq<string>, data: seq<Txn>, cutoff: int)
    ensures forall d :: d in ReportsFor(v, ps, data, cutoff, []).disallow ==> d.exemptionApplied == "No" && d.within != "Exempt"
    decreases |ps|
  {
    if ps != [] {
      var p := ps[|ps| - 1];
      ReportsWithoutTable(v, ps[..|ps| - 1], data, cutoff);
      var txns := SortRecords(GroupOf(data, p));
      var invs := AllocateAll(PendingOf(Reconcile(txns, cutoff).bills), PaymentsAfterCutoff(txns, cutoff));
      var e := IsExempt([], p);
      assert e == Exemption(false, "");
      ClassifyAllSpec(v, p, invs, e);
      forall i | 0 <= i < |invs|
        ensures Classify(v, p, invs[i], e).exemptionApplied == "No" && Classify(v, p, invs[i], e).within != "Exempt"
      {
        ClassifySpec(v, p, invs[i], e);
      }
    }
  }

  /**
   * The final version runs without an MSME table exactly as with an empty one,
   * and then no invoice is exempted.
   */
  lemma MissingTableMeansNoExemption(data: seq<Txn>, cutoff: int)
    ensures Calculate(Final, data, cutoff, None) == Calculate(Final, data, cutoff, Some([]))
    ensures Calculate(Final, data, cutoff, None).Ok?
    ensures forall d :: d in Calculate(Final, data, cutoff, None).value.disallow ==> d.exemptionApplied == "No" && d.within != "Exempt"
  {
    ReportsWithoutTable(Final, Parties(data), data, cutoff);
  }

  /** One more party appends its report to those of the parties before it. */
  lemma ReportsForSnoc(v: Variant, ps: seq<string>, k: nat, data: seq<Txn>, cutoff: int, table: seq<MsmeRow>)
    requires k < |ps|
    ensures ReportsFor(v, ps[..k + 1], data, cutoff, table)
      == Join(ReportsFor(v, ps[..k], data, cutoff, table), PartyReport(v, ps[k], SortRecords(GroupOf(data, ps[k])), cutoff, IsExempt(table, ps[k])))
  {
    assert ps[..k + 1][..k] == ps[..k];
  }

  /** The loop over the groups, appending each party's rows to the three tables. */
  method CalculateAll(v: Variant, data: seq<Txn>, cutoff: int, table: Option<seq<MsmeRow>>) returns (r: Result<Report, string>)
    ensures r == Calculate(v, data, cutoff, table)
  {
    var t: seq<MsmeRow>;
    match ExemptionTable(v, table)
    case Err(msg) =>
      return Err(msg);
    case Ok(t0) =>
      t := t0;
    var ps := Parties(data);
    var acc := NoReport;
    for k := 0 to |ps|
      invariant acc == ReportsFor(v, ps[..k], data, cutoff, t)
    {
      var out := RunParty(v, ps[k], GroupOf(data, ps[k]), cutoff, t);
      ReportsForSnoc(v, ps, k, data, cutoff, t);
      acc := Join(acc, out);
    }
    assert ps[..|ps|] == ps;
    r := Ok(acc);
  }

  /** Sorting a sorted party group changes nothing. */
  lemma {:induction false} SortKeepsSortedGroup(s: seq<Txn>, p: string)
    requires forall i :: 0 <= i < |s| ==> s[i].party == p
    requires DateSorted(s)
    ensures SortRecords(s) == s
    decreases |s|
  {
    if s != [] {
      var init := s[..|s| - 1];
      SortKeepsSortedGroup(init, p);
      InsertAtEnd(s[|s| - 1], init, p);
      assert init + [s[|s| - 1]] == s;
    }
  }

  lemma {:induction false} InsertAtEnd(x: Txn, s: seq<Txn>, p: string)
    requires forall i :: 0 <= i < |s| ==> s[i].party == p
    requires x.party == p
    requires forall i :: 0 <= i < |s| ==> s[i].date <= x.date
    ensures Insert(x, s) == s + [x]
    decreases |s|
  {
    if s != [] {
      StrLessIrreflexive(p);
      assert !KeyLess(x, s[0]);
      InsertAtEnd(x, s[1..], p);
      assert s == [s[0]] + s[1..];
    }
  }
}
