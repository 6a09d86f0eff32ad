/**
 * FIFO reconciliation of one party's transactions up to the cutoff.
 * Two queues: unpaid bills and unused advances. A debit pays the oldest bills
 * first and turns any surplus into an advance; a credit consumes the oldest
 * advances first and turns any surplus into a new bill.
 */
module Reconciliation {
  import opened Ledger

  /** A queued bill: its date, its amount, and how much of it earlier debits matched. */
  datatype Bill = Bill(date: int, amount: nat, matched: nat)

  /** A queued advance: its date and the amount still unused. */
  datatype Advance = Advance(date: int, amount: nat)

  datatype Queues = Queues(bills: seq<Bill>, advances: seq<Advance>)

  function Unpaid(b: Bill): int
  {
    b.amount - b.matched
  }

  /** Sum of amount - matched over the queued bills. */
  function Outstanding(bills: seq<Bill>): int
  {
    if bills == [] then 0 else Outstanding(bills[..|bills| - 1]) + Unpaid(bills[|bills| - 1])
  }

  /** Sum of the queued advances. */
  function AdvanceTotal(advances: seq<Advance>): int
  {
    if advances == [] then 0 else AdvanceTotal(advances[..|advances| - 1]) + advances[|advances| - 1].amount
  }

  /** Bills still owed minus advances still unused. */
  function Balance(q: Queues): int
  {
    Outstanding(q.bills) - AdvanceTotal(q.advances)
  }

  /** Every queued bill is partly unpaid, and only the oldest can be partly matched. */
  predicate BillsOk(bills: seq<Bill>)
  {
    forall i :: 0 <= i < |bills| ==> bills[i].matched < bills[i].amount && (i > 0 ==> bills[i].matched == 0)
  }

  predicate AdvancesOk(advances: seq<Advance>)
  {
    forall i :: 0 <= i < |advances| ==> advances[i].amount > 0
  }

  /** The queue invariant: both queues well formed, and at most one of them non-empty. */
  predicate QueuesOk(q: Queues)
  {
    BillsOk(q.bills) && AdvancesOk(q.advances) && (q.bills == [] || q.advances == [])
  }

  /** Every queued entry is dated on or before `d`. */
  predicate DatedBy(q: Queues, d: int)
  {
    (forall i :: 0 <= i < |q.bills| ==> q.bills[i].date <= d)
    && (forall i :: 0 <= i < |q.advances| ==> q.advances[i].date <= d)
  }

  /** The bills are in date order (oldest first). */
  predicate BillsInDateOrder(bills: seq<Bill>)
  {
    forall i, j :: 0 <= i < j < |bills| ==> bills[i].date <= bills[j].date
  }

  /** `after` is `before` with some oldest bills removed and, at most, the new head matched further. */
  predicate DropsOldestBills(before: seq<Bill>, after: seq<Bill>)
  {
    |after| <= |before|
    && (after != [] ==>
          var k := |before| - |after|;
          after[1..] == before[k + 1..]
          && after[0].date == before[k].date && after[0].amount == before[k].amount
          && after[0].matched >= before[k].matched)
  }

  /** `after` is `before` with some oldest advances removed and, at most, the new head reduced. */
  predicate DropsOldestAdvances(before: seq<Advance>, after: seq<Advance>)
  {
    |after| <= |before|
    && (after != [] ==>
          var k := |before| - |after|;
          after[1..] == before[k + 1..]
          && after[0].date == before[k].date && after[0].amount <= before[k].amount)
  }

  lemma OutstandingCons(b: Bill, bills: seq<Bill>)
    ensures Outstanding([b] + bills) == Unpaid(b) + Outstanding(bills)
    decreases |bills|
  {
    if bills != [] {
      assert ([b] + bills)[..|bills|] == [b] + bills[..|bills| - 1];
      OutstandingCons(b, bills[..|bills| - 1]);
    } else {
      assert [b] + bills == [b];
    }
  }

  lemma AdvanceTotalCons(a: Advance, advances: seq<Advance>)
    ensures AdvanceTotal([a] + advances) == a.amount + AdvanceTotal(advances)
    decreases |advances|
  {
    if advances != [] {
      assert ([a] + advances)[..|advances|] == [a] + advances[..|advances| - 1];
      AdvanceTotalCons(a, advances[..|advances| - 1]);
    } else {
      assert [a] + advances == [a];
    }
  }

  /**
   * The debit loop: pay `amt` into the bills, oldest first. Returns the bills
   * still open and the part of `amt` left over once every bill is paid.
   */
  function PayBills(bills: seq<Bill>, amt: nat): (seq<Bill>, nat)
    decreases |bills|
  {
    if amt == 0 || bills == [] then (bills, amt)
    else if amt < Unpaid(bills[0]) then ([bills[0].(matched := bills[0].matched + amt)] + bills[1..], 0)
    else PayBills(bills[1..], amt - Unpaid(bills[0]))
  }

  /**
   * Paying keeps the bill queue well formed and only retires its oldest bills,
   * and something is left over only when every bill is paid.
   */
  lemma {:induction false} PayBillsQueue(bills: seq<Bill>, amt: nat)
    requires BillsOk(bills)
    ensures BillsOk(PayBills(bills, amt).0) && DropsOldestBills(bills, PayBills(bills, amt).0)
    ensures PayBills(bills, amt).1 <= amt && (PayBills(bills, amt).1 > 0 ==> PayBills(bills, amt).0 == [])
    decreases |bills|
  {
    if amt != 0 && bills != [] && Unpaid(bills[0]) <= amt {
      PayBillsQueue(bills[1..], amt - Unpaid(bills[0]));
    }
  }

  /** The open amount falls by exactly the part of the debit that was used. */
  lemma {:induction false} PayBillsSum(bills: seq<Bill>, amt: nat)
    ensures Outstanding(PayBills(bills, amt).0) == Outstanding(bills) - (amt - PayBills(bills, amt).1)
    decreases |bills|
  {
    if amt != 0 && bills != [] {
      var b := bills[0];
      assert bills == [b] + bills[1..];
      OutstandingCons(b, bills[1..]);
      if amt < Unpaid(b) {
        OutstandingCons(b.(matched := b.matched + amt), bills[1..]);
      } else {
        PayBillsSum(bills[1..], amt - Unpaid(b));
      }
    }
  }

  /**
   * The credit loop: set `amt` off against the advances, oldest first. Returns the
   * advances still unused and the part of `amt` left over once every advance is used.
   */
  function ConsumeAdvances(advances: seq<Advance>, amt: nat): (seq<Advance>, nat)
    decreases |advances|
  {
    if amt == 0 || advances == [] then (advances, amt)
    else if amt < advances[0].amount then ([advances[0].(amount := advances[0].amount - amt)] + advances[1..], 0)
    else ConsumeAdvances(advances[1..], amt - advances[0].amount)
  }

  /**
   * Setting off keeps the advances positive and only uses up the oldest ones,
   * and something is left over only when every advance is used.
   */
  lemma {:induction false} ConsumeAdvancesQueue(advances: seq<Advance>, amt: nat)
    requires AdvancesOk(advances)
    ensures AdvancesOk(ConsumeAdvances(advances, amt).0) && DropsOldestAdvances(advances, ConsumeAdvances(advances, amt).0)
    ensures ConsumeAdvances(advances, amt).1 <= amt && (ConsumeAdvances(advances, amt).1 > 0 ==> ConsumeAdvances(advances, amt).0 == [])
    decreases |advances|
  {
    if amt != 0 && advances != [] && advances[0].amount <= amt {
      ConsumeAdvancesQueue(advances[1..], amt - advances[0].amount);
    }
  }

  /** The unused total falls by exactly the part of the credit that was set off. */
  lemma {:induction false} ConsumeAdvancesSum(advances: seq<Advance>, amt: nat)
    ensures AdvanceTotal(ConsumeAdvances(advances, amt).0) == AdvanceTotal(advances) - (amt - ConsumeAdvances(advances, amt).1)
    decreases |advances|
  {
    if amt != 0 && advances != [] {
      var a := advances[0];
      assert advances == [a] + advances[1..];
      AdvanceTotalCons(a, advances[1..]);
      if amt < a.amount {
        AdvanceTotalCons(a.(amount := a.amount - amt), advances[1..]);
      } else {
        ConsumeAdvancesSum(advances[1..], amt - a.amount);
      }
    }
  }

  /** What a transaction does to the balance: -debit, else +credit, and nothing after the cutoff. */
  function Effect(t: Txn, cutoff: int): int
  {
    if t.date > cutoff then 0
    else if t.debit > 0 then -t.debit
    else if t.credit > 0 then t.credit
    else 0
  }

  /** Sum of Effect over the transactions. */
  function NetEffect(txns: seq<Txn>, cutoff: int): int
  {
    if txns == [] then 0 else NetEffect(txns[..|txns| - 1], cutoff) + Effect(txns[|txns| - 1], cutoff)
  }

  /** One iteration of the reconciliation loop. */
  function Step(q: Queues, t: Txn, cutoff: int): Queues
  {
    if t.debit > 0 && t.date <= cutoff then
      var (bills, left) := PayBills(q.bills, t.debit);
      Queues(bills, if left > 0 then q.advances + [Advance(t.date, left)] else q.advances)
    else if t.credit > 0 && t.date <= cutoff then
      var (advances, left) := ConsumeAdvances(q.advances, t.credit);
      Queues(if left > 0 then q.bills + [Bill(t.date, left, 0)] else q.bills, advances)
    else q
  }

  lemma OutstandingSnoc(bills: seq<Bill>, b: Bill)
    ensures Outstanding(bills + [b]) == Outstanding(bills) + Unpaid(b)
  {
    assert (bills + [b])[..|bills|] == bills;
  }

  lemma AdvanceTotalSnoc(advances: seq<Advance>, a: Advance)
    ensures AdvanceTotal(advances + [a]) == AdvanceTotal(advances) + a.amount
  {
    assert (advances + [a])[..|advances|] == advances;
  }

  /** Each step keeps the queue invariant. */
  lemma StepOk(q: Queues, t: Txn, cutoff: int)
    requires QueuesOk(q)
    ensures QueuesOk(Step(q, t, cutoff))
  {
    if t.debit > 0 && t.date <= cutoff {
      PayBillsQueue(q.bills, t.debit);
    } else if t.credit > 0 && t.date <= cutoff {
      ConsumeAdvancesQueue(q.advances, t.credit);
    }
  }

  /** Each step moves the balance by exactly the transaction's effect. */
  lemma StepBalance(q: Queues, t: Txn, cutoff: int)
    ensures Balance(Step(q, t, cutoff)) == Balance(q) + Effect(t, cutoff)
  {
    if t.debit > 0 && t.date <= cutoff {
      PayBillsSum(q.bills, t.debit);
      AdvanceTotalSnoc(q.advances, Advance(t.date, PayBills(q.bills, t.debit).1));
    } else if t.credit > 0 && t.date <= cutoff {
      ConsumeAdvancesSum(q.advances, t.credit);
      OutstandingSnoc(q.bills, Bill(t.date, ConsumeAdvances(q.advances, t.credit).1, 0));
    }
  }

  /** The queues after the reconciliation loop has read `txns` in order. */
  function Reconcile(txns: seq<Txn>, cutoff: int): Queues
    decreases |txns|
  {
    if txns == [] then Queues([], [])
    else Step(Reconcile(txns[..|txns| - 1], cutoff), txns[|txns| - 1], cutoff)
  }

  /** The queue invariant holds after any sequence of rows. */
  lemma {:induction false} ReconcileOk(txns: seq<Txn>, cutoff: int)
    ensures QueuesOk(Reconcile(txns, cutoff))
    decreases |txns|
  {
    if txns != [] {
      ReconcileOk(txns[..|txns| - 1], cutoff);
      StepOk(Reconcile(txns[..|txns| - 1], cutoff), txns[|txns| - 1], cutoff);
    }
  }

  /** Balance conservation: open bills minus open advances equals the net of the rows up to the cutoff. */
  lemma {:induction false} ReconcileBalance(txns: seq<Txn>, cutoff: int)
    ensures Balance(Reconcile(txns, cutoff)) == NetEffect(txns, cutoff)
    decreases |txns|
  {
    if txns != [] {
      ReconcileBalance(txns[..|txns| - 1], cutoff);
      StepBalance(Reconcile(txns[..|txns| - 1], cutoff), txns[|txns| - 1], cutoff);
    }
  }

  /** Rows dated after the cutoff never touch the queues. */
  lemma {:induction false} LaterRowsIgnored(txns: seq<Txn>, later: seq<Txn>, cutoff: int)
    requires forall i :: 0 <= i < |later| ==> later[i].date > cutoff
    ensures Reconcile(txns + later, cutoff) == Reconcile(txns, cutoff)
    decreases |later|
  {
    if later == [] {
      assert txns + later == txns;
    } else {
      var init := later[..|later| - 1];
      assert (txns + later)[..|txns + later| - 1] == txns + init;
      LaterRowsIgnored(txns, init, cutoff);
    }
  }

  lemma DropsOldestKeepsDates(before: seq<Bill>, after: seq<Bill>, d: int)
    requires DropsOldestBills(before, after)
    requires forall i :: 0 <= i < |before| ==> before[i].date <= d
    requires BillsInDateOrder(before)
    ensures forall i :: 0 <= i < |after| ==> after[i].date <= d
    ensures BillsInDateOrder(after)
  {
    var k := |before| - |after|;
    forall i | 0 <= i < |after|
      ensures after[i] == before[k + i] || (i == 0 && after[0].date == before[k].date)
    {
      if i > 0 {
        assert after[i] == after[1..][i - 1];
      }
    }
  }

  lemma DropsOldestAdvancesKeepsDates(before: seq<Advance>, after: seq<Advance>, d: int)
    requires DropsOldestAdvances(before, after)
    requires forall i :: 0 <= i < |before| ==> before[i].date <= d
    ensures forall i :: 0 <= i < |after| ==> after[i].date <= d
  {
    var k := |before| - |after|;
    forall i | 0 <= i < |after|
      ensures after[i].date <= d
    {
      if i > 0 {
        assert after[i] == after[1..][i - 1];
      }
    }
  }

  /** A debit step: the bills only lose their oldest entries, and any new advance carries the row's date. */
  lemma StepOrderedDebit(q: Queues, t: Txn, cutoff: int, d: int)
    requires QueuesOk(q) && DatedBy(q, d) && DatedBy(q, cutoff) && BillsInDateOrder(q.bills)
    requires d <= t.date && t.debit > 0 && t.date <= cutoff
    ensures DatedBy(Step(q, t, cutoff), t.date) && DatedBy(Step(q, t, cutoff), cutoff)
    ensures BillsInDateOrder(Step(q, t, cutoff).bills)
  {
    PayBillsQueue(q.bills, t.debit);
    var (bills, left) := PayBills(q.bills, t.debit);
    DropsOldestKeepsDates(q.bills, bills, t.date);
    DropsOldestKeepsDates(q.bills, bills, cutoff);
  }

  /** A credit step: the advances only lose their oldest entries, and any new bill carries the row's date. */
  lemma StepOrderedCredit(q: Queues, t: Txn, cutoff: int, d: int)
    requires QueuesOk(q) && DatedBy(q, d) && DatedBy(q, cutoff) && BillsInDateOrder(q.bills)
    requires d <= t.date && t.debit <= 0 && t.credit > 0 && t.date <= cutoff
    ensures DatedBy(Step(q, t, cutoff), t.date) && DatedBy(Step(q, t, cutoff), cutoff)
    ensures BillsInDateOrder(Step(q, t, cutoff).bills)
  {
    ConsumeAdvancesQueue(q.advances, t.credit);
    var (advances, left) := ConsumeAdvances(q.advances, t.credit);
    DropsOldestAdvancesKeepsDates(q.advances, advances, t.date);
    DropsOldestAdvancesKeepsDates(q.advances, advances, cutoff);
  }

  /** A step fed a row no older than anything queued keeps the bills in date order and dated by that row and by the cutoff. */
  lemma StepOrdered(q: Queues, t: Txn, cutoff: int, d: int)
    requires QueuesOk(q) && DatedBy(q, d) && DatedBy(q, cutoff) && BillsInDateOrder(q.bills)
    requires d <= t.date
    ensures DatedBy(Step(q, t, cutoff), t.date) && DatedBy(Step(q, t, cutoff), cutoff)
    ensures BillsInDateOrder(Step(q, t, cutoff).bills)
  {
    if t.debit > 0 && t.date <= cutoff {
      StepOrderedDebit(q, t, cutoff, d);
    } else if t.credit > 0 && t.date <= cutoff {
      StepOrderedCredit(q, t, cutoff, d);
    }
  }

  /**
   * Fed rows in date order, the queued bills stay in date order (oldest first)
   * and nothing queued is dated after the last row read or the cutoff.
   */
  lemma {:induction false} ReconcileOrdered(txns: seq<Txn>, cutoff: int)
    requires txns != []
    requires DateSorted(txns)
    ensures DatedBy(Reconcile(txns, cutoff), txns[|txns| - 1].date)
    ensures DatedBy(Reconcile(txns, cutoff), cutoff)
    ensures BillsInDateOrder(Reconcile(txns, cutoff).bills)
    decreases |txns|
  {
    var init := txns[..|txns| - 1];
    var t := txns[|txns| - 1];
    if init == [] {
      StepOrdered(Queues([], []), t, cutoff, t.date);
    } else {
      assert DateSorted(init);
      ReconcileOrdered(init, cutoff);
      ReconcileOk(init, cutoff);
      StepOrdered(Reconcile(init, cutoff), t, cutoff, init[|init| - 1].date);
    }
  }

  /** The `while amt > 0 and unmatched_bills` loop: pays a debit into the bills, oldest first. */
  method PayOldestBills(bills0: seq<Bill>, debit: nat) returns (bills: seq<Bill>, amt: nat)
    requires BillsOk(bills0)
    ensures (bills, amt) == PayBills(bills0, debit)
  {
    bills, amt := bills0, debit;
    while amt > 0 && bills != []
      invariant BillsOk(bills)
      invariant PayBills(bills, amt) == PayBills(bills0, debit)
      decreases amt + |bills|
    {
      var bill := bills[0];
      var avail := bill.amount - bill.matched;
      var toMatch := if avail < amt then avail else amt;
      bill := bill.(matched := bill.matched + toMatch);
      amt := amt - toMatch;
      if bill.matched == bill.amount {
        bills := bills[1..];
      } else {
        bills := [bill] + bills[1..];
      }
    }
  }

  /** The `while bill_amt > 0 and unmatched_advances` loop: sets a credit off against the advances, oldest first. */
  method UseOldestAdvances(advances0: seq<Advance>, credit: nat) returns (advances: seq<Advance>, billAmt: nat)
    requires AdvancesOk(advances0)
    ensures (advances, billAmt) == ConsumeAdvances(advances0, credit)
  {
    advances, billAmt := advances0, credit;
    while billAmt > 0 && advances != []
      invariant AdvancesOk(advances)
      invariant ConsumeAdvances(advances, billAmt) == ConsumeAdvances(advances0, credit)
      decreases billAmt + |advances|
    {
      var adv := advances[0];
      var toMatch := if billAmt < adv.amount then billAmt else adv.amount;
      billAmt := billAmt - toMatch;
      adv := adv.(amount := adv.amount - toMatch);
      if adv.amount <= 0 {
        advances := advances[1..];
      } else {
        advances := [adv] + advances[1..];
      }
    }
  }

  /**
   * The per-party reconciliation loop of calculate_creditor_aging_and_43b:
   * feeds the party's rows, in order, to the two FIFO queues.
   */
  method ReconcileParty(txns: seq<Txn>, cutoff: int) returns (bills: seq<Bill>, advances: seq<Advance>)
    ensures Queues(bills, advances) == Reconcile(txns, cutoff)
    ensures QueuesOk(Queues(bills, advances))
    ensures Outstanding(bills) - AdvanceTotal(advances) == NetEffect(txns, cutoff)
  {
    bills, advances := [], [];
    for i := 0 to |txns|
      invariant Queues(bills, advances) == Reconcile(txns[..i], cutoff)
    {
      assert txns[..i + 1][..i] == txns[..i];
      ReconcileOk(txns[..i], cutoff);
      var t := txns[i];
      if t.debit > 0 && t.date <= cutoff {
        var amt;
        bills, amt := PayOldestBills(bills, t.debit);
        if amt > 0 {
          advances := advances + [Advance(t.date, amt)];
        }
      } else if t.credit > 0 && t.date <= cutoff {
        var billAmt;
        advances, billAmt := UseOldestAdvances(advances, t.credit);
        if billAmt > 0 {
          bills := bills + [Bill(t.date, billAmt, 0)];
        }
      }
    }
    assert txns[..|txns|] == txns;
    ReconcileOk(txns, cutoff);
    ReconcileBalance(txns, cutoff);
  }
}
