/**
 * Post-cutoff allocation: debits dated after the cutoff are applied, in date
 * order, to the invoices still open at the cutoff, oldest invoice first. Each
 * invoice records how much these payments covered and the date of the last
 * payment that reduced it. Whatever a payment has left once every invoice is
 * settled is dropped.
 */
module Allocation {
  import opened Common
  import opened Ledger
  import opened Aging

  /** A post-cutoff payment: its date and its amount still to allocate. */
  datatype Payment = Payment(date: int, amount: nat)

  /** payments_after_cutoff: every debit > 0 dated after the cutoff, in row order. */
  function PaymentsAfterCutoff(txns: seq<Txn>, cutoff: int): seq<Payment>
  {
    if txns == [] then []
    else
      var t := txns[|txns| - 1];
      PaymentsAfterCutoff(txns[..|txns| - 1], cutoff)
        + (if t.debit > 0 && t.date > cutoff then [Payment(t.date, t.debit)] else [])
  }

  predicate PaymentsInDateOrder(pays: seq<Payment>)
  {
    forall i, j :: 0 <= i < j < |pays| ==> pays[i].date <= pays[j].date
  }

  /** Every payment is a positive debit dated after the cutoff, taken from one of the rows. */
  lemma {:induction false} PaymentsSound(txns: seq<Txn>, cutoff: int)
    ensures forall p :: p in PaymentsAfterCutoff(txns, cutoff) ==>
      && p.date > cutoff && p.amount > 0
      && exists k :: 0 <= k < |txns| && txns[k].debit == p.amount && txns[k].date == p.date
    decreases |txns|
  {
    if txns != [] {
      var init := txns[..|txns| - 1];
      PaymentsSound(init, cutoff);
      forall p | p in PaymentsAfterCutoff(init, cutoff)
        ensures exists k :: 0 <= k < |txns| && txns[k].debit == p.amount && txns[k].date == p.date
      {
        var k :| 0 <= k < |init| && init[k].debit == p.amount && init[k].date == p.date;
        assert txns[k] == init[k];
      }
    }
  }

  /** Every positive debit dated after the cutoff gives a payment. */
  lemma {:induction false} PaymentsComplete(txns: seq<Txn>, cutoff: int)
    ensures forall t :: t in txns && t.debit > 0 && t.date > cutoff ==> Payment(t.date, t.debit) in PaymentsAfterCutoff(txns, cutoff)
    decreases |txns|
  {
    if txns != [] {
      var init := txns[..|txns| - 1];
      PaymentsComplete(init, cutoff);
      assert txns == init + [txns[|txns| - 1]];
    }
  }

  /** Rows in date order give payments in date order, so sorting them by date, with Python's stable sort, leaves them as they are. */
  lemma {:induction false} PaymentsOrdered(txns: seq<Txn>, cutoff: int)
    requires DateSorted(txns)
    ensures PaymentsInDateOrder(PaymentsAfterCutoff(txns, cutoff))
    decreases |txns|
  {
    if txns != [] {
      var init := txns[..|txns| - 1];
      var t := txns[|txns| - 1];
      assert DateSorted(init);
      PaymentsOrdered(init, cutoff);
      PaymentsSound(init, cutoff);
      var before := PaymentsAfterCutoff(init, cutoff);
      forall i | 0 <= i < |before|
        ensures before[i].date <= t.date
      {
        assert before[i] in before;
        var k :| 0 <= k < |init| && init[k].debit == before[i].amount && init[k].date == before[i].date;
        assert txns[k] == init[k];
      }
    }
  }

  /** The loop building payments_after_cutoff. */
  method CollectPayments(txns: seq<Txn>, cutoff: int) returns (pays: seq<Payment>)
    ensures pays == PaymentsAfterCutoff(txns, cutoff)
  {
    pays := [];
    for i := 0 to |txns|
      invariant pays == PaymentsAfterCutoff(txns[..i], cutoff)
    {
      assert txns[..i + 1][..i] == txns[..i];
      var r := txns[i];
      if r.debit > 0 && r.date > cutoff {
        pays := pays + [Payment(r.date, r.debit)];
      }
    }
    assert txns[..|txns|] == txns;
  }

  function RemainingSum(invs: seq<Invoice>): int
  {
    if invs == [] then 0 else invs[0].remaining + RemainingSum(invs[1..])
  }

  /** What the invoice takes from a payment of `amt`: min(remaining, amt), or nothing once it is settled. */
  function Share(inv: Invoice, amt: nat): nat
  {
    if inv.remaining <= 0 then 0 else Min(inv.remaining, amt)
  }

  /** The invoice after taking its share of a payment dated `date`. */
  function Take(inv: Invoice, amt: nat, date: int): Invoice
  {
    if inv.remaining <= 0 then inv
    else
      var alloc := Share(inv, amt);
      inv.(remaining := inv.remaining - alloc, paid := inv.paid + alloc, paidDate := Some(date))
  }

  /**
   * One payment of `amt` dated `date`, walked over the invoices in order until it
   * is used up. Returns the invoices and what is left of the payment.
   */
  function Allocate(invs: seq<Invoice>, amt: nat, date: int): (seq<Invoice>, nat)
    decreases |invs|
  {
    if invs == [] || amt == 0 then (invs, amt)
    else
      var (rest, left) := Allocate(invs[1..], amt - Share(invs[0], amt), date);
      ([Take(invs[0], amt, date)] + rest, left)
  }

  /**
   * One payment: dates and amounts are kept, paid + remaining is conserved, an
   * invoice's paid date becomes the payment's date exactly when the payment
   * reduced it, the payment is used up unless every invoice is settled, an
   * invoice is reduced only once every earlier one is settled (oldest first),
   * and the total remaining falls by exactly what the payment used.
   */
  lemma {:induction false} AllocateSpec(invs: seq<Invoice>, amt: nat, date: int)
    ensures var r := Allocate(invs, amt, date);
      && |r.0| == |invs| && r.1 <= amt
      && (forall i :: 0 <= i < |invs| ==>
            && r.0[i].date == invs[i].date && r.0[i].amount == invs[i].amount
            && r.0[i].remaining <= invs[i].remaining
            && r.0[i].paid + r.0[i].remaining == invs[i].paid + invs[i].remaining
            && r.0[i].paidDate == (if r.0[i].remaining < invs[i].remaining then Some(date) else invs[i].paidDate))
      && (r.1 > 0 ==> forall i :: 0 <= i < |invs| ==> r.0[i].remaining == 0)
      && (forall i, j :: 0 <= i < j < |invs| && r.0[j].remaining < invs[j].remaining ==> r.0[i].remaining == 0)
      && RemainingSum(r.0) == RemainingSum(invs) - (amt - r.1)
    decreases |invs|
  {
    if invs != [] && amt != 0 {
      var amt' := amt - Share(invs[0], amt);
      AllocateSpec(invs[1..], amt', date);
      var r := Allocate(invs, amt, date);
      var sub := Allocate(invs[1..], amt', date);
      assert r.0 == [Take(invs[0], amt, date)] + sub.0;
      assert r.0[1..] == sub.0;
      forall i | 0 < i < |invs|
        ensures r.0[i] == sub.0[i - 1] && invs[i] == invs[1..][i - 1]
      {
      }
    }
  }

  /** The invoices after every payment has been allocated in turn. */
  function AllocateAll(invs: seq<Invoice>, pays: seq<Payment>): seq<Invoice>
  {
    if pays == [] then invs
    else
      var p := pays[|pays| - 1];
      Allocate(AllocateAll(invs, pays[..|pays| - 1]), p.amount, p.date).0
  }

  /** Paid-after-cutoff is zero exactly when no paid date is recorded. */
  predicate PaidDateOk(invs: seq<Invoice>)
  {
    forall i :: 0 <= i < |invs| ==> (invs[i].paidDate.None? <==> invs[i].paid == 0)
  }

  /**
   * Over all payments: dates and amounts are kept, paid + remaining is what was
   * open at the cutoff, a paid date is recorded exactly when something was paid,
   * and a recorded paid date is the date of one of the payments.
   */
  lemma {:induction false} AllocateAllSpec(invs: seq<Invoice>, pays: seq<Payment>)
    requires forall i :: 0 <= i < |invs| ==> invs[i].paid == 0 && invs[i].paidDate == None
    ensures var r := AllocateAll(invs, pays);
      && |r| == |invs| && PaidDateOk(r)
      && (forall i :: 0 <= i < |invs| ==>
            && r[i].date == invs[i].date && r[i].amount == invs[i].amount
            && r[i].paid + r[i].remaining == invs[i].remaining)
      && (forall i :: 0 <= i < |invs| && r[i].paidDate.Some? ==>
            exists k :: 0 <= k < |pays| && pays[k].date == r[i].paidDate.value)
    decreases |pays|
  {
    if pays != [] {
      var init := pays[..|pays| - 1];
      var p := pays[|pays| - 1];
      AllocateAllSpec(invs, init);
      var before := AllocateAll(invs, init);
      AllocateSpec(before, p.amount, p.date);
      var r := AllocateAll(invs, pays);
      forall i | 0 <= i < |invs| && r[i].paidDate.Some?
        ensures exists k :: 0 <= k < |pays| && pays[k].date == r[i].paidDate.value
      {
        if r[i].remaining < before[i].remaining {
          assert pays[|pays| - 1].date == r[i].paidDate.value;
        } else {
          var k :| 0 <= k < |init| && init[k].date == before[i].paidDate.value;
          assert pays[k] == init[k];
        }
      }
    }
  }

  /** The FIFO example: invoices of 100, 200 and 300 and one payment of 150 leave 0, 150 and 300. */
  lemma FifoExample()
    ensures var invs := [Invoice(1, 100, 100, 0, None), Invoice(2, 200, 200, 0, None), Invoice(3, 300, 300, 0, None)];
      var r := AllocateAll(invs, [Payment(10, 150)]);
      r[0].remaining == 0 && r[1].remaining == 150 && r[2].remaining == 300
      && r[0].paidDate == Some(10) && r[1].paidDate == Some(10) && r[2].paidDate == None
  {
    var invs := [Invoice(1, 100, 100, 0, None), Invoice(2, 200, 200, 0, None), Invoice(3, 300, 300, 0, None)];
    assert [Payment(10, 150)][..0] == [];
    var r := Allocate(invs, 150, 10);
    assert r.0[0].remaining == 0;
    assert r.0[1].remaining == 150;
  }

  /** The inner loop's body on one invoice: skipped when it is settled, otherwise charged min(remaining, amount left). */
  method ChargeInvoice(inv: Invoice, amt: nat, date: int) returns (r: Invoice, left: nat)
    ensures r == Take(inv, amt, date) && left == amt - Share(inv, amt)
  {
    r, left := inv, amt;
    if inv.remaining > 0 {
      var alloc := Min(inv.remaining, amt);
      r := inv.(remaining := inv.remaining - alloc, paid := inv.paid + alloc, paidDate := Some(date));
      left := amt - alloc;
    }
  }

  /**
   * One pass of the inner loop: once invoice j has been charged, what is left
   * for Allocate to do is the invoices after j with what is left of the payment.
   */
  lemma AllocateStep(start: seq<Invoice>, before: seq<Invoice>, after: seq<Invoice>, j: nat, amt: nat, left: nat, date: int)
    requires j < |before| == |start| && before[j..] == start[j..] && amt > 0
    requires after == before[j := Take(before[j], amt, date)] && left == amt - Share(before[j], amt)
    ensures after[j + 1..] == start[j + 1..]
    ensures after[..j + 1] + Allocate(start[j + 1..], left, date).0 == before[..j] + Allocate(start[j..], amt, date).0
    ensures Allocate(start[j + 1..], left, date).1 == Allocate(start[j..], amt, date).1
  {
    var took := Take(before[j], amt, date);
    var tail := Allocate(start[j + 1..], left, date);
    assert start[j..][0] == before[j] && start[j..][1..] == start[j + 1..];
    assert Allocate(start[j..], amt, date) == ([took] + tail.0, tail.1);
    assert after[..j + 1] == before[..j] + [took];
    assert before[..j] + ([took] + tail.0) == (before[..j] + [took]) + tail.0;
  }

  /** When the loop stops, with every invoice visited or the payment used up, nothing is left for Allocate to do. */
  lemma AllocateFinish(start: seq<Invoice>, invs: seq<Invoice>, j: nat, amt: nat, total: nat, date: int)
    requires j <= |invs| == |start| && invs[j..] == start[j..]
    requires j == |invs| || amt == 0
    requires Allocate(start, total, date).0 == invs[..j] + Allocate(start[j..], amt, date).0
    requires Allocate(start, total, date).1 == Allocate(start[j..], amt, date).1
    ensures invs == Allocate(start, total, date).0 && amt == Allocate(start, total, date).1
  {
    assert Allocate(start[j..], amt, date) == (start[j..], amt);
    assert invs[..j] + invs[j..] == invs;
  }

  /** One payment walked over the pending invoices: the inner loop, which breaks once the payment is used up. */
  method AllocatePayment(start: seq<Invoice>, pay: Payment) returns (invs: seq<Invoice>, amt: nat)
    ensures invs == Allocate(start, pay.amount, pay.date).0 && amt == Allocate(start, pay.amount, pay.date).1
  {
    invs, amt := start, pay.amount;
    var j := 0;
    assert start[j..] == start && invs[..j] + start == start;
    while j < |invs|
      invariant 0 <= j <= |invs| == |start|
      invariant invs[j..] == start[j..]
      invariant Allocate(start, pay.amount, pay.date).0 == invs[..j] + Allocate(start[j..], amt, pay.date).0
      invariant Allocate(start, pay.amount, pay.date).1 == Allocate(start[j..], amt, pay.date).1
    {
      if amt <= 0 {
        break;
      }
      ghost var before, amt0 := invs, amt;
      var inv, left := ChargeInvoice(invs[j], amt, pay.date);
      invs, amt := invs[j := inv], left;
      AllocateStep(start, before, invs, j, amt0, amt, pay.date);
      j := j + 1;
    }
    AllocateFinish(start, invs, j, amt, pay.amount, pay.date);
  }

  /** The allocation loops: every payment in turn, skipping one with nothing left. */
  method AllocateAfterCutoff(pending: seq<Invoice>, pays: seq<Payment>) returns (invs: seq<Invoice>)
    ensures invs == AllocateAll(pending, pays)
  {
    invs := pending;
    for k := 0 to |pays|
      invariant invs == AllocateAll(pending, pays[..k])
    {
      assert pays[..k + 1][..k] == pays[..k];
      var pay := pays[k];
      if pay.amount <= 0 {
        continue;
      }
      var left;
      invs, left := AllocatePayment(invs, pay);
    }
    assert pays[..|pays|] == pays;
  }
}
