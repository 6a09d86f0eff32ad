/**
 * The MSME exemption rules (is_exempt) and the section 43B(h) disallowance row
 * built for every invoice still open at the cutoff: a 45-day on-time test,
 * overridden when the supplier is exempt.
 */
module Exemption {
  import opened Common
  import opened Text
  import opened Aging

  /**
   * One row of the MSME table. The three classification cells are None when the
   * table has no such column, which `r.get(column, '')` reads as "".
   */
  datatype MsmeRow = MsmeRow(name: string, registered: Option<string>, category: Option<string>, businessType: Option<string>)

  /** The lookup key of a name: trimmed and lower-cased. */
  function Key(s: string): string
  {
    Lower(Strip(s))
  }

  predicate SameSupplier(r: MsmeRow, party: string)
  {
    Key(r.name) == Key(party)
  }

  /** Position of the first table row naming `party`, or None. */
  function FindSupplier(table: seq<MsmeRow>, party: string): Option<nat>
    decreases |table|
  {
    if table == [] then None
    else if SameSupplier(table[0], party) then Some(0)
    else match FindSupplier(table[1..], party)
      case None => None
      case Some(k) => Some(k + 1)
  }

  /** row.iloc[0]: the lookup finds the first matching row, and finds nothing only when no row matches. */
  lemma {:induction false} FindSupplierSpec(table: seq<MsmeRow>, party: string)
    ensures FindSupplier(table, party).None? <==> forall k :: 0 <= k < |table| ==> !SameSupplier(table[k], party)
    ensures FindSupplier(table, party).Some? ==>
      var k := FindSupplier(table, party).value;
      k < |table| && SameSupplier(table[k], party) && forall i :: 0 <= i < k ==> !SameSupplier(table[i], party)
    decreases |table|
  {
    if table != [] && !SameSupplier(table[0], party) {
      FindSupplierSpec(table[1..], party);
      forall k | 0 < k < |table|
        ensures table[k] == table[1..][k - 1]
      {
      }
    }
  }

  /** A classification cell as the rules read it: str(...).strip().lower(), "" when the column is missing. */
  function Field(cell: Option<string>): string
  {
    match cell
    case None => ""
    case Some(s) => Key(s)
  }

  /** Rule 1: registered is one of no, n, false, 0 or empty. */
  predicate NotRegistered(r: MsmeRow)
  {
    var reg := Field(r.registered);
    reg == "no" || reg == "n" || reg == "false" || reg == "0" || reg == ""
  }

  /** Rule 2: the category is medium. */
  predicate MediumCategory(r: MsmeRow)
  {
    Field(r.category) == "medium"
  }

  /** Rule 3: the business type mentions trader. */
  predicate Trader(r: MsmeRow)
  {
    Contains(Field(r.businessType), "trader")
  }

  datatype Exemption = Exemption(exempt: bool, reason: string)

  const NonMsmeReason := "Exempt: Non-MSME registered"
  const MediumReason := "Exempt: Medium category"
  const TraderReason := "Exempt: Trader"

  /** The rule table on a supplier's row: the first rule that matches gives the reason. */
  function RowExemption(r: MsmeRow): Exemption
  {
    if NotRegistered(r) then Exemption(true, NonMsmeReason)
    else if MediumCategory(r) then Exemption(true, MediumReason)
    else if Trader(r) then Exemption(true, TraderReason)
    else Exemption(false, "")
  }

  /** is_exempt(party): an unknown supplier is not exempt. */
  function IsExempt(table: seq<MsmeRow>, party: string): Exemption
  {
    match FindSupplier(table, party)
    case None => Exemption(false, "")
    case Some(k) => if k < |table| then RowExemption(table[k]) else Exemption(false, "")
  }

  /**
   * A supplier is exempt exactly when its first row satisfies any of the three
   * rules, whatever their order; a reason is given exactly when it is exempt;
   * and the reason names the first rule that holds.
   */
  lemma IsExemptSpec(table: seq<MsmeRow>, party: string)
    ensures var e := IsExempt(table, party);
      && (e.exempt <==> exists k :: 0 <= k < |table| && FirstRow(table, party, k)
                                    && (NotRegistered(table[k]) || MediumCategory(table[k]) || Trader(table[k])))
      && (e.exempt <==> e.reason != "")
      && (forall k :: 0 <= k < |table| && FirstRow(table, party, k) ==>
            && (e.reason == NonMsmeReason <==> NotRegistered(table[k]))
            && (e.reason == MediumReason <==> !NotRegistered(table[k]) && MediumCategory(table[k]))
            && (e.reason == TraderReason <==> !NotRegistered(table[k]) && !MediumCategory(table[k]) && Trader(table[k])))
  {
    FindSupplierSpec(table, party);
    match FindSupplier(table, party)
    case None =>
    case Some(j) =>
      forall k | 0 <= k < |table| && FirstRow(table, party, k)
        ensures k == j
      {
      }
  }

  /** Row k is the first row naming `party`. */
  predicate FirstRow(table: seq<MsmeRow>, party: string, k: int)
    requires 0 <= k < |table|
  {
    SameSupplier(table[k], party) && forall i :: 0 <= i < k ==> !SameSupplier(table[i], party)
  }

  /** A party no row names is not exempt. */
  lemma UnknownNotExempt(table: seq<MsmeRow>, party: string)
    requires forall k :: 0 <= k < |table| ==> !SameSupplier(table[k], party)
    ensures IsExempt(table, party) == Exemption(false, "")
  {
    FindSupplierSpec(table, party);
  }

  /** Names are compared after trimming spaces and lower-casing. */
  lemma KeyExample()
    ensures Key(" ACME ") == Key("Acme") == "acme"
  {
    assert Strip("Acme") == "Acme";
    assert TrimLeft(" ACME ") == "ACME ";
    assert TrimRight("ACME ") == "ACME";
  }

  /** Registered "No" together with category "Medium": rule 1 wins. */
  lemma PrecedenceExample()
    ensures IsExempt([MsmeRow("Acme", Some("No"), Some("Medium"), None)], " ACME ").reason == NonMsmeReason
  {
    KeyExample();
    assert Field(Some("No")) == "no" by {
      assert Strip("No") == "No";
    }
  }

  // ---------------------------------------------------------------
  // The 45-day test and the disallowance row
  // ---------------------------------------------------------------

  /** The two versions of the engine differ in the on-time test and in a missing MSME table. */
  datatype Variant =
    | Final     // app.py: full payment, the last payment within 45 days; a missing table counts as empty
    | FirstTry  // app_try_1.py: the last payment's date within 45 days suffices, full payment or not; a missing table is an error

  /** Days allowed after the invoice date. */
  const Deadline := 45

  /** "Within 45 Days" before the exemption override: "Yes" or "No". */
  function WithinBeforeExemption(v: Variant, inv: Invoice): string
  {
    var paidInTime := inv.paidDate.Some? && inv.paidDate.value <= inv.date + Deadline;
    match v
    case Final => if inv.paid >= inv.amount then (if paidInTime then "Yes" else "No") else "No"
    case FirstTry => if paidInTime then "Yes" else "No"
  }

  /** One row of the 43B(h) disallowance log. */
  datatype DisallowRow = DisallowRow(
    party: string, invoiceDate: int, amount: nat, unpaidAfter: nat, paidReported: nat,
    paidDate: Option<int>, within: string, disallowed: string, exemptionApplied: string, reason: string)

  /** The row of an open invoice after the post-cutoff allocation. */
  function Classify(v: Variant, party: string, inv: Invoice, e: Exemption): DisallowRow
  {
    var within0 := WithinBeforeExemption(v, inv);
    var within := if e.exempt then "Exempt" else within0;
    var disallowed := if e.exempt then "No" else if within0 == "Yes" then "No" else "Yes";
    DisallowRow(party, inv.date, inv.amount, inv.remaining, Min(inv.paid, inv.amount), inv.paidDate,
                within, disallowed, if e.exempt then "Yes" else "No", e.reason)
  }

  /**
   * The row's verdict: an exempt supplier gets "Exempt" and is never disallowed;
   * otherwise the invoice is disallowed exactly when it was not paid within 45
   * days, which under the final rule needs full payment and under the first rule
   * only a payment date within 45 days. The reported amount is capped at the
   * invoice amount, and the invoice's own figures are carried over.
   */
  lemma ClassifySpec(v: Variant, party: string, inv: Invoice, e: Exemption)
    ensures var row := Classify(v, party, inv, e);
      && (e.exempt ==> row.within == "Exempt" && row.disallowed == "No" && row.exemptionApplied == "Yes")
      && (!e.exempt ==> (row.within == "Yes" || row.within == "No") && row.exemptionApplied == "No"
                        && (row.disallowed == "Yes" <==> row.within != "Yes"))
      && (row.within == "Yes" <==>
            && !e.exempt && inv.paidDate.Some? && inv.paidDate.value <= inv.date + 45
            && (v == Final ==> inv.paid >= inv.amount))
      && row.paidReported <= inv.amount && row.paidReported <= inv.paid
      && (row.paidReported == inv.paid || row.paidReported == inv.amount)
      && row.reason == e.reason && row.unpaidAfter == inv.remaining && row.paidDate == inv.paidDate
      && row.party == party && row.invoiceDate == inv.date && row.amount == inv.amount
  {
  }

  /** Whatever the invoice, the final rule says "Yes" only where the first rule does. */
  lemma FinalStricter(party: string, inv: Invoice, e: Exemption)
    ensures Classify(Final, party, inv, e).within == "Yes" ==> Classify(FirstTry, party, inv, e).within == "Yes"
    ensures Classify(FirstTry, party, inv, e).disallowed == "Yes" ==> Classify(Final, party, inv, e).disallowed == "Yes"
  {
  }

  /**
   * For an invoice of the allocation (paid after cutoff + remaining = unpaid at
   * cutoff <= amount), the final rule says "Yes" only when the invoice was not
   * matched at all before the cutoff and is now fully settled; so an invoice
   * partly matched before the cutoff is disallowed unless the supplier is exempt.
   */
  lemma FinalOnTimeMeansSettled(party: string, inv: Invoice, e: Exemption)
    requires inv.paid + inv.remaining <= inv.amount
    ensures Classify(Final, party, inv, e).within == "Yes" ==> inv.remaining == 0 && inv.paid == inv.amount
    ensures inv.paid + inv.remaining < inv.amount && !e.exempt ==> Classify(Final, party, inv, e).disallowed == "Yes"
  {
  }

  /** Invoice of 2025-01-01 (day 20089) fully paid on 2025-02-10 (day 20129): on time, not disallowed. */
  lemma PaidOnTimeExample(v: Variant)
    ensures var row := Classify(v, "Acme", Invoice(20089, 1000, 0, 1000, Some(20129)), Exemption(false, ""));
      row.within == "Yes" && row.disallowed == "No"
  {
  }

  /** The same invoice paid on 2025-02-20 (day 20139), after the deadline 2025-02-15: disallowed. */
  lemma PaidLateExample(v: Variant)
    ensures var row := Classify(v, "Acme", Invoice(20089, 1000, 0, 1000, Some(20139)), Exemption(false, ""));
      row.within == "No" && row.disallowed == "Yes"
  {
  }

  /** Only the first rule counts a partial payment within 45 days as on time. */
  lemma PartialPaymentExample()
    ensures Classify(FirstTry, "Acme", Invoice(20089, 1000, 400, 600, Some(20129)), Exemption(false, "")).disallowed == "No"
    ensures Classify(Final, "Acme", Invoice(20089, 1000, 400, 600, Some(20129)), Exemption(false, "")).disallowed == "Yes"
  {
  }

  /** The disallowance rows of a party's invoices, in invoice order. */
  function ClassifyAll(v: Variant, party: string, invs: seq<Invoice>, e: Exemption): seq<DisallowRow>
  {
    if invs == [] then []
    else ClassifyAll(v, party, invs[..|invs| - 1], e) + [Classify(v, party, invs[|invs| - 1], e)]
  }

  /** One disallowance row per invoice, row i classifying invoice i. */
  lemma {:induction false} ClassifyAllSpec(v: Variant, party: string, invs: seq<Invoice>, e: Exemption)
    ensures |ClassifyAll(v, party, invs, e)| == |invs|
    ensures forall i :: 0 <= i < |invs| ==> ClassifyAll(v, party, invs, e)[i] == Classify(v, party, invs[i], e)
    decreases |invs|
  {
    if invs != [] {
      ClassifyAllSpec(v, party, invs[..|invs| - 1], e);
    }
  }

  /** The loop building the disallowance rows of one party, one per invoice in order. */
  method BuildDisallowances(v: Variant, party: string, invs: seq<Invoice>, e: Exemption) returns (rows: seq<DisallowRow>)
    ensures rows == ClassifyAll(v, party, invs, e)
  {
    rows := [];
    for i := 0 to |invs|
      invariant rows == ClassifyAll(v, party, invs[..i], e)
    {
      assert invs[..i + 1][..i] == invs[..i];
      rows := rows + [Classify(v, party, invs[i], e)];
    }
    assert invs[..|invs|] == invs;
  }

  /**
   * The MSME table the engine works with. The final version replaces a missing
   * table by an empty one; the first version fails on it.
   */
  function ExemptionTable(v: Variant, table: Option<seq<MsmeRow>>): (r: Result<seq<MsmeRow>, string>)
    ensures table.Some? ==> r == Ok(table.value)
    ensures table.None? ==> (r.Ok? <==> v == Final) && (r.Ok? ==> r.value == [])
  {
    match table
    case Some(t) => Ok(t)
    case None => if v == Final then Ok([]) else Err("no MSME table")
  }

  /** The default of the final version: with no MSME table, no supplier is exempt. */
  lemma MissingTableExemptsNobody()
    ensures ExemptionTable(Final, None).Ok?
    ensures forall p :: IsExempt(ExemptionTable(Final, None).value, p) == Exemption(false, "")
  {
  }
}
