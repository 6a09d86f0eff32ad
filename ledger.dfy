/**
 * The ledger normaliser (parse_ledger_df): a row-by-row state machine over a raw
 * ledger export. A row whose first cell starts with "ledger:" names the current
 * party; every later row with a valid date and convertible amounts becomes a
 * transaction of that party. The records are then sorted by (party, date).
 */
module Ledger {
  import opened Common
  import opened Text

  /** Day number of 2000-01-01; dates are whole days counted from 1970-01-01. */
  const Y2K: int := 10957

  /** An amount cell (columns 5 and 6) as float() sees it. */
  datatype Cell = Blank | Number(value: int) | Unconvertible

  /**
   * One raw row. `first` is column 0 as a string ("" when the cell is blank),
   * `date` is column 0 read as a day-first date (None when it does not parse),
   * `name` is column 1 (None when blank).
   */
  datatype Row = Row(first: string, date: Option<int>, name: Option<string>, debit: Cell, credit: Cell)

  /** One ledger record: party, day number, debit and credit. */
  datatype Txn = Txn(party: string, date: int, debit: int, credit: int)

  predicate IsMarker(r: Row)
  {
    StartsWith(Lower(Strip(r.first)), "ledger:")
  }

  /** The party a marker row names: its trimmed name cell, or "Unknown" when the cell is blank. */
  function MarkerParty(r: Row): string
  {
    match r.name
    case None => "Unknown"
    case Some(n) => Strip(n)
  }

  /** float() of a cell: a blank is 0.0, text that does not convert fails. */
  function CellAmount(c: Cell): Option<int>
  {
    match c
    case Blank => Some(0)
    case Number(v) => Some(v)
    case Unconvertible => None
  }

  /** The record a transaction row yields under `party`, or None when the row is dropped.
      A blank amount cell counts as 0. */
  function ReadRow(party: string, r: Row): (t: Option<Txn>)
    ensures t.Some? <==> r.date.Some? && r.date.value >= Y2K && !r.debit.Unconvertible? && !r.credit.Unconvertible?
    ensures t.Some? ==> t.value.party == party && t.value.date == r.date.value
    ensures t.Some? ==> t.value.debit == (if r.debit.Number? then r.debit.value else 0)
    ensures t.Some? ==> t.value.credit == (if r.credit.Number? then r.credit.value else 0)
  {
    if r.date.None? || r.date.value < Y2K then None
    else match (CellAmount(r.debit), CellAmount(r.credit))
      case (Some(d), Some(c)) => Some(Txn(party, r.date.value, d, c))
      case _ => None
  }

  /** Python truthiness of current_party: neither None nor the empty string. */
  predicate HasParty(cur: Option<string>)
  {
    cur.Some? && cur.value != ""
  }

  /** The current party after reading `row`. */
  function NextParty(cur: Option<string>, row: Row): Option<string>
  {
    if IsMarker(row) then Some(MarkerParty(row)) else cur
  }

  /** The records reading `row` appends (none or one). */
  function Emit(cur: Option<string>, row: Row): seq<Txn>
  {
    if IsMarker(row) || !HasParty(cur) then []
    else match ReadRow(cur.value, row)
      case Some(t) => [t]
      case None => []
  }

  /** The records the row loop appends, starting in state `cur`. */
  function Scan(cur: Option<string>, rows: seq<Row>): seq<Txn>
    decreases |rows|
  {
    if rows == [] then [] else Emit(cur, rows[0]) + Scan(NextParty(cur, rows[0]), rows[1..])
  }

  lemma ScanUnfold(cur: Option<string>, rows: seq<Row>)
    requires rows != []
    ensures Scan(cur, rows) == Emit(cur, rows[0]) + Scan(NextParty(cur, rows[0]), rows[1..])
  {
  }

  /** Rows before the first marker yield nothing. */
  lemma {:induction false} PreambleIgnored(pre: seq<Row>, rest: seq<Row>)
    requires forall i :: 0 <= i < |pre| ==> !IsMarker(pre[i])
    ensures Scan(None, pre + rest) == Scan(None, rest)
    decreases |pre|
  {
    if pre != [] {
      var rows := pre + rest;
      assert rows[0] == pre[0] && !IsMarker(rows[0]);
      assert rows[1..] == pre[1..] + rest;
      assert Scan(None, rows) == Scan(None, rows[1..]);
      PreambleIgnored(pre[1..], rest);
    } else {
      assert pre + rest == rest;
    }
  }

  /** A marker row yields no record and sets the party for the rows after it. */
  lemma MarkerSetsParty(cur: Option<string>, r: Row, rest: seq<Row>)
    requires IsMarker(r)
    ensures Scan(cur, [r] + rest) == Scan(Some(MarkerParty(r)), rest)
    ensures r.name.None? ==> Scan(cur, [r] + rest) == Scan(Some("Unknown"), rest)
  {
    assert ([r] + rest)[1..] == rest;
  }

  /** Every record has a non-empty party, a date on or after 2000-01-01, and
      comes from a row that is not a marker. */
  lemma {:induction false} ScanSound(cur: Option<string>, rows: seq<Row>)
    ensures forall t :: t in Scan(cur, rows) ==> t.party != "" && t.date >= Y2K
    ensures |Scan(cur, rows)| <= |rows|
    decreases |rows|
  {
    if rows != [] {
      ScanSound(NextParty(cur, rows[0]), rows[1..]);
    }
  }

  // ---------------------------------------------------------------
  // Sorting by (party, date)
  // ---------------------------------------------------------------

  /** Python's string order: lexicographic by code point. */
  predicate StrLess(a: string, b: string)
    decreases |a|
  {
    if b == [] then false
    else if a == [] then true
    else if a[0] != b[0] then a[0] < b[0]
    else StrLess(a[1..], b[1..])
  }

  lemma {:induction false} StrLessTrichotomy(a: string, b: string)
    ensures a == b || StrLess(a, b) || StrLess(b, a)
    decreases |a|
  {
    if a != [] && b != [] && a[0] == b[0] {
      StrLessTrichotomy(a[1..], b[1..]);
      if a[1..] == b[1..] {
        assert a == [a[0]] + a[1..] && b == [b[0]] + b[1..];
      }
    }
  }

  lemma {:induction false} StrLessIrreflexive(a: string)
    ensures !StrLess(a, a)
    decreases |a|
  {
    if a != [] {
      StrLessIrreflexive(a[1..]);
    }
  }

  /** The (party, date) key order of sort_values(by=["Party", "Date"]). */
  predicate KeyLe(a: Txn, b: Txn)
  {
    StrLess(a.party, b.party) || (a.party == b.party && a.date <= b.date)
  }

  predicate KeyLess(a: Txn, b: Txn)
  {
    StrLess(a.party, b.party) || (a.party == b.party && a.date < b.date)
  }

  lemma KeyTotal(a: Txn, b: Txn)
    ensures !KeyLess(a, b) ==> KeyLe(b, a)
  {
    StrLessTrichotomy(a.party, b.party);
  }

  predicate Sorted(s: seq<Txn>)
  {
    forall i :: 0 <= i < |s| - 1 ==> KeyLe(s[i], s[i + 1])
  }

  /** Dates never decrease along the sequence. */
  predicate DateSorted(s: seq<Txn>)
  {
    forall i, j :: 0 <= i < j < |s| ==> s[i].date <= s[j].date
  }

  /** Sorted records of a single party are in date order. */
  lemma {:induction false} SortedPartyIsDateSorted(s: seq<Txn>, p: string)
    requires Sorted(s)
    requires forall i :: 0 <= i < |s| ==> s[i].party == p
    ensures DateSorted(s)
    decreases |s|
  {
    if |s| > 1 {
      StrLessIrreflexive(p);
      SortedPartyIsDateSorted(s[1..], p);
      forall j | 0 < j < |s| ensures s[0].date <= s[j].date {
        assert KeyLe(s[0], s[1]);
        if j > 1 {
          assert s[1..][0].date <= s[1..][j - 1].date;
        }
      }
    }
  }

  /** Insert `x` after every record whose key is not greater, so equal keys keep their order. */
  function Insert(x: Txn, s: seq<Txn>): seq<Txn>
    decreases |s|
  {
    if s == [] then [x]
    else if KeyLess(x, s[0]) then [x] + s
    else [s[0]] + Insert(x, s[1..])
  }

  /** Inserting into a sorted sequence keeps it sorted; the new head is `x` or the old head. */
  lemma {:induction false} InsertSorted(x: Txn, s: seq<Txn>)
    requires Sorted(s)
    ensures Sorted(Insert(x, s))
    ensures Insert(x, s)[0] == x || (s != [] && Insert(x, s)[0] == s[0])
    decreases |s|
  {
    if s != [] && !KeyLess(x, s[0]) {
      KeyTotal(x, s[0]);
      InsertSorted(x, s[1..]);
      var rest := Insert(x, s[1..]);
      assert KeyLe(s[0], rest[0]);
      forall i | 0 <= i < |rest|
        ensures KeyLe(([s[0]] + rest)[i], ([s[0]] + rest)[i + 1])
      {
        if i > 0 {
          assert KeyLe(rest[i - 1], rest[i]);
        }
      }
    }
  }

  /** Inserting adds `x` and loses nothing. */
  lemma {:induction false} InsertPermutes(x: Txn, s: seq<Txn>)
    ensures multiset(Insert(x, s)) == multiset(s) + multiset{x}
    decreases |s|
  {
    if s != [] && !KeyLess(x, s[0]) {
      InsertPermutes(x, s[1..]);
      assert s == [s[0]] + s[1..];
    }
  }

  /** A stable sort by (party, date). */
  function SortRecords(s: seq<Txn>): seq<Txn>
    decreases |s|
  {
    if s == [] then [] else Insert(s[|s| - 1], SortRecords(s[..|s| - 1]))
  }

  /** The sort's output is sorted by (party, date). */
  lemma {:induction false} SortRecordsSorted(s: seq<Txn>)
    ensures Sorted(SortRecords(s))
    decreases |s|
  {
    if s != [] {
      SortRecordsSorted(s[..|s| - 1]);
      InsertSorted(s[|s| - 1], SortRecords(s[..|s| - 1]));
    }
  }

  /** The sort's output is a permutation of its input. */
  lemma {:induction false} SortRecordsPermutes(s: seq<Txn>)
    ensures multiset(SortRecords(s)) == multiset(s)
    decreases |s|
  {
    if s != [] {
      var init := s[..|s| - 1];
      SortRecordsPermutes(init);
      InsertPermutes(s[|s| - 1], SortRecords(init));
      assert s == init + [s[|s| - 1]];
    }
  }

  /** parse_ledger_df: scan the rows, then sort the records by (party, date). */
  method ParseLedger(rows: seq<Row>) returns (data: seq<Txn>)
    ensures data == SortRecords(Scan(None, rows))
    ensures Sorted(data) && multiset(data) == multiset(Scan(None, rows))
  {
    var records := CollectRecords(rows);
    data := SortRecords(records);
    SortRecordsSorted(records);
    SortRecordsPermutes(records);
  }

  /** One pass of the row loop's body: the party after `row`, and the records it appends. */
  method ReadLedgerRow(current: Option<string>, row: Row) returns (next: Option<string>, emitted: seq<Txn>)
    ensures next == NextParty(current, row) && emitted == Emit(current, row)
  {
    next, emitted := current, [];
    if IsMarker(row) {
      next := Some(MarkerParty(row));
    } else if HasParty(current) {
      match ReadRow(current.value, row)
      case Some(t) =>
        emitted := [t];
      case None =>
    }
  }

  /** After row i the records so far and the scan of the rows after it still make up the whole scan. */
  lemma ScanStep(rows: seq<Row>, i: nat, current: Option<string>, records: seq<Txn>, next: Option<string>, emitted: seq<Txn>)
    requires i < |rows| && records + Scan(current, rows[i..]) == Scan(None, rows)
    requires next == NextParty(current, rows[i]) && emitted == Emit(current, rows[i])
    ensures (records + emitted) + Scan(next, rows[i + 1..]) == Scan(None, rows)
  {
    ScanUnfold(current, rows[i..]);
    assert rows[i..][0] == rows[i] && rows[i..][1..] == rows[i + 1..];
    assert (records + emitted) + Scan(next, rows[i + 1..]) == records + (emitted + Scan(next, rows[i + 1..]));
  }

  /** The row loop of parse_ledger_df, which appends to `records` and updates the current party. */
  method CollectRecords(rows: seq<Row>) returns (records: seq<Txn>)
    ensures records == Scan(None, rows)
  {
    records := [];
    var current: Option<string> := None;
    for i := 0 to |rows|
      invariant records + Scan(current, rows[i..]) == Scan(None, rows)
    {
      ghost var before, party := records, current;
      var emitted;
      current, emitted := ReadLedgerRow(current, rows[i]);
      records := records + emitted;
      ScanStep(rows, i, party, before, current, emitted);
    }
    assert rows[|rows|..] == [];
  }
}
