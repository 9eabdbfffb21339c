/**
  The owner's roll-up (src/reports/owner/roll_up.py): per unit, the open amounts of the posted invoices
  found by a scoped query and read back one by one; over the units, a total when one currency is owed.
  The total is proved against a sum over the provider's invoice rows that knows no handles.
 */
module OwnerRollup {
  import opened Wrappers
  import opened References
  import opened ErpLedger
  import opened LedgerRuns
  import opened LedgerBalance
  import opened LedgerQuery
  import opened ErpAdapter

  // Units

  datatype Assignment = Assignment(actor: string, unit: string, active: bool, owner: bool, from: Option<int>, until: Option<int>)

  predicate Effective(a: Assignment, actor: string, at: int) {
    && a.actor == actor && a.active && a.owner
    && (a.from.Some? ==> a.from.value <= at) && (a.until.Some? ==> at < a.until.value)
  }

  // Subtotals

  // `keys` is the insertion order of the per-currency dictionary.
  datatype Tally = Tally(refs: seq<string>, keys: seq<string>, open: map<string, real>)

  const EMPTY_TALLY: Tally := Tally([], [], map[])

  function Amount(t: Tally, currency: string): real {
    if currency in t.open then t.open[currency] else 0.0
  }

  function Add(t: Tally, invoice: Invoice): Tally {
    if invoice.open <= 0.0 then t
    else
      Tally(t.refs + [Handle(invoice)],
            if invoice.currency in t.open then t.keys else t.keys + [invoice.currency],
            t.open[invoice.currency := Amount(t, invoice.currency) + invoice.open])
  }

  // Reading back the references one by one; None when the provider refuses one.
  function TallyOf(l: Ledger, refs: seq<string>): Option<Tally> {
    if refs == [] then Some(EMPTY_TALLY)
    else
      var t, read := TallyOf(l, refs[..|refs| - 1]), ReadInvoice(l, refs[|refs| - 1]);
      if t.Some? && read.Ok? then Some(Add(t.value, read.value)) else None
  }

  function UnitTally(l: Ledger, unit: string, customer: Option<string>): Option<Tally> {
    match QueryInvoices(l, Some(Posted), Some(unit), customer)
    case Ok(refs) => TallyOf(l, refs)
    case _ => None
  }

  function KeySum(keys: seq<string>, open: map<string, real>): real {
    if keys == [] then 0.0
    else KeySum(keys[..|keys| - 1], open) + (if keys[|keys| - 1] in open then open[keys[|keys| - 1]] else 0.0)
  }

  function UnitTotal(t: Tally): real {
    KeySum(t.keys, t.open)
  }

  // The owner's total

  // One tally per unit.
  predicate Tallied(l: Ledger, units: seq<string>, customer: Option<string>, ts: seq<Tally>) {
    |ts| == |units| && forall k :: 0 <= k < |ts| ==> UnitTally(l, units[k], customer) == Some(ts[k])
  }

  function Currencies(ts: seq<Tally>): set<string> {
    if ts == [] then {} else Currencies(ts[..|ts| - 1]) + ts[|ts| - 1].open.Keys
  }

  function TotalOf(ts: seq<Tally>): real {
    if ts == [] then 0.0 else TotalOf(ts[..|ts| - 1]) + UnitTotal(ts[|ts| - 1])
  }

  // "0" without a currency, a total in the one currency, or nothing when currencies are mixed.
  datatype OwnerTotal = Nothing | In(currency: string, total: real) | Mixed

  // What is owed, row by row

  predicate Counts(invoice: Invoice, units: set<string>, customer: Option<string>, currency: string) {
    && invoice.status.Posted? && invoice.unit in units && invoice.currency == currency
    && (customer.Some? ==> invoice.customer == customer.value)
  }

  function Owed(rows: seq<Invoice>, units: set<string>, customer: Option<string>, currency: string): real {
    if rows == [] then 0.0
    else
      var last := rows[|rows| - 1];
      Owed(rows[..|rows| - 1], units, customer, currency) + (if Counts(last, units, customer, currency) then last.open else 0.0)
  }

  // The same, as totals less the net of all payments and reversals.
  function Due(rows: seq<Invoice>, payments: seq<Payment>, units: set<string>, customer: Option<string>, currency: string): real {
    if rows == [] then 0.0
    else
      var last := rows[|rows| - 1];
      Due(rows[..|rows| - 1], payments, units, customer, currency)
      + (if Counts(last, units, customer, currency) then last.total - Net(payments, Handle(last)) else 0.0)
  }

  // Sums over rows picked by a set of references.
  function Picked(rows: seq<Invoice>, refs: set<string>, currency: string): real {
    if rows == [] then 0.0
    else
      var last := rows[|rows| - 1];
      Picked(rows[..|rows| - 1], refs, currency) + (if Handle(last) in refs && last.currency == currency then last.open else 0.0)
  }

  predicate DistinctHandles(rows: seq<Invoice>) {
    forall i, j :: 0 <= i < j < |rows| ==> Handle(rows[i]) != Handle(rows[j])
  }

  lemma {:induction false} PickNone(rows: seq<Invoice>, currency: string)
    ensures Picked(rows, {}, currency) == 0.0
  {
    if rows != [] {
      PickNone(rows[..|rows| - 1], currency);
    }
  }

  // One more reference adds the open amount of its row.
  lemma {:induction false} PickMore(rows: seq<Invoice>, refs: set<string>, i: nat, currency: string)
    requires DistinctHandles(rows) && i < |rows| && Handle(rows[i]) !in refs
    ensures Picked(rows, refs + {Handle(rows[i])}, currency)
         == Picked(rows, refs, currency) + (if rows[i].currency == currency then rows[i].open else 0.0)
  {
    var n := |rows| - 1;
    if i == n {
      PickOther(rows[..n], refs, Handle(rows[i]), currency);
    } else {
      PickMore(rows[..n], refs, i, currency);
    }
  }

  lemma {:induction false} PickOther(rows: seq<Invoice>, refs: set<string>, h: string, currency: string)
    requires forall i :: 0 <= i < |rows| ==> Handle(rows[i]) != h
    ensures Picked(rows, refs + {h}, currency) == Picked(rows, refs, currency)
  {
    if rows != [] {
      PickOther(rows[..|rows| - 1], refs, h, currency);
    }
  }

  lemma {:induction false} HandlesDistinct(l: Ledger)
    requires Referable(l)
    ensures DistinctHandles(l.invoices)
  {
    forall i, j | 0 <= i < j < |l.invoices|
      ensures Handle(l.invoices[i]) != Handle(l.invoices[j])
    {
      assert RowOf(l, Handle(l.invoices[i])) == Some(i) && RowOf(l, Handle(l.invoices[j])) == Some(j);
    }
  }

  lemma {:induction false} AsSetMore(refs: seq<string>)
    requires refs != []
    ensures AsSet(refs) == AsSet(refs[..|refs| - 1]) + {refs[|refs| - 1]}
  {
    var front := refs[..|refs| - 1];
    forall h ensures h in AsSet(refs) <==> h in AsSet(front) + {refs[|refs| - 1]} {
      if h in AsSet(refs) {
        var k :| 0 <= k < |refs| && refs[k] == h;
        if k < |front| { assert front[k] == h; }
      }
      if h in AsSet(front) {
        var k :| 0 <= k < |front| && front[k] == h;
        assert refs[k] == h;
      }
    }
  }

  // Nothing is owed negatively.
  predicate NoneNegative(rows: seq<Invoice>) {
    forall i :: 0 <= i < |rows| ==> rows[i].open >= 0.0
  }

  // A currency is owed by one of the references.
  predicate OwedBy(l: Ledger, refs: seq<string>, k: int, currency: string) {
    0 <= k < |refs| && RowOf(l, refs[k]).Some?
    && l.invoices[RowOf(l, refs[k]).value].currency == currency && l.invoices[RowOf(l, refs[k]).value].open > 0.0
  }

  predicate Reads(l: Ledger, refs: seq<string>) {
    forall k :: 0 <= k < |refs| ==> RowOf(l, refs[k]).Some? && Handle(l.invoices[RowOf(l, refs[k]).value]) == refs[k]
  }

  // Reading back distinct references adds up the rows they stand for, currency by currency.
  lemma {:induction false} TallyPicks(l: Ledger, refs: seq<string>, currency: string)
    requires !l.outage && Referable(l) && NoneNegative(l.invoices) && Distinct(refs) && Reads(l, refs)
    ensures var t := TallyOf(l, refs);
      t.Some? && Amount(t.value, currency) == Picked(l.invoices, AsSet(refs), currency)
  {
    if refs == [] {
      PickNone(l.invoices, currency);
      assert AsSet(refs) == {};
    } else {
      var n := |refs| - 1;
      var front := refs[..n];
      var i := RowOf(l, refs[n]).value;
      TallyPicks(l, front, currency);
      AsSetMore(refs);
      HandlesDistinct(l);
      PickMore(l.invoices, AsSet(front), i, currency);
      AddAmount(TallyOf(l, front).value, l.invoices[i], currency);
    }
  }

  lemma {:induction false} AddAmount(t: Tally, invoice: Invoice, currency: string)
    requires invoice.open >= 0.0
    ensures Amount(Add(t, invoice), currency) == Amount(t, currency) + (if invoice.currency == currency then invoice.open else 0.0)
    ensures currency in Add(t, invoice).open <==> currency in t.open || (invoice.currency == currency && invoice.open > 0.0)
  {
  }

  // The tally lists the currencies that some reference owes.
  lemma {:induction false} TallyLists(l: Ledger, refs: seq<string>, currency: string)
    requires !l.outage && NoneNegative(l.invoices) && Reads(l, refs)
    ensures var t := TallyOf(l, refs); t.Some? && (currency in t.value.open <==> exists k :: OwedBy(l, refs, k, currency))
  {
    if refs != [] {
      var n := |refs| - 1;
      TallyLists(l, refs[..n], currency);
      OwedMore(l, refs, currency);
      AddAmount(TallyOf(l, refs[..n]).value, l.invoices[RowOf(l, refs[n]).value], currency);
    }
  }

  lemma {:induction false} OwedMore(l: Ledger, refs: seq<string>, currency: string)
    requires refs != []
    ensures var n := |refs| - 1;
      (exists k :: OwedBy(l, refs, k, currency)) <==> (exists k :: OwedBy(l, refs[..n], k, currency)) || OwedBy(l, refs, n, currency)
  {
    var n := |refs| - 1;
    if k :| OwedBy(l, refs, k, currency) {
      if k < n { assert OwedBy(l, refs[..n], k, currency); }
    }
    if k :| OwedBy(l, refs[..n], k, currency) {
      assert OwedBy(l, refs, k, currency);
    }
  }

  // One unit

  predicate Owes(rows: seq<Invoice>, units: set<string>, customer: Option<string>, currency: string) {
    exists i :: 0 <= i < |rows| && Counts(rows[i], units, customer, currency) && rows[i].open > 0.0
  }

  lemma {:induction false} PickedIsOwed(rows: seq<Invoice>, refs: set<string>, unit: string, customer: Option<string>, currency: string)
    requires forall i :: 0 <= i < |rows| ==> (Handle(rows[i]) in refs <==> Matches(rows[i], Some(Posted), Some(unit), customer))
    ensures Picked(rows, refs, currency) == Owed(rows, {unit}, customer, currency)
  {
    if rows != [] {
      PickedIsOwed(rows[..|rows| - 1], refs, unit, customer, currency);
      assert Handle(rows[|rows| - 1]) in refs <==> Matches(rows[|rows| - 1], Some(Posted), Some(unit), customer);
    }
  }

  // The references found are those of the rows that match.
  lemma {:induction false} FoundAre(l: Ledger, unit: string, customer: Option<string>, i: nat)
    requires Referable(l) && i < |l.invoices|
    ensures var found := Query(l, l.order, Some(Posted), Some(unit), customer);
      Handle(l.invoices[i]) in AsSet(found) <==> Matches(l.invoices[i], Some(Posted), Some(unit), customer)
  {
    var found := Query(l, l.order, Some(Posted), Some(unit), customer);
    var h := Handle(l.invoices[i]);
    QueryFinds(l, l.order, Some(unit), customer);
    assert RowOf(l, h) == Some(i);
    if h in AsSet(found) {
      var k :| 0 <= k < |found| && found[k] == h;
      assert StandsFor(l, found[k], Some(unit), customer);
    }
  }

  // A unit's subtotal in a currency is what its rows owe in it, and it lists exactly the currencies owed.
  lemma {:induction false} UnitIsOwed(l: Ledger, unit: string, customer: Option<string>, currency: string)
    requires !l.outage && Referable(l) && NoneNegative(l.invoices)
    ensures var t := UnitTally(l, unit, customer);
      && t.Some? && Amount(t.value, currency) == Owed(l.invoices, {unit}, customer, currency)
      && (currency in t.value.open <==> Owes(l.invoices, {unit}, customer, currency))
  {
    var found := Query(l, l.order, Some(Posted), Some(unit), customer);
    QueryFinds(l, l.order, Some(unit), customer);
    TallyPicks(l, found, currency);
    TallyLists(l, found, currency);
    forall i | 0 <= i < |l.invoices|
      ensures Handle(l.invoices[i]) in AsSet(found) <==> Matches(l.invoices[i], Some(Posted), Some(unit), customer)
    {
      FoundAre(l, unit, customer, i);
    }
    PickedIsOwed(l.invoices, AsSet(found), unit, customer, currency);
    OwedByRows(l, found, unit, customer, currency);
  }

  lemma {:induction false} OwedByRows(l: Ledger, found: seq<string>, unit: string, customer: Option<string>, currency: string)
    requires Referable(l) && forall k :: 0 <= k < |found| ==> StandsFor(l, found[k], Some(unit), customer)
    requires forall i :: 0 <= i < |l.invoices| ==> (Handle(l.invoices[i]) in AsSet(found) <==> Matches(l.invoices[i], Some(Posted), Some(unit), customer))
    ensures (exists k :: OwedBy(l, found, k, currency)) <==> Owes(l.invoices, {unit}, customer, currency)
  {
    if k :| OwedBy(l, found, k, currency) {
      assert StandsFor(l, found[k], Some(unit), customer);
      assert Counts(l.invoices[RowOf(l, found[k]).value], {unit}, customer, currency);
    }
    if i :| 0 <= i < |l.invoices| && Counts(l.invoices[i], {unit}, customer, currency) && l.invoices[i].open > 0.0 {
      var h := Handle(l.invoices[i]);
      assert RowOf(l, h) == Some(i);
      assert h in AsSet(found);
      var k :| 0 <= k < |found| && found[k] == h;
      assert OwedBy(l, found, k, currency);
    }
  }

  // All units

  lemma {:induction false} OwedNowhere(rows: seq<Invoice>, customer: Option<string>, currency: string)
    ensures Owed(rows, {}, customer, currency) == 0.0
  {
    if rows != [] {
      OwedNowhere(rows[..|rows| - 1], customer, currency);
    }
  }

  lemma {:induction false} OwedMoreUnits(rows: seq<Invoice>, units: set<string>, unit: string, customer: Option<string>, currency: string)
    requires unit !in units
    ensures Owed(rows, units + {unit}, customer, currency) == Owed(rows, units, customer, currency) + Owed(rows, {unit}, customer, currency)
  {
    if rows != [] {
      OwedMoreUnits(rows[..|rows| - 1], units, unit, customer, currency);
    }
  }

  lemma {:induction false} OwesMoreUnits(rows: seq<Invoice>, units: set<string>, unit: string, customer: Option<string>, currency: string)
    ensures Owes(rows, units + {unit}, customer, currency) <==> Owes(rows, units, customer, currency) || Owes(rows, {unit}, customer, currency)
  {
    if i :| 0 <= i < |rows| && Counts(rows[i], units + {unit}, customer, currency) && rows[i].open > 0.0 {
      assert Counts(rows[i], units, customer, currency) || Counts(rows[i], {unit}, customer, currency);
    }
    if i :| 0 <= i < |rows| && Counts(rows[i], units, customer, currency) && rows[i].open > 0.0 {
      assert Counts(rows[i], units + {unit}, customer, currency);
    }
    if i :| 0 <= i < |rows| && Counts(rows[i], {unit}, customer, currency) && rows[i].open > 0.0 {
      assert Counts(rows[i], units + {unit}, customer, currency);
    }
  }

  function AmountSum(ts: seq<Tally>, currency: string): real {
    if ts == [] then 0.0 else AmountSum(ts[..|ts| - 1], currency) + Amount(ts[|ts| - 1], currency)
  }

  predicate OwedAs(rows: seq<Invoice>, t: Tally, unit: string, customer: Option<string>, currency: string) {
    && Amount(t, currency) == Owed(rows, {unit}, customer, currency)
    && (currency in t.open <==> Owes(rows, {unit}, customer, currency))
  }

  lemma {:induction false} UnitsAreOwed(rows: seq<Invoice>, units: seq<string>, customer: Option<string>, ts: seq<Tally>, currency: string)
    requires Distinct(units) && |ts| == |units| && forall k :: 0 <= k < |ts| ==> OwedAs(rows, ts[k], units[k], customer, currency)
    ensures AmountSum(ts, currency) == Owed(rows, AsSet(units), customer, currency)
    ensures currency in Currencies(ts) <==> Owes(rows, AsSet(units), customer, currency)
  {
    if units == [] {
      OwedNowhere(rows, customer, currency);
      assert AsSet(units) == {};
    } else {
      var n := |units| - 1;
      UnitsAreOwed(rows, units[..n], customer, ts[..n], currency);
      assert OwedAs(rows, ts[n], units[n], customer, currency);
      AsSetMore(units);
      OwedMoreUnits(rows, AsSet(units[..n]), units[n], customer, currency);
      OwesMoreUnits(rows, AsSet(units[..n]), units[n], customer, currency);
    }
  }

  lemma {:induction false} TalliedIsOwed(l: Ledger, units: seq<string>, customer: Option<string>, ts: seq<Tally>, currency: string)
    requires !l.outage && Referable(l) && NoneNegative(l.invoices) && Distinct(units) && Tallied(l, units, customer, ts)
    ensures AmountSum(ts, currency) == Owed(l.invoices, AsSet(units), customer, currency)
    ensures currency in Currencies(ts) <==> Owes(l.invoices, AsSet(units), customer, currency)
  {
    forall k | 0 <= k < |ts|
      ensures OwedAs(l.invoices, ts[k], units[k], customer, currency)
    {
      UnitIsOwed(l, units[k], customer, currency);
    }
    UnitsAreOwed(l.invoices, units, customer, ts, currency);
  }

  // The keys of a tally

  ghost predicate Keyed(t: Tally) {
    Distinct(t.keys) && forall c :: c in t.open <==> c in t.keys
  }

  lemma {:induction false} TallyKeyed(l: Ledger, refs: seq<string>)
    ensures TallyOf(l, refs).Some? ==> Keyed(TallyOf(l, refs).value)
  {
    if refs != [] {
      TallyKeyed(l, refs[..|refs| - 1]);
    }
  }

  lemma {:induction false} TwoDiffer(s: seq<string>)
    requires Distinct(s) && |s| >= 2
    ensures s[0] != s[1]
  {
  }

  lemma {:induction false} OneKey(t: Tally, currency: string)
    requires Keyed(t) && t.open.Keys <= {currency}
    ensures UnitTotal(t) == Amount(t, currency)
  {
    forall i | 0 <= i < |t.keys| ensures t.keys[i] == currency { assert t.keys[i] in t.open.Keys; }
    if |t.keys| == 0 {
      assert currency !in t.keys;
    } else if |t.keys| == 1 {
      assert t.keys[0] in t.open && KeySum(t.keys[..0], t.open) == 0.0;
    } else {
      TwoDiffer(t.keys);
    }
  }

  lemma {:induction false} OneCurrency(ts: seq<Tally>, currency: string)
    requires Currencies(ts) <= {currency} && forall k :: 0 <= k < |ts| ==> Keyed(ts[k])
    ensures TotalOf(ts) == AmountSum(ts, currency)
  {
    if ts != [] {
      OneCurrency(ts[..|ts| - 1], currency);
      OneKey(ts[|ts| - 1], currency);
    }
  }

  // The headline

  ghost predicate Headline(ts: seq<Tally>, total: OwnerTotal) {
    match total
    case Nothing => Currencies(ts) == {}
    case In(currency, amount) => Currencies(ts) == {currency} && amount == TotalOf(ts)
    case Mixed => exists c, d :: c in Currencies(ts) && d in Currencies(ts) && c != d
  }

  lemma {:induction false} OwedIsDue(rows: seq<Invoice>, payments: seq<Payment>, units: set<string>, customer: Option<string>, currency: string)
    requires NetStands(payments) && forall i :: 0 <= i < |rows| ==> Balanced(rows[i], payments)
    ensures Owed(rows, units, customer, currency) == Due(rows, payments, units, customer, currency)
  {
    if rows != [] {
      var last := rows[|rows| - 1];
      OwedIsDue(rows[..|rows| - 1], payments, units, customer, currency);
      assert Balanced(last, payments);
      assert Net(payments, Handle(last)) == Standing(payments, Handle(last));
    }
  }

  lemma {:induction false} BooksNotNegative(l: Ledger)
    requires Books(l)
    ensures NoneNegative(l.invoices)
  {
    forall i | 0 <= i < |l.invoices| ensures l.invoices[i].open >= 0.0 { assert Balanced(l.invoices[i], l.payments); }
  }

  // The roll-up of a sound ledger: one currency is reported exactly when it alone is owed, and then the total is the sum
  // over all posted rows of the units, each row once, which is their totals less everything recorded against them; a
  // roll-up without currency means that nothing is owed; mixed currencies are never added up.
  lemma {:induction false} RollupIsOwed(l: Ledger, units: seq<string>, customer: Option<string>, ts: seq<Tally>, total: OwnerTotal)
    requires LedgerInv(l) && !l.outage && Distinct(units) && Tallied(l, units, customer, ts) && Headline(ts, total)
    ensures total.In? ==>
      && total.total == Owed(l.invoices, AsSet(units), customer, total.currency)
      && total.total == Due(l.invoices, l.payments, AsSet(units), customer, total.currency)
      && forall c :: Owes(l.invoices, AsSet(units), customer, c) <==> c == total.currency
    ensures total.Nothing? <==> forall c :: !Owes(l.invoices, AsSet(units), customer, c)
    ensures total.Mixed? <==> exists c, d :: c != d && Owes(l.invoices, AsSet(units), customer, c) && Owes(l.invoices, AsSet(units), customer, d)
  {
    NamesAreReferable(l);
    BooksNotNegative(l);
    forall c
      ensures AmountSum(ts, c) == Owed(l.invoices, AsSet(units), customer, c)
      ensures c in Currencies(ts) <==> Owes(l.invoices, AsSet(units), customer, c)
    {
      TalliedIsOwed(l, units, customer, ts, c);
    }
    if total.In? {
      forall k | 0 <= k < |ts| ensures Keyed(ts[k]) { UnitKeyed(l, units[k], customer); }
      OneCurrency(ts, total.currency);
      OwedIsDue(l.invoices, l.payments, AsSet(units), customer, total.currency);
    }
  }

  lemma {:induction false} UnitKeyed(l: Ledger, unit: string, customer: Option<string>)
    ensures UnitTally(l, unit, customer).Some? ==> Keyed(UnitTally(l, unit, customer).value)
  {
    if UnitTally(l, unit, customer).Some? {
      TallyKeyed(l, QueryInvoices(l, Some(Posted), Some(unit), customer).value);
    }
  }

  // Every unit of a reachable provider with sound handles can be read.
  lemma {:induction false} TallyReads(l: Ledger, refs: seq<string>)
    requires !l.outage && Reads(l, refs)
    ensures TallyOf(l, refs).Some?
  {
    if refs != [] {
      TallyReads(l, refs[..|refs| - 1]);
    }
  }

  lemma {:induction false} UnitReads(l: Ledger, unit: string, customer: Option<string>)
    requires Referable(l)
    ensures UnitTally(l, unit, customer).Some? <==> !l.outage
  {
    if !l.outage {
      QueryFinds(l, l.order, Some(unit), customer);
      var found := Query(l, l.order, Some(Posted), Some(unit), customer);
      forall k | 0 <= k < |found| ensures RowOf(l, found[k]).Some? && Handle(l.invoices[RowOf(l, found[k]).value]) == found[k] {
        assert StandsFor(l, found[k], Some(unit), customer);
      }
      TallyReads(l, found);
    }
  }

  // The report

  datatype Reply = Rollup(units: seq<string>, tallies: seq<Tally>, total: OwnerTotal) | Denied(code: string) | Blocked

  ghost predicate Assigned(assignments: seq<Assignment>, actor: string, at: int, unit: string) {
    exists k :: 0 <= k < |assignments| && Effective(assignments[k], actor, at) && assignments[k].unit == unit
  }

  // Python's `sorted` on distinct text.
  predicate Ascending(units: seq<string>) {
    forall i, j :: 0 <= i < j < |units| ==> Before(units[i], units[j])
  }

  function InPlace(units: seq<string>, unit: string): seq<string> {
    if units == [] || Before(unit, units[0]) then [unit] + units
    else if unit == units[0] then units
    else [units[0]] + InPlace(units[1..], unit)
  }

  lemma {:induction false} InPlaceAscends(units: seq<string>, unit: string)
    requires Ascending(units)
    ensures Ascending(InPlace(units, unit)) && forall u :: u in InPlace(units, unit) <==> u == unit || u in units
  {
    if units != [] {
      var first, rest := units[0], units[1..];
      if Before(unit, first) {
        forall j | 0 <= j < |units| ensures Before(unit, units[j]) {
          if j > 0 { BeforeTransitive(unit, first, units[j]); }
        }
      } else if unit != first {
        InPlaceAscends(rest, unit);
        BeforeTotal(unit, first);
        var placed := InPlace(rest, unit);
        forall j | 0 <= j < |placed| ensures Before(first, placed[j]) { assert placed[j] in placed; }
      }
    }
  }

  lemma {:induction false} AscendingDistinct(units: seq<string>)
    requires Ascending(units)
    ensures Distinct(units)
  {
    forall i, j | 0 <= i < j < |units| ensures units[i] != units[j] { BeforeIrreflexive(units[i]); }
  }

  // There are units to report, and the access layer refuses none.
  ghost predicate EveryUnitCleared(assignments: seq<Assignment>, actor: string, at: int, refusals: map<string, string>) {
    (exists u :: Assigned(assignments, actor, at, u)) && forall u :: Assigned(assignments, actor, at, u) ==> u !in refusals
  }

  predicate Passes(l: Ledger, unit: string, refusals: map<string, string>, customer: Option<string>) {
    unit !in refusals && UnitTally(l, unit, customer).Some?
  }

  // The assigned unit at which the roll-up stops: every one that sorts before it is authorized and read.
  ghost predicate StopsAt(l: Ledger, assignments: seq<Assignment>, actor: string, at: int, refusals: map<string, string>,
                          customer: Option<string>, unit: string) {
    && Assigned(assignments, actor, at, unit) && !Passes(l, unit, refusals, customer)
    && forall u :: Assigned(assignments, actor, at, u) && Before(u, unit) ==> Passes(l, u, refusals, customer)
  }

  // The first n units are cleared and tallied.
  predicate Reached(l: Ledger, units: seq<string>, n: nat, refusals: map<string, string>, customer: Option<string>, ts: seq<Tally>)
    requires n <= |units|
  {
    |ts| == n && forall k :: 0 <= k < n ==> units[k] !in refusals && UnitTally(l, units[k], customer) == Some(ts[k])
  }

  predicate FirstStop(l: Ledger, units: seq<string>, k: int, refusals: map<string, string>, customer: Option<string>) {
    0 <= k < |units| && !Passes(l, units[k], refusals, customer) && forall i :: 0 <= i < k ==> Passes(l, units[i], refusals, customer)
  }

  lemma {:induction false} FirstStopIsLeast(l: Ledger, assignments: seq<Assignment>, actor: string, at: int, units: seq<string>, k: int,
                                            refusals: map<string, string>, customer: Option<string>)
    requires Ascending(units) && forall u :: u in units <==> Assigned(assignments, actor, at, u)
    requires FirstStop(l, units, k, refusals, customer)
    ensures StopsAt(l, assignments, actor, at, refusals, customer, units[k])
  {
    forall u | Assigned(assignments, actor, at, u) && Before(u, units[k]) ensures Passes(l, u, refusals, customer) {
      var i :| 0 <= i < |units| && units[i] == u;
      BeforeIrreflexive(u);
      if i > k { BeforeTransitive(u, units[k], u); }
    }
  }

  // `Refused` carries the code of the access decision.
  datatype Gathered = All(tallies: seq<Tally>) | Refused(code: string) | Unreadable

  predicate Verdict(g: Gathered, unit: string, refusals: map<string, string>) {
    if g.Refused? then unit in refusals && g.code == refusals[unit] else unit !in refusals
  }

  class OwnerRollupReport {
    const adapter: FixtureErpAdapter
    var denied: seq<string>

    constructor (adapter: FixtureErpAdapter)
      ensures this.adapter == adapter && denied == []
    {
      this.adapter := adapter;
      denied := [];
    }

    static method ActiveOwnerUnits(actor: string, at: int, assignments: seq<Assignment>) returns (units: seq<string>)
      ensures Ascending(units) && forall u :: u in units <==> Assigned(assignments, actor, at, u)
    {
      units := [];
      var i := 0;
      while i < |assignments|
        invariant 0 <= i <= |assignments| && Ascending(units)
        invariant forall u :: u in units <==> exists k :: 0 <= k < i && Effective(assignments[k], actor, at) && assignments[k].unit == u
      {
        var a := assignments[i];
        if Effective(a, actor, at) {
          InPlaceAscends(units, a.unit);
          units := InPlace(units, a.unit);
        }
        i := i + 1;
      }
    }

    method ReadUnitSubtotal(unit: string, customer: Option<string>) returns (t: Option<Tally>)
      requires adapter.Valid()
      ensures t == UnitTally(adapter.ledger, unit, customer)
    {
      var result := adapter.ListInvoices(Some(Posted), Some(unit), customer);
      if !result.Ok? {
        return None;
      }
      t := AddUp(result.value);
    }

    method AddUp(refs: seq<string>) returns (t: Option<Tally>)
      requires adapter.Valid()
      ensures t == TallyOf(adapter.ledger, refs)
    {
      var sum := EMPTY_TALLY;
      var i := 0;
      while i < |refs|
        invariant 0 <= i <= |refs| && TallyOf(adapter.ledger, refs[..i]) == Some(sum)
      {
        assert refs[..i + 1][..i] == refs[..i];
        var read := adapter.ReadInvoiceRecord(refs[i]);
        if !read.Ok? {
          Unread(adapter.ledger, refs, i);
          return None;
        }
        sum := Add(sum, read.value);
        i := i + 1;
      }
      assert refs[..i] == refs;
      return Some(sum);
    }

    // One currency makes a total, none makes zero, several make neither.
    static method Conclude(ts: seq<Tally>) returns (total: OwnerTotal)
      ensures Headline(ts, total)
    {
      var seen: set<string> := {};
      var sum := 0.0;
      var i := 0;
      while i < |ts|
        invariant 0 <= i <= |ts| && seen == Currencies(ts[..i]) && sum == TotalOf(ts[..i])
      {
        assert ts[..i + 1][..i] == ts[..i];
        seen := seen + ts[i].open.Keys;
        sum := sum + UnitTotal(ts[i]);
        i := i + 1;
      }
      assert ts[..i] == ts;
      if seen == {} {
        return Nothing;
      }
      var c :| c in seen;
      var others := seen - {c};
      if others == {} {
        assert seen == {c};
        return In(c, sum);
      }
      ghost var d :| d in others;
      return Mixed;
    }

    method Deny(code: string) returns (r: Reply)
      modifies this
      ensures r == Denied(code) && denied == old(denied) + [code]
    {
      denied := denied + [code];
      return Denied(code);
    }

    lemma {:induction false} Readable(unit: string, customer: Option<string>)
      ensures Referable(adapter.ledger) ==> (UnitTally(adapter.ledger, unit, customer).Some? <==> !adapter.ledger.outage)
    {
      if Referable(adapter.ledger) {
        UnitReads(adapter.ledger, unit, customer);
      }
    }

    // `refusals` holds the codes with which the access layer refuses units: every unit needs its own clearance, and the
    // first refusal, in the units' text order, denies the whole roll-up with its code.
    method QueryRollup(actor: string, at: int, valid: bool, identified: bool, assignments: seq<Assignment>,
                       refusals: map<string, string>, customer: Option<string>) returns (r: Reply)
      requires adapter.Valid()
      modifies this
      ensures r.Rollup? ==>
        && valid && identified && EveryUnitCleared(assignments, actor, at, refusals)
        && Ascending(r.units) && Distinct(r.units) && (forall u :: u in r.units <==> Assigned(assignments, actor, at, u))
        && Tallied(adapter.ledger, r.units, customer, r.tallies) && Headline(r.tallies, r.total)
      ensures r.Denied? ==> !valid || !identified || !EveryUnitCleared(assignments, actor, at, refusals)
      ensures !valid ==> r == Denied("INVALID_INPUT")
      ensures valid && !identified ==> r == Denied("IDENTITY_UNVERIFIED")
      ensures valid && identified && (forall u :: !Assigned(assignments, actor, at, u)) ==> r == Denied("PERMISSION_DENIED")
      ensures valid && identified && (exists u :: Assigned(assignments, actor, at, u)) && r.Denied? ==>
        exists u :: StopsAt(adapter.ledger, assignments, actor, at, refusals, customer, u) && u in refusals && r.code == refusals[u]
      ensures r.Blocked? ==>
        exists u :: StopsAt(adapter.ledger, assignments, actor, at, refusals, customer, u) && u !in refusals
      ensures Referable(adapter.ledger) && !adapter.ledger.outage ==>
        if valid && identified && EveryUnitCleared(assignments, actor, at, refusals) then r.Rollup? else r.Denied?
      ensures Referable(adapter.ledger) && adapter.ledger.outage ==>
        if valid && identified && EveryUnitCleared(assignments, actor, at, refusals) then r.Blocked? else !r.Rollup?
      ensures denied == if r.Denied? then old(denied) + [r.code] else old(denied)
    {
      if !valid {
        r := Deny("INVALID_INPUT");
        return;
      }
      if !identified {
        r := Deny("IDENTITY_UNVERIFIED");
        return;
      }
      var units := ActiveOwnerUnits(actor, at, assignments);
      if units == [] {
        r := Deny("PERMISSION_DENIED");
        return;
      }
      assert Assigned(assignments, actor, at, units[0]);
      var gathered := ReadUnits(units, refusals, customer);
      if !gathered.All? {
        ghost var k :| FirstStop(adapter.ledger, units, k, refusals, customer) && Verdict(gathered, units[k], refusals);
        FirstStopIsLeast(adapter.ledger, assignments, actor, at, units, k, refusals, customer);
        Readable(units[k], customer);
        if gathered.Refused? {
          r := Deny(gathered.code);
          return;
        }
        return Blocked;
      }
      AscendingDistinct(units);
      Readable(units[0], customer);
      var total := Conclude(gathered.tallies);
      return Rollup(units, gathered.tallies, total);
    }

    // A unit is authorized before it is read.
    method ReadNext(units: seq<string>, i: nat, refusals: map<string, string>, customer: Option<string>, tallies: seq<Tally>)
      returns (g: Gathered)
      requires adapter.Valid() && i < |units| && Reached(adapter.ledger, units, i, refusals, customer, tallies)
      ensures g.All? ==> Reached(adapter.ledger, units, i + 1, refusals, customer, g.tallies)
      ensures !g.All? ==> FirstStop(adapter.ledger, units, i, refusals, customer) && Verdict(g, units[i], refusals)
    {
      if units[i] in refusals {
        return Refused(refusals[units[i]]);
      }
      var t := ReadUnitSubtotal(units[i], customer);
      return if t.Some? then All(tallies + [t.value]) else Unreadable;
    }

    method ReadUnits(units: seq<string>, refusals: map<string, string>, customer: Option<string>) returns (g: Gathered)
      requires adapter.Valid()
      ensures g.All? ==> Reached(adapter.ledger, units, |units|, refusals, customer, g.tallies)
      ensures !g.All? ==> exists k :: FirstStop(adapter.ledger, units, k, refusals, customer)
                                      && Verdict(g, units[k], refusals)
    {
      g := All([]);
      var i := 0;
      while i < |units|
        invariant 0 <= i <= |units| && g.All? && Reached(adapter.ledger, units, i, refusals, customer, g.tallies)
      {
        g := ReadNext(units, i, refusals, customer, g.tallies);
        if !g.All? {
          return;
        }
        i := i + 1;
      }
    }
  }

  lemma {:induction false} Unread(l: Ledger, refs: seq<string>, i: nat)
    requires i < |refs| && !ReadInvoice(l, refs[i]).Ok?
    ensures TallyOf(l, refs) == None
    decreases |refs|
  {
    if i < |refs| - 1 {
      Unread(l, refs[..|refs| - 1], i);
    }
  }
}
