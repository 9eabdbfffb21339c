/**
  What a query of the provider finds (src/adapters/fixture/erp.py:491-528): each matching invoice once, by the
  reference it goes by, although a posted invoice stands behind two handles.
 */
module LedgerQuery {
  import opened Wrappers
  import opened ErpLedger
  import opened LedgerRuns

  predicate Distinct(s: seq<string>) {
    forall i, j :: 0 <= i < j < |s| ==> s[i] != s[j]
  }

  function AsSet(refs: seq<string>): set<string> {
    set k | 0 <= k < |refs| :: refs[k]
  }

  // Every row goes by the reference the dictionary knows it by.
  ghost predicate Referable(l: Ledger) {
    && (forall i :: 0 <= i < |l.invoices| ==> RowOf(l, Handle(l.invoices[i])) == Some(i))
    && (forall h :: h in l.handles ==> h in l.order && RowOf(l, h).Some?)
  }

  lemma {:induction false} NamesAreReferable(l: Ledger)
    requires Names(l)
    ensures Referable(l)
  {
    forall i | 0 <= i < |l.invoices| ensures RowOf(l, Handle(l.invoices[i])) == Some(i) { assert RowNamed(l, i); }
    forall h | h in l.handles ensures RowOf(l, h).Some? { assert HandleNamed(l, h); }
  }

  // The reference stands for a matching posted row.
  predicate StandsFor(l: Ledger, reference: string, unit: Option<string>, customer: Option<string>) {
    && RowOf(l, reference).Some?
    && var invoice := l.invoices[RowOf(l, reference).value];
    && Handle(invoice) == reference && Matches(invoice, Some(Posted), unit, customer)
  }

  // A query of the posted invoices finds exactly the matching ones, each once.
  lemma {:induction false} QueryFinds(l: Ledger, order: seq<string>, unit: Option<string>, customer: Option<string>)
    requires Referable(l)
    ensures var found := Query(l, order, Some(Posted), unit, customer);
      && Distinct(found)
      && (forall k :: 0 <= k < |found| ==> StandsFor(l, found[k], unit, customer))
      && (forall h :: h in order && h in l.handles && Matches(l.invoices[RowOf(l, h).value], Some(Posted), unit, customer)
            ==> Handle(l.invoices[RowOf(l, h).value]) in found)
  {
    if order != [] {
      QueryFinds(l, order[..|order| - 1], unit, customer);
    }
  }
}
