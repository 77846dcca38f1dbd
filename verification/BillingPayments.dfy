/** Hand-recorded payments by means: the EFT rows are the invoices settled by EFT, the CASH rows those settled in cash. */
module BillingPayments {
  import opened Common
  import opened Account
  import opened Invoices
  import opened Billing
  import opened BillingLaws

  /** What the history holds under one provider. */
  function ProviderSum(rows: seq<Payment>, provider: Provider): int {
    if rows == [] then 0
    else
      var last := rows[|rows| - 1];
      ProviderSum(rows[..|rows| - 1], provider) + (if last.provider == provider then last.amountCents else 0)
  }

  /** An invoice's total if it was settled by these means, otherwise nothing. */
  function TotalBy(invoices: seq<Invoice>, means: Means): nat -> int {
    (i: nat) =>
      if i < |invoices| && invoices[i].settlement.Some? && invoices[i].settlement.value.means == means
      then invoices[i].doc.totalCents else 0
  }

  lemma ProviderSumSnoc(rows: seq<Payment>, p: Payment, provider: Provider)
    ensures ProviderSum(rows + [p], provider)
            == ProviderSum(rows, provider) + (if p.provider == provider then p.amountCents else 0)
  {
    assert (rows + [p])[..|rows|] == rows;
  }

  lemma {:induction false} ManualSum(rows: seq<Payment>, provider: Provider)
    requires provider == EFT || provider == CASH
    ensures ProviderSum(rows, provider) == ProviderSum(ManualRows(rows), provider)
  {
    if rows != [] {
      var front, last := rows[..|rows| - 1], rows[|rows| - 1];
      ManualSum(front, provider);
      if ByHand(last) {
        ProviderSumSnoc(ManualRows(front), last, provider);
      } else {
        assert ManualRows(front) + [] == ManualRows(front);
      }
    }
  }

  function SettledTotals(settled: seq<nat>, f: nat -> int): (totals: seq<int>)
    ensures |totals| == |settled| && forall k :: 0 <= k < |settled| ==> totals[k] == f(settled[k])
  {
    seq(|settled|, k requires 0 <= k < |settled| => f(settled[k]))
  }

  lemma {:induction false} MatchedSum(manual: seq<Payment>, invoices: seq<Invoice>, settled: seq<nat>,
                                      means: Means, provider: Provider)
    requires RowsMatch(manual, invoices, settled)
    requires (means == Eft && provider == EFT) || (means == Cash && provider == CASH)
    ensures ProviderSum(manual, provider) == Sum(SettledTotals(settled, TotalBy(invoices, means)))
  {
    if settled != [] {
      var n, f := |settled| - 1, TotalBy(invoices, means);
      MatchedSum(manual[..n], invoices, settled[..n], means, provider);
      assert SettledTotals(settled, f)[..n] == SettledTotals(settled[..n], f);
      PaidRowIs(invoices[settled[n]]);
    }
  }

  lemma PaymentsByMeans(worlds: seq<World>, events: seq<Event>, i: nat, means: Means, provider: Provider)
    requires IsRun(worlds, events) && i < |worlds|
    requires (means == Eft && provider == EFT) || (means == Cash && provider == CASH)
    ensures var w := worlds[i];
            ProviderSum(w.payments, provider) == SumOver(PaidInvoices(w.invoices), TotalBy(w.invoices, means))
  {
    var w := worlds[i];
    PaymentsMatchInvoices(worlds, events, i);
    ManualSum(w.payments, provider);
    MatchedSum(ManualRows(w.payments), w.invoices, w.settled, means, provider);
    SumOfDistinct(SettledTotals(w.settled, TotalBy(w.invoices, means)), w.settled, TotalBy(w.invoices, means));
  }

  /** In every run the EFT rows add up to the invoices settled by EFT, and the CASH rows to those settled in cash. */
  lemma MeansBalance(worlds: seq<World>, events: seq<Event>, i: nat)
    requires IsRun(worlds, events) && i < |worlds|
    ensures var w := worlds[i];
            && ProviderSum(w.payments, EFT) == SumOver(PaidInvoices(w.invoices), TotalBy(w.invoices, Eft))
            && ProviderSum(w.payments, CASH) == SumOver(PaidInvoices(w.invoices), TotalBy(w.invoices, Cash))
  {
    PaymentsByMeans(worlds, events, i, Eft, EFT);
    PaymentsByMeans(worlds, events, i, Cash, CASH);
  }

  /** The k-th hand-recorded row charges exactly the k-th settled invoice: its business, total, means, reference and time. */
  lemma ChargedExactly(worlds: seq<World>, events: seq<Event>, i: nat, k: nat)
    requires IsRun(worlds, events) && i < |worlds| && k < |worlds[i].settled|
    ensures var w := worlds[i];
            && |ManualRows(w.payments)| == |w.settled| && w.settled[k] < |w.invoices|
            && var inv := w.invoices[w.settled[k]];
               inv.status == PAID && inv.settlement.Some?
               && ChargeOf(ManualRows(w.payments)[k], inv.business, inv.doc.totalCents, inv.settlement.value.means,
                           inv.settlement.value.reference, inv.doc.number, inv.settlement.value.at)
  {
    PaymentsMatchInvoices(worlds, events, i);
    assert PaidInvoice(worlds[i].invoices[worlds[i].settled[k]]);
    PaidRowIs(worlds[i].invoices[worlds[i].settled[k]]);
  }
}
