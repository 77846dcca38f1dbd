/** Every billing step keeps the invariant: references, numbers, documents and hand-recorded payments. */
module BillingInvariant {
  import opened Common
  import opened LocalTime
  import opened Numbers
  import opened Account
  import opened Invoices
  import opened Webhooks
  import opened Billing

  // ---- references ----

  lemma NewRowKeepsUnique(rows: seq<Payment>, p: Payment)
    requires ReferencesUnique(rows)
    requires (p.provider == STRIPE || p.provider == PAYFAST) ==> Fresh(rows, p.provider, p.reference)
    ensures ReferencesUnique(rows + [p])
  {
  }

  lemma ReferencesKept(w: World, step: Step, now: nat)
    requires Inv(w) && Enabled(w, step, now)
    ensures ReferencesUnique(Next(w, step, now).payments)
  {
    if step.OnAccount? {
      var books := BooksAt(w, step.b);
      ActAddsRow(books, step.act, now, w.settings);
      var after := ActOn(books, step.act, now, w.settings);
      if after.rows != w.payments {
        NewRowKeepsUnique(w.payments, after.rows[|w.payments|]);
      }
    } else if step.OnInvoice? && Pays(w.invoices[step.i], step.iact) {
      NewRowKeepsUnique(w.payments, PaidRow(Next(w, step, now).invoices[step.i]));
    }
  }

  // ---- invoices ----

  lemma InvoiceStaysOk(inv: Invoice, businesses: nat, businesses': nat, next: nat, next': nat, clock: int, clock': int)
    requires InvoiceOk(inv, businesses, next, clock) && businesses <= businesses' && next <= next' && clock <= clock'
    ensures InvoiceOk(inv, businesses', next', clock')
  {
  }

  lemma IssuedOk(inv: Invoice, s: Supplier, customer: Customer, now: nat, serial: nat, businesses: nat)
    requires inv.business < businesses
    ensures InvoiceOk(Issued(inv, s, customer, now, serial), businesses, serial + 1, now)
  {
  }

  lemma InvoiceAfterOk(inv: Invoice, act: InvoiceAct, businesses: nat, now: nat, serial: nat)
    requires InvoiceOk(inv, businesses, serial, now)
    ensures InvoiceOk(InvoiceAfter(inv, act, now, serial), businesses,
                      if Issues(inv, act) then serial + 1 else serial, now)
  {
    if Issues(inv, act) {
      IssuedOk(inv, act.supplier, act.customer, now, serial, businesses);
    }
  }

  lemma SweptOk(inv: Invoice, businesses: nat, next: nat, now: int)
    requires InvoiceOk(inv, businesses, next, now)
    ensures InvoiceOk(Swept(inv, UtcDate(now)), businesses, next, now)
  {
  }

  lemma DraftedOk(business: nat, body: seq<LineIn>, s: Supplier, businesses: nat, next: nat, now: int)
    requires business < businesses
    ensures InvoiceOk(Drafted(business, body, s), businesses, next, now)
  {
  }

  lemma InvoicesKept(w: World, step: Step, now: nat)
    requires Inv(w) && Enabled(w, step, now)
    ensures InvoicesOk(Next(w, step, now))
  {
    var w' := Next(w, step, now);
    forall i | 0 <= i < |w'.invoices| ensures InvoiceOk(w'.invoices[i], |w'.accounts|, w'.next, now) {
      InvoiceKept(w, step, now, i);
    }
  }

  lemma InvoiceKept(w: World, step: Step, now: nat, i: nat)
    requires Inv(w) && Enabled(w, step, now) && i < |Next(w, step, now).invoices|
    ensures var w' := Next(w, step, now);
            InvoiceOk(w'.invoices[i], |w'.accounts|, w'.next, now)
  {
    var w' := Next(w, step, now);
    if i == |w.invoices| {
      DraftedOk(step.b, step.body, step.supplier, |w.accounts|, w.next, now);
    } else {
      assert InvoiceOk(w.invoices[i], |w.accounts|, w.next, w.clock);
      InvoiceStaysOk(w.invoices[i], |w.accounts|, |w'.accounts|, w.next, w'.next, w.clock, now);
      InvoiceStaysOk(w.invoices[i], |w.accounts|, |w'.accounts|, w.next, w.next, w.clock, now);
      if step.OnInvoice? && step.i == i {
        InvoiceAfterOk(w.invoices[i], step.iact, |w'.accounts|, now, w.next);
      } else if step.ExpirySweep? {
        SweptOk(w.invoices[i], |w'.accounts|, w'.next, now);
      }
    }
  }

  // ---- numbers ----

  /** An invoice's number after an act: kept, except that issuing gives the next one. */
  lemma NumberAfter(inv: Invoice, act: InvoiceAct, now: nat, serial: nat)
    ensures InvoiceAfter(inv, act, now, serial).doc.number
            == if Issues(inv, act) then Some(NumberOn(now, serial)) else inv.doc.number
  {
  }

  lemma NewNumberDiffers(number: string, now: nat, serial: nat)
    requires NumberBelow(number, serial)
    ensures number != NumberOn(now, serial)
  {
    var year: nat, old_: nat :| old_ < serial && number == InvoiceNumber(year, old_);
    if number == NumberOn(now, serial) {
      InvoiceNumberInjective(year, old_, Year(UtcDate(now)), serial);
      assert false;
    }
  }

  /** Replacing invoice i by one with the same number or an unused number keeps all numbers apart. */
  lemma NumbersAfter(invoices: seq<Invoice>, i: nat, inv: Invoice)
    requires NumbersDistinct(invoices) && i < |invoices|
    requires inv.doc.number == invoices[i].doc.number
             || forall j :: 0 <= j < |invoices| ==> !SameNumber(invoices[j], inv)
    ensures NumbersDistinct(invoices[i := inv])
  {
  }

  lemma NumbersKept(w: World, step: Step, now: nat)
    requires Inv(w) && Enabled(w, step, now)
    ensures NumbersDistinct(Next(w, step, now).invoices)
  {
    var w' := Next(w, step, now);
    if step.OnInvoice? {
      InvoiceActNumbers(w, step.i, step.iact, now);
    } else {
      forall i, j | 0 <= i < |w'.invoices| && 0 <= j < |w'.invoices| && i != j
        ensures !SameNumber(w'.invoices[i], w'.invoices[j]) {
        if i < |w.invoices| && j < |w.invoices| {
          assert !SameNumber(w.invoices[i], w.invoices[j]);
        }
      }
    }
  }

  lemma InvoiceActNumbers(w: World, i: nat, act: InvoiceAct, now: nat)
    requires Inv(w) && i < |w.invoices|
    ensures NumbersDistinct(w.invoices[i := InvoiceAfter(w.invoices[i], act, now, w.next)])
  {
    var inv' := InvoiceAfter(w.invoices[i], act, now, w.next);
    NumberAfter(w.invoices[i], act, now, w.next);
    if Issues(w.invoices[i], act) {
      forall j | 0 <= j < |w.invoices| ensures !SameNumber(w.invoices[j], inv') {
        assert InvoiceOk(w.invoices[j], |w.accounts|, w.next, w.clock);
        if w.invoices[j].doc.number.Some? {
          NewNumberDiffers(w.invoices[j].doc.number.value, now, w.next);
        }
      }
    }
    NumbersAfter(w.invoices, i, inv');
  }

  // ---- hand-recorded payments ----

  lemma ManualSnoc(rows: seq<Payment>, p: Payment)
    ensures ManualRows(rows + [p]) == ManualRows(rows) + (if ByHand(p) then [p] else [])
  {
  }

  /** Only a payment adds a hand-recorded row, and then exactly the row of the invoice just paid. */
  lemma ManualAdded(w: World, step: Step, now: nat)
    requires Inv(w) && Enabled(w, step, now)
    ensures var w' := Next(w, step, now);
            ManualRows(w'.payments) ==
            if step.OnInvoice? && Pays(w.invoices[step.i], step.iact)
            then ManualRows(w.payments) + [PaidRow(w'.invoices[step.i])]
            else ManualRows(w.payments)
  {
    if step.OnAccount? {
      NoManualRow(BooksAt(w, step.b), step.act, now, w.settings);
    } else if step.OnInvoice? && Pays(w.invoices[step.i], step.iact) {
      PaidManualRow(w, step.i, step.iact, now);
    }
  }

  /** A provider's event adds no hand-recorded row. */
  lemma NoManualRow(books: Books, act: AccountAct, now: int, s: Settings)
    ensures ManualRows(ActOn(books, act, now, s).rows) == ManualRows(books.rows)
  {
    ActAddsRow(books, act, now, s);
    var after := ActOn(books, act, now, s);
    if after.rows != books.rows {
      ManualSnoc(books.rows, after.rows[|books.rows|]);
    }
  }

  lemma PaidManualRow(w: World, i: nat, act: InvoiceAct, now: nat)
    requires i < |w.invoices| && w.invoices[i].business < |w.accounts| && Pays(w.invoices[i], act)
    ensures var w' := InvoiceStep(w, i, act, now);
            i < |w'.invoices| && PaidInvoice(w'.invoices[i])
            && ManualRows(w'.payments) == ManualRows(w.payments) + [PaidRow(w'.invoices[i])]
  {
    ManualSnoc(w.payments, PaidRow(InvoiceStep(w, i, act, now).invoices[i]));
  }

  /** A paid or cancelled invoice is final: nothing about it ever changes again. */
  predicate Final(inv: Invoice) {
    inv.status == PAID || inv.status == InvoiceStatus.CANCELLED
  }

  lemma FinalStaysInStep(w: World, step: Step, now: nat, i: nat)
    requires Enabled(w, step, now) && i < |w.invoices| && Final(w.invoices[i])
    ensures i < |Next(w, step, now).invoices| && Next(w, step, now).invoices[i] == w.invoices[i]
  {
  }

  lemma NewlyPaid(w: World, step: Step, now: nat, i: nat)
    requires Enabled(w, step, now) && i < |Next(w, step, now).invoices|
    ensures Next(w, step, now).invoices[i].status == PAID <==>
            (i < |w.invoices| && w.invoices[i].status == PAID)
            || (step.OnInvoice? && step.i == i && Pays(w.invoices[i], step.iact))
  {
  }

  lemma RowsMatchKept(manual: seq<Payment>, invoices: seq<Invoice>, invoices': seq<Invoice>, settled: seq<nat>)
    requires RowsMatch(manual, invoices, settled)
    requires forall i :: 0 <= i < |invoices| && Final(invoices[i]) ==> i < |invoices'| && invoices'[i] == invoices[i]
    ensures RowsMatch(manual, invoices', settled)
  {
  }

  lemma RowsMatchSnoc(manual: seq<Payment>, invoices: seq<Invoice>, settled: seq<nat>, i: nat)
    requires RowsMatch(manual, invoices, settled) && i < |invoices| && PaidInvoice(invoices[i])
    ensures RowsMatch(manual + [PaidRow(invoices[i])], invoices, settled + [i])
  {
  }

  lemma FinalsKept(w: World, step: Step, now: nat)
    requires Enabled(w, step, now)
    ensures forall i :: 0 <= i < |w.invoices| && Final(w.invoices[i]) ==>
              i < |Next(w, step, now).invoices| && Next(w, step, now).invoices[i] == w.invoices[i]
  {
  }

  lemma JustPaid(w: World, step: Step, now: nat)
    requires Enabled(w, step, now) && step.OnInvoice? && Pays(w.invoices[step.i], step.iact)
    ensures step.i < |Next(w, step, now).invoices| && PaidInvoice(Next(w, step, now).invoices[step.i])
  {
  }

  lemma RowsMatchAfter(w: World, step: Step, now: nat)
    requires Inv(w) && Enabled(w, step, now)
    ensures var w' := Next(w, step, now); RowsMatch(ManualRows(w'.payments), w'.invoices, w'.settled)
  {
    var w' := Next(w, step, now);
    ManualAdded(w, step, now);
    SettledAfter(w, step, now);
    FinalsKept(w, step, now);
    RowsMatchKept(ManualRows(w.payments), w.invoices, w'.invoices, w.settled);
    if step.OnInvoice? && Pays(w.invoices[step.i], step.iact) {
      JustPaid(w, step, now);
      RowsMatchSnoc(ManualRows(w.payments), w'.invoices, w.settled, step.i);
    }
  }

  lemma SettledArePaid(w: World, i: nat)
    requires Inv(w) && i in w.settled
    ensures i < |w.invoices| && w.invoices[i].status == PAID
  {
  }

  lemma SettledAfter(w: World, step: Step, now: nat)
    requires Inv(w) && Enabled(w, step, now)
    ensures var paid := step.OnInvoice? && Pays(w.invoices[step.i], step.iact);
            && Next(w, step, now).settled == (if paid then w.settled + [step.i] else w.settled)
            && (paid ==> step.i !in w.settled)
  {
  }

  predicate AllListed(invoices: seq<Invoice>, settled: seq<nat>) {
    forall i: nat :: i < |invoices| && invoices[i].status == PAID ==> i in settled
  }

  lemma AllListedAfter(w: World, step: Step, now: nat)
    requires Inv(w) && Enabled(w, step, now)
    ensures AllListed(Next(w, step, now).invoices, Next(w, step, now).settled)
  {
    var w' := Next(w, step, now);
    SettledAfter(w, step, now);
    forall i: nat | i < |w'.invoices| && w'.invoices[i].status == PAID ensures i in w'.settled {
      NewlyPaid(w, step, now, i);
    }
  }

  lemma EachOnceAfter(w: World, step: Step, now: nat)
    requires Inv(w) && Enabled(w, step, now)
    ensures EachOnce(Next(w, step, now).settled)
  {
    SettledAfter(w, step, now);
  }

  lemma SettledKept(w: World, step: Step, now: nat)
    requires Inv(w) && Enabled(w, step, now)
    ensures Billing.Settled(Next(w, step, now))
  {
    RowsMatchAfter(w, step, now);
    EachOnceAfter(w, step, now);
    AllListedAfter(w, step, now);
  }

  lemma StepKeepsInv(w: World, step: Step, now: nat)
    requires Inv(w) && Enabled(w, step, now)
    ensures Inv(Next(w, step, now))
  {
    AccountsKept(w, step, now);
    PaymentsKept(w, step, now);
    ReferencesKept(w, step, now);
    InvoicesKept(w, step, now);
    NumbersKept(w, step, now);
    SettledKept(w, step, now);
  }
}
