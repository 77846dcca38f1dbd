/** Gaps in the invoice numbers: where they come from, and only from there. */
module BillingNumbering {
  import opened Common
  import opened LocalTime
  import opened Numbers
  import opened Invoices
  import opened Billing
  import opened BillingInvariant
  import opened BillingLaws

  ghost predicate HasSerial(inv: Invoice, serial: nat) {
    exists year: nat :: inv.doc.number == Some(InvoiceNumber(year, serial))
  }

  ghost predicate SerialUsed(w: World, serial: nat) {
    exists k :: 0 <= k < |w.invoices| && HasSerial(w.invoices[k], serial)
  }

  /** A step takes a sequence value exactly when it issues an invoice or burns the value. */
  lemma NextAfter(w: World, step: Step, now: nat)
    requires Enabled(w, step, now)
    ensures var issues := step.OnInvoice? && Issues(w.invoices[step.i], step.iact);
            Next(w, step, now).next == if issues || step.BurnNumber? then w.next + 1 else w.next
  {
  }

  /** An issue puts the value it takes on the invoice. */
  lemma IssueUses(w: World, i: nat, act: InvoiceAct, now: nat)
    requires i < |w.invoices| && w.invoices[i].business < |w.accounts| && Issues(w.invoices[i], act)
    ensures SerialUsed(InvoiceStep(w, i, act, now), w.next)
  {
    var inv' := InvoiceStep(w, i, act, now).invoices[i];
    NumberAfter(w.invoices[i], act, now, w.next);
    assert inv'.doc.number == Some(InvoiceNumber(Year(UtcDate(now)), w.next));
    assert HasSerial(inv', w.next);
  }

  /** A used value stays used. */
  lemma UsedStaysInStep(w: World, step: Step, now: nat, serial: nat)
    requires Inv(w) && Enabled(w, step, now) && SerialUsed(w, serial)
    ensures SerialUsed(Next(w, step, now), serial)
  {
    var k :| 0 <= k < |w.invoices| && HasSerial(w.invoices[k], serial);
    assert InvoiceOk(w.invoices[k], |w.accounts|, w.next, w.clock);
    DocumentStaysInStep(w, step, now, k);
    assert HasSerial(Next(w, step, now).invoices[k], serial);
  }

  lemma SerialDiffers(number: string, serial: nat, year: nat, other: nat)
    requires number == InvoiceNumber(year, other) && other != serial
    ensures forall y: nat :: number != InvoiceNumber(y, serial)
  {
    forall y: nat ensures number != InvoiceNumber(y, serial) {
      if number == InvoiceNumber(y, serial) {
        InvoiceNumberInjective(y, serial, year, other);
        assert false;
      }
    }
  }

  /** A value not in use is used after a step only if the step took it. */
  lemma UnusedStaysInStep(w: World, step: Step, now: nat, serial: nat)
    requires Enabled(w, step, now) && !SerialUsed(w, serial) && serial < w.next
    ensures !SerialUsed(Next(w, step, now), serial)
  {
    var w' := Next(w, step, now);
    forall k | 0 <= k < |w'.invoices| ensures !HasSerial(w'.invoices[k], serial) {
      if step.OnInvoice? && step.i == k && Issues(w.invoices[k], step.iact) {
        NumberAfter(w.invoices[k], step.iact, now, w.next);
        SerialDiffers(NumberOn(now, w.next), serial, Year(UtcDate(now)), w.next);
      } else {
        OldNumber(w, step, now, k);
        assert k < |w.invoices| ==> !HasSerial(w.invoices[k], serial);
      }
    }
  }

  lemma OldNumber(w: World, step: Step, now: nat, k: nat)
    requires Enabled(w, step, now) && k < |Next(w, step, now).invoices|
    requires !(step.OnInvoice? && step.i == k && Issues(w.invoices[k], step.iact))
    ensures Next(w, step, now).invoices[k].doc.number == if k < |w.invoices| then w.invoices[k].doc.number else None
  {
    if step.OnInvoice? && step.i == k {
      NumberAfter(w.invoices[k], step.iact, now, w.next);
    }
  }

  lemma FutureUnused(w: World, serial: nat)
    requires Inv(w) && serial >= w.next
    ensures !SerialUsed(w, serial)
  {
    forall k | 0 <= k < |w.invoices| ensures !HasSerial(w.invoices[k], serial) {
      assert InvoiceOk(w.invoices[k], |w.accounts|, w.next, w.clock);
      if w.invoices[k].doc.number.Some? {
        var year: nat, other: nat :| other < w.next && w.invoices[k].doc.number.value == InvoiceNumber(year, other);
        SerialDiffers(w.invoices[k].doc.number.value, serial, year, other);
      }
    }
  }

  lemma BurntUnused(w: World, step: Step, now: nat)
    requires Inv(w) && Enabled(w, step, now) && step.BurnNumber?
    ensures w.next < Next(w, step, now).next && !SerialUsed(Next(w, step, now), w.next)
  {
    FutureUnused(w, w.next);
    assert Next(w, step, now).invoices == w.invoices;
  }

  lemma PassedStaysUnused(w: World, e: Event, w': World, serial: nat)
    requires Follows(w, e, w') && serial < w.next && !SerialUsed(w, serial)
    ensures serial < w'.next && !SerialUsed(w', serial)
  {
    NextAfter(w, e.step, e.now);
    UnusedStaysInStep(w, e.step, e.now, serial);
  }

  /** A burnt value is never used, at any later time. */
  lemma {:induction false} BurntStaysUnused(worlds: seq<World>, events: seq<Event>, j: nat, i: nat)
    requires IsRun(worlds, events) && j < i < |worlds| && events[j].step.BurnNumber?
    ensures worlds[j].next < worlds[i].next && !SerialUsed(worlds[i], worlds[j].next)
  {
    var w, e := worlds[i - 1], events[i - 1];
    assert Follows(w, e, worlds[i]);
    if j == i - 1 {
      RunKeepsInv(worlds, events, j);
      BurntUnused(w, e.step, e.now);
    } else {
      BurntStaysUnused(worlds, events, j, i - 1);
      PassedStaysUnused(w, e, worlds[i], worlds[j].next);
    }
  }

  /** Every value from first up to n is on an invoice. */
  ghost predicate UsedUpto(w: World, first: nat, n: nat) {
    forall serial: nat :: first <= serial < n ==> SerialUsed(w, serial)
  }

  /** Every value taken so far is on an invoice. */
  ghost predicate Gapless(worlds: seq<World>, i: nat)
    requires i < |worlds|
  {
    UsedUpto(worlds[i], worlds[0].next, worlds[i].next)
  }

  /** A value that was taken without being burnt is on an invoice. */
  lemma TakenUsed(w: World, step: Step, now: nat)
    requires Enabled(w, step, now) && !step.BurnNumber? && w.next < Next(w, step, now).next
    ensures Next(w, step, now).next == w.next + 1 && SerialUsed(Next(w, step, now), w.next)
  {
    NextAfter(w, step, now);
    IssueUses(w, step.i, step.iact, now);
  }

  /** Without a burn, a step takes at most the next value, and uses it. */
  lemma OnlyTaken(w: World, e: Event, w': World)
    requires Follows(w, e, w') && !e.step.BurnNumber?
    ensures w'.next == w.next || (w'.next == w.next + 1 && SerialUsed(w', w.next))
  {
    NextAfter(w, e.step, e.now);
    if w'.next != w.next {
      TakenUsed(w, e.step, e.now);
    }
  }

  lemma AllStayUsed(w: World, e: Event, w': World, first: nat)
    requires Inv(w) && Follows(w, e, w') && UsedUpto(w, first, w.next)
    ensures UsedUpto(w', first, w.next)
  {
    forall serial: nat | first <= serial < w.next ensures SerialUsed(w', serial) {
      UsedStaysInStep(w, e.step, e.now, serial);
    }
  }

  lemma GapStep(w: World, e: Event, w': World, first: nat)
    requires Inv(w) && Follows(w, e, w') && !e.step.BurnNumber? && UsedUpto(w, first, w.next)
    ensures UsedUpto(w', first, w'.next)
  {
    AllStayUsed(w, e, w', first);
    OnlyTaken(w, e, w');
    OneMoreUsed(w', first, w.next);
  }

  lemma OneMoreUsed(w: World, first: nat, n: nat)
    requires UsedUpto(w, first, n)
    ensures SerialUsed(w, n) ==> UsedUpto(w, first, n + 1)
  {
  }

  lemma {:induction false} NoBurnNoGap(worlds: seq<World>, events: seq<Event>, i: nat)
    requires IsRun(worlds, events) && i < |worlds|
    requires forall j :: 0 <= j < i ==> !events[j].step.BurnNumber?
    ensures Gapless(worlds, i)
  {
    if i > 0 {
      NoBurnNoGap(worlds, events, i - 1);
      RunKeepsInv(worlds, events, i - 1);
      assert Follows(worlds[i - 1], events[i - 1], worlds[i]);
      GapStep(worlds[i - 1], events[i - 1], worlds[i], worlds[0].next);
    }
  }

  lemma {:induction false} NextGrows(worlds: seq<World>, events: seq<Event>, i: nat)
    requires IsRun(worlds, events) && i < |worlds|
    ensures worlds[0].next <= worlds[i].next
  {
    if i > 0 {
      NextGrows(worlds, events, i - 1);
      assert Follows(worlds[i - 1], events[i - 1], worlds[i]);
      NextAfter(worlds[i - 1], events[i - 1].step, events[i - 1].now);
    }
  }

  /**
   * Invoice numbering has no gap exactly when no issue was rolled back after taking its value: drafts,
   * refusals, edits and cancellations leave none.
   */
  lemma GaplessIff(worlds: seq<World>, events: seq<Event>, i: nat)
    requires IsRun(worlds, events) && i < |worlds|
    ensures Gapless(worlds, i) <==> forall j :: 0 <= j < i ==> !events[j].step.BurnNumber?
  {
    if j :| 0 <= j < i && events[j].step.BurnNumber? {
      NextGrows(worlds, events, j);
      BurntStaysUnused(worlds, events, j, i);
    } else {
      NoBurnNoGap(worlds, events, i);
    }
  }
}
