/** The overdue sweep looks at the UTC date and the display at the local one: when the two agree. */
module BillingZones {
  import opened Common
  import opened LocalTime
  import opened Account
  import opened AccountStatus
  import opened Invoices
  import opened Billing
  import opened BillingLaws

  /** Displayed by its due dates: active, off trial, not cancelled and without a failed payment. */
  predicate ByDates(a: Account) {
    a.active && a.status != TRIAL && a.status != BillingStatus.CANCELLED && a.status != PAST_DUE
  }

  predicate OpenFor(inv: Invoice, b: nat) {
    inv.business == b && Unpaid(inv.status)
  }

  lemma {:induction false} OpenDuesFrom(invoices: seq<Invoice>, b: nat, due: Option<int>)
    requires due in OpenDues(invoices, b)
    ensures exists i :: 0 <= i < |invoices| && OpenFor(invoices[i], b) && invoices[i].doc.dueDate == due
  {
    var n := |invoices| - 1;
    if OpenFor(invoices[n], b) && invoices[n].doc.dueDate == due {
      assert OpenFor(invoices[n], b);
    } else {
      OpenDuesFrom(invoices[..n], b, due);
      var i :| 0 <= i < n && OpenFor(invoices[..n][i], b) && invoices[..n][i].doc.dueDate == due;
      assert invoices[i] == invoices[..n][i];
    }
  }

  /** Whatever its stored status, an account shows overdue exactly when one of its open invoices is past due locally. */
  lemma DisplayedOverdueIff(a: Account, invoices: seq<Invoice>, b: nat, now: int)
    requires ByDates(a)
    ensures ComputeStatus(a, OpenDues(invoices, b), now).status == Overdue <==>
            exists i :: 0 <= i < |invoices| && LocallyPast(invoices[i], b, now, a.offset)
  {
    DueIff(a, OpenDues(invoices, b), now);
    if d: int :| Some(d) in OpenDues(invoices, b) && PastDue(d, now, a.offset) {
      OpenDuesFrom(invoices, b, Some(d));
      var i :| 0 <= i < |invoices| && OpenFor(invoices[i], b) && invoices[i].doc.dueDate == Some(d);
      assert LocallyPast(invoices[i], b, now, a.offset);
    }
    if i :| 0 <= i < |invoices| && LocallyPast(invoices[i], b, now, a.offset) {
      OpenDuesHas(invoices, b, i);
    }
  }

  predicate LocallyPast(inv: Invoice, b: nat, now: int, offset: int) {
    OpenFor(inv, b) && inv.doc.dueDate.Some? && PastDue(inv.doc.dueDate.value, now, offset)
  }

  /** In any run: an account whose one open invoice was swept shows overdue exactly once its local date is past the due date. */
  lemma SweptDisplayedIff(worlds: seq<World>, events: seq<Event>, i: nat, k: nat, now: nat)
    requires IsRun(worlds, events) && i < |worlds| && k < |worlds[i].invoices|
    requires var w, inv := worlds[i], worlds[i].invoices[k];
             && inv.status == OVERDUE && inv.business < |w.accounts| && ByDates(w.accounts[inv.business])
             && forall l :: 0 <= l < |w.invoices| && OpenFor(w.invoices[l], inv.business) ==> l == k
    ensures var w, inv := worlds[i], worlds[i].invoices[k];
            var a := w.accounts[inv.business];
            && inv.doc.dueDate.Some?
            && var s := ComputeStatus(a, OpenDues(w.invoices, inv.business), now).status;
               && (s == Overdue <==> inv.doc.dueDate.value < LocalDate(now, a.offset))
               && (s == PaymentDue <==> inv.doc.dueDate.value >= LocalDate(now, a.offset))
  {
    RunKeepsInv(worlds, events, i);
    var w, inv := worlds[i], worlds[i].invoices[k];
    var a := w.accounts[inv.business];
    assert InvoiceOk(inv, |w.accounts|, w.next, w.clock);
    DisplayedOverdueIff(a, w.invoices, inv.business, now);
    OpenDuesHas(w.invoices, inv.business, k);
    DueIff(a, OpenDues(w.invoices, inv.business), now);
    assert OpenFor(inv, inv.business);
    assert LocallyPast(inv, inv.business, now, a.offset) <==> inv.doc.dueDate.value < LocalDate(now, a.offset);
  }

  // ---- a run that separates the two ----

  datatype Scene = Scene(offset: int, line: LineIn, supplier: Supplier, customer: Customer, settings: Settings)

  /** Register a paying business, draft and issue one invoice at time 0, sweep a day after it fell due. */
  function ZoneEvents(z: Scene): seq<Event> {
    [Event(Register(z.offset, false), 0),
     Event(Step.Draft(0, [z.line], z.supplier), 0),
     Event(OnInvoice(0, Issue(z.supplier, z.customer)), 0),
     Event(ExpirySweep, (z.supplier.paymentTermsDays + 1) * DAY)]
  }

  function AfterRegister(z: Scene): World {
    World([Registered(0, z.offset, 0, false, z.settings)], [], [], 1, 0, [], z.settings)
  }

  function AfterDraft(z: Scene): World {
    AfterRegister(z).(invoices := [Drafted(0, [z.line], z.supplier)])
  }

  function AfterIssue(z: Scene): World {
    AfterRegister(z).(invoices := [Issued(Drafted(0, [z.line], z.supplier), z.supplier, z.customer, 0, 1)], next := 2)
  }

  function AfterSweep(z: Scene): World {
    AfterIssue(z).(
      clock := (z.supplier.paymentTermsDays + 1) * DAY,
      invoices := [Issued(Drafted(0, [z.line], z.supplier), z.supplier, z.customer, 0, 1).(status := OVERDUE)])
  }

  function ZoneWorlds(z: Scene): seq<World> {
    [World([], [], [], 1, 0, [], z.settings), AfterRegister(z), AfterDraft(z),
     AfterIssue(z), AfterSweep(z)]
  }

  lemma DueDateOf(inv: Invoice, s: Supplier, customer: Customer)
    ensures Issued(inv, s, customer, 0, 1).doc.dueDate == Some(s.paymentTermsDays)
    ensures Issued(inv, s, customer, 0, 1).status == AWAITING_PAYMENT
    ensures UtcDate((s.paymentTermsDays + 1) * DAY) == s.paymentTermsDays + 1
  {
  }

  lemma SweepStep(z: Scene)
    ensures Follows(AfterIssue(z), Event(ExpirySweep, (z.supplier.paymentTermsDays + 1) * DAY),
                    AfterSweep(z))
  {
    var w, now := AfterIssue(z), (z.supplier.paymentTermsDays + 1) * DAY;
    DueDateOf(Drafted(0, [z.line], z.supplier), z.supplier, z.customer);
    assert AllTrialSwept(w.accounts, now, z.settings.expiryGraceDays) == w.accounts;
    assert AllSwept(w.invoices, UtcDate(now)) == [w.invoices[0].(status := OVERDUE)];
  }

  lemma IssueStep(z: Scene)
    requires MissingConfig(z.supplier) == []
    ensures Follows(AfterDraft(z), Event(OnInvoice(0, Issue(z.supplier, z.customer)), 0),
                    AfterIssue(z))
  {
    var w := AfterDraft(z);
    assert Issues(w.invoices[0], Issue(z.supplier, z.customer));
    assert w.invoices[0 := Issued(w.invoices[0], z.supplier, z.customer, 0, 1)] == AfterIssue(z).invoices;
  }

  lemma ZoneRun(z: Scene)
    requires MissingConfig(z.supplier) == []
    ensures IsRun(ZoneWorlds(z), ZoneEvents(z))
  {
    var worlds, events := ZoneWorlds(z), ZoneEvents(z);
    assert Follows(worlds[0], events[0], worlds[1]);
    assert Follows(worlds[1], events[1], worlds[2]);
    IssueStep(z);
    SweepStep(z);
  }

  /**
   * For every zone west of UTC, every configured supplier and every line, that run stores the invoice as
   * overdue while the display still says payment due.
   */
  lemma SweepAheadWestOfUtc(z: Scene)
    requires z.offset < 0 && MissingConfig(z.supplier) == []
    ensures var worlds := ZoneWorlds(z);
            && IsRun(worlds, ZoneEvents(z))
            && worlds[4].invoices[0].status == OVERDUE && ByDates(worlds[4].accounts[0])
            && worlds[4].accounts[0].offset == z.offset
            && ComputeStatus(worlds[4].accounts[0], OpenDues(worlds[4].invoices, 0), worlds[4].clock).status == PaymentDue
  {
    var worlds, events := ZoneWorlds(z), ZoneEvents(z);
    ZoneRun(z);
    DueDateOf(Drafted(0, [z.line], z.supplier), z.supplier, z.customer);
    assert worlds[4].invoices[0].doc.dueDate == Some(z.supplier.paymentTermsDays);
    assert LocalDate(worlds[4].clock, z.offset) <= z.supplier.paymentTermsDays;
    SweptDisplayedIff(worlds, events, 4, 0, worlds[4].clock);
  }

  /** In this zone, in every run, an invoice stored as overdue makes its account show overdue from then on. */
  ghost predicate SweepAgrees(offset: int) {
    forall worlds: seq<World>, events: seq<Event>, i: nat, k: nat, now: nat :: AgreesAt(worlds, events, i, k, now, offset)
  }

  predicate AgreesAt(worlds: seq<World>, events: seq<Event>, i: nat, k: nat, now: nat, offset: int) {
    IsRun(worlds, events) && StoredOverdue(worlds, i, k, offset) && now >= worlds[i].clock ==>
      ShownOverdue(worlds, i, k, now)
  }

  predicate StoredOverdue(worlds: seq<World>, i: nat, k: nat, offset: int) {
    && i < |worlds| && k < |worlds[i].invoices| && worlds[i].invoices[k].status == OVERDUE
    && worlds[i].invoices[k].business < |worlds[i].accounts|
    && ByDates(worlds[i].accounts[worlds[i].invoices[k].business])
    && worlds[i].accounts[worlds[i].invoices[k].business].offset == offset
  }

  predicate ShownOverdue(worlds: seq<World>, i: nat, k: nat, now: nat)
    requires i < |worlds| && k < |worlds[i].invoices| && worlds[i].invoices[k].business < |worlds[i].accounts|
  {
    var w, b := worlds[i], worlds[i].invoices[k].business;
    ComputeStatus(w.accounts[b], OpenDues(w.invoices, b), now).status == Overdue
  }

  lemma {:induction false} NoneUnset(s: Supplier, fields: seq<Field>)
    requires forall f :: f in fields ==> !Unset(s, f)
    ensures UnsetAmong(s, fields) == []
  {
    if fields != [] {
      NoneUnset(s, fields[1..]);
    }
  }

  lemma SomeSupplier() returns (s: Supplier)
    ensures MissingConfig(s) == []
  {
    s := Supplier(map[LegalName := "x", Address := "x", ContactEmail := "x", BankName := "x", BankAccountName := "x",
                      BankAccountNumber := "x", BankBranchCode := "x"], false, 0, 7);
    NoneUnset(s, REQUIRED_FIELDS);
  }

  /** The stored and the displayed status agree in every run exactly in the zones that are not west of UTC. */
  lemma SweepAgreesIff(offset: int)
    ensures SweepAgrees(offset) <==> offset >= 0
  {
    if offset >= 0 {
      forall worlds: seq<World>, events: seq<Event>, i: nat, k: nat, now: nat
        ensures AgreesAt(worlds, events, i, k, now, offset) {
        if IsRun(worlds, events) && StoredOverdue(worlds, i, k, offset) && now >= worlds[i].clock {
          StoredOverdueIsDisplayed(worlds, events, i, k, now);
        }
      }
    } else {
      var s := SomeSupplier();
      var line, customer := LineIn("OTHER", "fee", 1, 100), Customer("client", None, None, false, None);
      var z := Scene(offset, line, s, customer, Settings(14, 14, 3));
      var worlds, events := ZoneWorlds(z), ZoneEvents(z);
      SweepAheadWestOfUtc(z);
      assert !AgreesAt(worlds, events, 4, 0, worlds[4].clock, offset);
    }
  }
}
