/** What holds over every run of the billing machine. */
module BillingLaws {
  import opened Common
  import opened LocalTime
  import opened Pricing
  import opened Account
  import opened AccountStatus
  import opened Invoices
  import opened Webhooks
  import opened Sweeps
  import opened Billing
  import opened BillingInvariant

  datatype Event = Event(step: Step, now: nat)

  predicate Start(w: World) {
    w.accounts == [] && w.invoices == [] && w.payments == [] && w.settled == []
  }

  predicate Follows(w: World, e: Event, w': World) {
    Enabled(w, e.step, e.now) && w' == Next(w, e.step, e.now)
  }

  /** worlds[i + 1] is worlds[i] after events[i]; at the start nothing is stored. */
  predicate IsRun(worlds: seq<World>, events: seq<Event>) {
    && |worlds| == |events| + 1
    && Start(worlds[0])
    && forall i :: 0 <= i < |events| ==> Follows(worlds[i], events[i], worlds[i + 1])
  }

  /** Every interleaving keeps the invariant. */
  lemma {:induction false} RunKeepsInv(worlds: seq<World>, events: seq<Event>, i: nat)
    requires IsRun(worlds, events) && i < |worlds|
    ensures Inv(worlds[i])
  {
    if i > 0 {
      RunKeepsInv(worlds, events, i - 1);
      assert Follows(worlds[i - 1], events[i - 1], worlds[i]);
      StepKeepsInv(worlds[i - 1], events[i - 1].step, events[i - 1].now);
    }
  }

  // ---- invoices ----

  /** Paid and cancelled invoices never change again. */
  lemma {:induction false} FinalForever(worlds: seq<World>, events: seq<Event>, i: nat, j: nat, k: nat)
    requires IsRun(worlds, events) && i <= j < |worlds| && k < |worlds[i].invoices| && Final(worlds[i].invoices[k])
    ensures k < |worlds[j].invoices| && worlds[j].invoices[k] == worlds[i].invoices[k]
  {
    if i < j {
      FinalForever(worlds, events, i, j - 1, k);
      assert Follows(worlds[j - 1], events[j - 1], worlds[j]);
      FinalStaysInStep(worlds[j - 1], events[j - 1].step, events[j - 1].now, k);
    }
  }

  lemma DocumentStaysInStep(w: World, step: Step, now: nat, k: nat)
    requires Enabled(w, step, now) && k < |w.invoices| && w.invoices[k].status != DRAFT
    ensures var w' := Next(w, step, now);
            k < |w'.invoices| && w'.invoices[k].status != DRAFT && w'.invoices[k].doc == w.invoices[k].doc
  {
  }

  /** Once numbered, an invoice keeps its number, lines, amounts, dates and both snapshots for ever. */
  lemma {:induction false} IssuedDocumentForever(worlds: seq<World>, events: seq<Event>, i: nat, j: nat, k: nat)
    requires IsRun(worlds, events) && i <= j < |worlds|
    requires k < |worlds[i].invoices| && worlds[i].invoices[k].doc.number.Some?
    ensures k < |worlds[j].invoices| && worlds[j].invoices[k].status != DRAFT
    ensures worlds[j].invoices[k].doc == worlds[i].invoices[k].doc
  {
    RunKeepsInv(worlds, events, i);
    assert InvoiceOk(worlds[i].invoices[k], |worlds[i].accounts|, worlds[i].next, worlds[i].clock);
    if i < j {
      IssuedDocumentForever(worlds, events, i, j - 1, k);
      assert Follows(worlds[j - 1], events[j - 1], worlds[j]);
      DocumentStaysInStep(worlds[j - 1], events[j - 1].step, events[j - 1].now, k);
    }
  }

  /** Every issued invoice has a number, and no number is ever used for two invoices, even at different times. */
  lemma NumberNamesOneInvoice(worlds: seq<World>, events: seq<Event>, i: nat, j: nat, k: nat, l: nat)
    requires IsRun(worlds, events) && i <= j < |worlds| && k < |worlds[i].invoices| && l < |worlds[j].invoices|
    ensures Unpaid(worlds[i].invoices[k].status) || worlds[i].invoices[k].status == PAID ==>
              worlds[i].invoices[k].doc.number.Some?
    ensures SameNumber(worlds[i].invoices[k], worlds[j].invoices[l]) ==> k == l
  {
    RunKeepsInv(worlds, events, i);
    assert InvoiceOk(worlds[i].invoices[k], |worlds[i].accounts|, worlds[i].next, worlds[i].clock);
    if SameNumber(worlds[i].invoices[k], worlds[j].invoices[l]) {
      IssuedDocumentForever(worlds, events, i, j, k);
      RunKeepsInv(worlds, events, j);
      assert NumbersDistinct(worlds[j].invoices) && SameNumber(worlds[j].invoices[k], worlds[j].invoices[l]);
    }
  }

  /** The VAT and the subtotal of every stored invoice can be recovered from its total. */
  lemma InvoiceVatRecoverable(worlds: seq<World>, events: seq<Event>, i: nat, k: nat)
    requires IsRun(worlds, events) && i < |worlds| && k < |worlds[i].invoices|
    ensures var doc := worlds[i].invoices[k].doc;
            CalculateVat(doc.totalCents, doc.vatRate, true) == doc.vatCents
            && doc.totalCents - doc.vatCents == doc.subtotalCents == LineTotals(doc.lines)
  {
    RunKeepsInv(worlds, events, i);
    assert InvoiceOk(worlds[i].invoices[k], |worlds[i].accounts|, worlds[i].next, worlds[i].clock);
    VatRecoverable(worlds[i].invoices[k].doc);
  }

  // ---- payments against invoices ----

  function Amounts(rows: seq<Payment>): (amounts: seq<int>)
    ensures |amounts| == |rows|
  {
    seq(|rows|, k requires 0 <= k < |rows| => rows[k].amountCents)
  }

  function TotalOf(invoices: seq<Invoice>): nat -> int {
    (i: nat) => if i < |invoices| then invoices[i].doc.totalCents else 0
  }

  function PaidInvoices(invoices: seq<Invoice>): (ids: set<nat>)
    ensures forall i: nat :: i in ids <==> i < |invoices| && invoices[i].status == PAID
  {
    set i: nat | i < |invoices| && invoices[i].status == PAID
  }

  function Elements(ids: seq<nat>): (s: set<nat>)
    ensures forall i :: i in s <==> i in ids
  {
    set i | i in ids
  }

  lemma {:induction false} SumOfDistinct(amounts: seq<int>, ids: seq<nat>, f: nat -> int)
    requires |amounts| == |ids| && EachOnce(ids)
    requires forall k :: 0 <= k < |ids| ==> amounts[k] == f(ids[k])
    ensures Sum(amounts) == SumOver(Elements(ids), f)
  {
    if ids != [] {
      var n := |ids| - 1;
      SumOfDistinct(amounts[..n], ids[..n], f);
      assert ids == ids[..n] + [ids[n]];
      assert ids[n] !in ids[..n];
      assert Elements(ids) - {ids[n]} == Elements(ids[..n]);
      SumOverTake(Elements(ids), f, ids[n]);
    }
  }

  /**
   * The hand-recorded payments match the paid invoices one to one: row k is the row of invoice
   * settled[k], settled lists every paid invoice exactly once, and the two sums agree.
   */
  lemma PaymentsMatchInvoices(worlds: seq<World>, events: seq<Event>, i: nat)
    requires IsRun(worlds, events) && i < |worlds|
    ensures var w := worlds[i];
            && RowsMatch(ManualRows(w.payments), w.invoices, w.settled)
            && EachOnce(w.settled)
            && Elements(w.settled) == PaidInvoices(w.invoices)
            && Sum(Amounts(ManualRows(w.payments))) == SumOver(PaidInvoices(w.invoices), TotalOf(w.invoices))
  {
    RunKeepsInv(worlds, events, i);
    var w := worlds[i];
    forall k: nat ensures k in Elements(w.settled) <==> k in PaidInvoices(w.invoices) {
      if k in w.settled {
        SettledArePaid(w, k);
      }
    }
    assert Elements(w.settled) == PaidInvoices(w.invoices);
    SumOfDistinct(Amounts(ManualRows(w.payments)), w.settled, TotalOf(w.invoices));
  }

  // ---- account flags ----

  /** Suspended accounts are inactive and accounts in good standing are active. */
  predicate Consistent(a: Account) {
    (a.status == SUSPENDED ==> !a.active) && (a.status == ACTIVE ==> a.active)
  }

  /** An administrator switches access against the billing status. */
  predicate Overrides(w: World, step: Step) {
    step.OnAccount? && step.b < |w.accounts| && Override(w.accounts[step.b], step.act)
  }

  predicate Override(a: Account, act: AccountAct) {
    (act.Suspend? && a.status == ACTIVE) || (act.Unsuspend? && a.status == SUSPENDED)
  }

  /** Of all acts only the two manual overrides break the agreement of status and access, and they always do. */
  lemma ConsistentIff(b: Books, act: AccountAct, now: int, s: Settings)
    requires Consistent(b.account)
    ensures Consistent(ActOn(b, act, now, s).account) <==> !Override(b.account, act)
  {
  }

  lemma StepKeepsConsistent(w: World, step: Step, now: nat, b: nat)
    requires Enabled(w, step, now) && !Overrides(w, step) && b < |Next(w, step, now).accounts|
    requires b < |w.accounts| ==> Consistent(w.accounts[b])
    ensures Consistent(Next(w, step, now).accounts[b])
  {
  }

  lemma {:induction false} RunConsistent(worlds: seq<World>, events: seq<Event>, i: nat, b: nat)
    requires IsRun(worlds, events) && i < |worlds| && b < |worlds[i].accounts|
    requires forall k :: 0 <= k < i ==> !Overrides(worlds[k], events[k].step)
    ensures Consistent(worlds[i].accounts[b])
  {
    if i > 0 {
      var w, e := worlds[i - 1], events[i - 1];
      assert Follows(w, e, worlds[i]);
      if b < |w.accounts| {
        RunConsistent(worlds, events, i - 1, b);
      }
      StepKeepsConsistent(w, e.step, e.now, b);
    }
  }

  /** At every moment a business has access exactly when it carries no suspension reason. */
  lemma ActiveIffNoReason(worlds: seq<World>, events: seq<Event>, i: nat, b: nat)
    requires IsRun(worlds, events) && i < |worlds| && b < |worlds[i].accounts|
    ensures worlds[i].accounts[b].active <==> worlds[i].accounts[b].reason == None
  {
    RunKeepsInv(worlds, events, i);
    assert AccountOk(worlds[i].accounts[b], b, worlds[i].clock, worlds[i].settings);
  }

  predicate LiftsAct(b: Books, act: AccountAct, now: int, s: Settings) {
    match act
    case Updated(status) => status == SubActive
    case StripePaid(reference, _) => Fresh(b.rows, STRIPE, reference)
    case Itn(reference, _, itn) => itn == Complete && Fresh(b.rows, PAYFAST, reference)
    case StartTrial => b.account.reason == Some(TrialExpired)
    case ExtendTrial(days, onboarder) =>
      Extended(b.account, days, onboarder, now, s).Ok? && b.account.reason == Some(TrialExpired)
    case Unsuspend => true
    case _ => false
  }

  /**
   * Exactly what gives a suspended business its access back: a new payment, an active subscription, the
   * manual unsuspend, or a trial operation when the suspension is the trial sweep's own.
   */
  lemma LiftedIff(w: World, step: Step, now: nat, b: nat)
    requires Enabled(w, step, now) && b < |w.accounts| && !w.accounts[b].active
    ensures b < |Next(w, step, now).accounts|
    ensures Next(w, step, now).accounts[b].active <==>
            (step.OnAccount? && step.b == b && LiftsAct(BooksAt(w, b), step.act, now, w.settings))
            || (step.OnInvoice? && w.invoices[step.i].business == b && Pays(w.invoices[step.i], step.iact))
  {
  }

  /** The grace sweep suspends nobody with a payment recorded in the last seven days. */
  lemma GraceSparesRecentPayers(worlds: seq<World>, events: seq<Event>, i: nat, b: nat, k: nat, now: nat)
    requires IsRun(worlds, events) && i < |worlds| && b < |worlds[i].accounts| && k < |worlds[i].payments|
    requires worlds[i].payments[k].business == b && worlds[i].payments[k].paid
    requires worlds[i].payments[k].at >= now - GRACE_PERIOD_DAYS * DAY
    ensures GraceSwept(worlds[i].accounts[b], now) == worlds[i].accounts[b]
  {
    RunKeepsInv(worlds, events, i);
    assert PaymentOk(worlds[i].payments[k], worlds[i].accounts);
  }

  /** A started trial always ends on start date + default days + extensions, whatever else happened. */
  lemma TrialCalendar(worlds: seq<World>, events: seq<Event>, i: nat, b: nat)
    requires IsRun(worlds, events) && i < |worlds| && b < |worlds[i].accounts|
    requires worlds[i].accounts[b].trialStartedAt.Some?
    ensures var a := worlds[i].accounts[b];
            a.trialEndsAt.Some?
            && LocalDate(a.trialEndsAt.value, a.offset)
               == LocalDate(a.trialStartedAt.value, a.offset) + worlds[i].settings.trialDays + a.extensionDays
  {
    RunKeepsInv(worlds, events, i);
    var a := worlds[i].accounts[b];
    assert AccountOk(a, b, worlds[i].clock, worlds[i].settings);
    TrialEndDate(a.trialStartedAt.value, worlds[i].settings.trialDays + a.extensionDays, a.offset);
  }

  // ---- replay ----

  /** A provider's paid or failed event with a reference and an amount. */
  predicate PaymentEvent(act: AccountAct) {
    || (act.StripePaid? && Given(act.reference) && act.amount.Some?)
    || (act.StripeFailed? && Given(act.reference) && act.amount.Some?)
    || (act.Itn? && Given(act.reference) && act.amount.Some?)
  }

  /** The event can have no effect any more. */
  predicate Spent(b: Books, act: AccountAct)
    requires PaymentEvent(act)
  {
    match act
    case StripePaid(reference, _) => !Fresh(b.rows, STRIPE, reference)
    case StripeFailed(reference, _, created) => !Fresh(b.rows, STRIPE, reference) || Stale(b.account, created)
    case Itn(reference, _, itn) => itn == Unhandled || !Fresh(b.rows, PAYFAST, reference)
  }

  lemma DeliveredIsSpent(b: Books, act: AccountAct, now: int, s: Settings)
    requires PaymentEvent(act)
    ensures Spent(ActOn(b, act, now, s), act)
  {
    var after := ActOn(b, act, now, s);
    assert after.rows + [] == after.rows;
    match act
    case StripePaid(reference, amount) => PaidOnce(b, STRIPE, reference, amount, now, []);
    case StripeFailed(reference, amount, created) =>
      if !Stale(b.account, created) {
        FailedOnce(b, STRIPE, reference, amount, created, now, []);
      }
    case Itn(reference, amount, itn) =>
      if itn == Complete {
        PaidOnce(b, PAYFAST, reference, amount, now, []);
      } else if itn == NotPaid {
        FailedOnce(b, PAYFAST, reference, amount, None, now, []);
      }
  }

  lemma StillRecorded(rows: seq<Payment>, more: seq<Payment>, provider: Provider, reference: Option<string>)
    requires !Fresh(rows, provider, reference)
    ensures !Fresh(rows + more, provider, reference)
  {
    OccurrencesGrow(rows, more, provider, reference.value);
  }

  lemma SpentGrows(b: Books, later: Books, act: AccountAct, more: seq<Payment>)
    requires PaymentEvent(act) && Spent(b, act)
    requires later.rows == b.rows + more && later.account.periodStart >= b.account.periodStart
    ensures Spent(later, act)
  {
    var provider := if act.Itn? then PAYFAST else STRIPE;
    if !Fresh(b.rows, provider, act.reference) {
      StillRecorded(b.rows, more, provider, act.reference);
    }
  }

  lemma SpentStaysInStep(w: World, step: Step, now: nat, b: nat, act: AccountAct)
    requires Inv(w) && Enabled(w, step, now) && b < |w.accounts| && PaymentEvent(act) && Spent(BooksAt(w, b), act)
    ensures b < |Next(w, step, now).accounts| && Spent(BooksAt(Next(w, step, now), b), act)
  {
    var w' := Next(w, step, now);
    AccountsKept(w, step, now);
    assert LaterAccount(w.accounts[b], w'.accounts, b);
    PaymentAdded(w, step, now);
    var more := w'.payments[|w.payments|..];
    assert w'.payments == w.payments + more;
    SpentGrows(BooksAt(w, b), BooksAt(w', b), act, more);
  }

  lemma {:induction false} SpentForever(worlds: seq<World>, events: seq<Event>, i: nat, j: nat, b: nat, act: AccountAct)
    requires IsRun(worlds, events) && i < j < |worlds| && PaymentEvent(act)
    requires events[i].step == OnAccount(b, act)
    ensures b < |worlds[j].accounts| && Spent(BooksAt(worlds[j], b), act)
  {
    RunKeepsInv(worlds, events, j - 1);
    assert Follows(worlds[j - 1], events[j - 1], worlds[j]);
    if i == j - 1 {
      DeliveredIsSpent(BooksAt(worlds[i], b), act, events[i].now, worlds[i].settings);
    } else {
      SpentForever(worlds, events, i, j - 1, b, act);
      SpentStaysInStep(worlds[j - 1], events[j - 1].step, events[j - 1].now, b, act);
    }
  }

  /** Delivering a payment event again, at any later time, changes nothing, not even after a stale failure. */
  lemma ReplayChangesNothing(worlds: seq<World>, events: seq<Event>, i: nat, j: nat, b: nat, act: AccountAct, now: nat)
    requires IsRun(worlds, events) && i < j < |worlds| && PaymentEvent(act)
    requires events[i].step == OnAccount(b, act)
    requires Enabled(worlds[j], OnAccount(b, act), now)
    ensures Next(worlds[j], OnAccount(b, act), now) == worlds[j].(clock := now)
  {
    SpentForever(worlds, events, i, j, b, act);
    assert ActOn(BooksAt(worlds[j], b), act, now, worlds[j].settings) == BooksAt(worlds[j], b);
  }

  /** A provider's notice of a payment. */
  predicate PaidNotice(act: AccountAct) {
    act.StripePaid? || (act.Itn? && act.itn == Complete)
  }

  function ProviderOf(act: AccountAct): Provider {
    if act.Itn? then PAYFAST else STRIPE
  }

  lemma RedeliveryIff(b: Books, provider: Provider, reference: Option<string>, amount: Option<int>, now: int, later: int)
    requires Fresh(b.rows, provider, reference) && later != now
    ensures var once := PaidEvent(b, provider, reference, amount, now);
            PaidEvent(once, provider, reference, amount, later) == once <==> Given(reference) && amount.Some?
  {
    var once := PaidEvent(b, provider, reference, amount, now);
    if Given(reference) && amount.Some? {
      EventRecorded(b, provider, reference, amount, true, now);
    } else {
      assert amount.None? ==> once.rows == b.rows;
    }
  }

  /** A payment notice that was applied can be delivered again unharmed exactly when it carries a reference and an amount. */
  lemma RedeliveredIff(worlds: seq<World>, events: seq<Event>, i: nat, b: nat, act: AccountAct, now: nat)
    requires IsRun(worlds, events) && i < |events| && events[i].step == OnAccount(b, act) && PaidNotice(act)
    requires b < |worlds[i].accounts| && Fresh(worlds[i].payments, ProviderOf(act), act.reference)
    requires now > events[i].now
    ensures Enabled(worlds[i + 1], OnAccount(b, act), now)
    ensures Next(worlds[i + 1], OnAccount(b, act), now) == worlds[i + 1].(clock := now) <==>
            Given(act.reference) && act.amount.Some?
  {
    assert Follows(worlds[i], events[i], worlds[i + 1]);
    var w, e := worlds[i + 1], events[i];
    var books := BooksAt(worlds[i], b);
    RedeliveryIff(books, ProviderOf(act), act.reference, act.amount, e.now, now);
    assert BooksAt(w, b) == PaidEvent(books, ProviderOf(act), act.reference, act.amount, e.now);
    SameBooksIff(w, b, PaidEvent(BooksAt(w, b), ProviderOf(act), act.reference, act.amount, now), now);
  }

  lemma SameBooksIff(w: World, b: nat, books: Books, now: nat)
    requires b < |w.accounts|
    ensures w.(clock := now, accounts := w.accounts[b := books.account], payments := books.rows) == w.(clock := now)
            <==> books == BooksAt(w, b)
  {
  }

  /** Each provider reference has at most one history row, so the duplicate lookup never raises. */
  lemma ReferenceRecordedOnce(worlds: seq<World>, events: seq<Event>, i: nat, provider: Provider, reference: Option<string>)
    requires IsRun(worlds, events) && i < |worlds| && (provider == STRIPE || provider == PAYFAST)
    ensures Given(reference) ==> Occurrences(worlds[i].payments, provider, reference.value) <= 1
    ensures Recorded(worlds[i].payments, provider, reference).Ok?
  {
    RunKeepsInv(worlds, events, i);
  }

  // ---- derived status ----

  /** Due dates of a business's issued unpaid invoices. */
  function OpenDues(invoices: seq<Invoice>, b: nat): seq<Option<int>> {
    if invoices == [] then []
    else
      var last := invoices[|invoices| - 1];
      OpenDues(invoices[..|invoices| - 1], b)
      + (if last.business == b && Unpaid(last.status) then [last.doc.dueDate] else [])
  }

  predicate SameDue(inv: Invoice, other: Invoice) {
    inv.business == other.business && Unpaid(inv.status) == Unpaid(other.status) && inv.doc.dueDate == other.doc.dueDate
  }

  lemma {:induction false} OpenDuesSame(invoices: seq<Invoice>, others: seq<Invoice>, b: nat)
    requires |invoices| == |others| && forall i :: 0 <= i < |invoices| ==> SameDue(invoices[i], others[i])
    ensures OpenDues(invoices, b) == OpenDues(others, b)
  {
    if invoices != [] {
      OpenDuesSame(invoices[..|invoices| - 1], others[..|others| - 1], b);
      assert SameDue(invoices[|invoices| - 1], others[|invoices| - 1]);
    }
  }

  lemma {:induction false} OpenDuesHas(invoices: seq<Invoice>, b: nat, i: nat)
    requires i < |invoices| && invoices[i].business == b && Unpaid(invoices[i].status)
    ensures invoices[i].doc.dueDate in OpenDues(invoices, b)
  {
    if i < |invoices| - 1 {
      OpenDuesHas(invoices[..|invoices| - 1], b, i);
    }
  }

  /** Storing OVERDUE or marking an invoice sent leaves every displayed status as it was, at every time. */
  lemma SweepKeepsDisplay(w: World, a: Account, b: nat, today: int, now: int)
    ensures ComputeStatus(a, OpenDues(AllSwept(w.invoices, today), b), now) == ComputeStatus(a, OpenDues(w.invoices, b), now)
  {
    OpenDuesSame(AllSwept(w.invoices, today), w.invoices, b);
  }

  lemma SendKeepsDisplay(w: World, a: Account, b: nat, i: nat, sentAt: nat, now: int)
    requires i < |w.invoices|
    ensures var sent := w.invoices[i := InvoiceAfter(w.invoices[i], Send, sentAt, w.next)];
            ComputeStatus(a, OpenDues(sent, b), now) == ComputeStatus(a, OpenDues(w.invoices, b), now)
  {
    OpenDuesSame(w.invoices[i := InvoiceAfter(w.invoices[i], Send, sentAt, w.next)], w.invoices, b);
  }

  /**
   * In zones not west of UTC the sweep and the display agree: an active paying account with an invoice
   * stored as overdue is displayed as overdue.
   */
  lemma StoredOverdueIsDisplayed(worlds: seq<World>, events: seq<Event>, i: nat, k: nat, now: nat)
    requires IsRun(worlds, events) && i < |worlds| && k < |worlds[i].invoices| && now >= worlds[i].clock
    requires worlds[i].invoices[k].status == OVERDUE && worlds[i].invoices[k].business < |worlds[i].accounts|
    requires var a := worlds[i].accounts[worlds[i].invoices[k].business];
             a.active && a.status != TRIAL && a.status != BillingStatus.CANCELLED && a.offset >= 0
    ensures var w := worlds[i];
            var b := w.invoices[k].business;
            ComputeStatus(w.accounts[b], OpenDues(w.invoices, b), now).status == Overdue
  {
    RunKeepsInv(worlds, events, i);
    var w := worlds[i];
    var inv := w.invoices[k];
    assert InvoiceOk(inv, |w.accounts|, w.next, w.clock);
    OpenDuesHas(w.invoices, inv.business, k);
    var a, due := w.accounts[inv.business], inv.doc.dueDate.value;
    PastDueStays(due, w.clock, now, a.offset);
    AnyDueIsOverdue(a, OpenDues(w.invoices, inv.business), due, now);
  }

  lemma PastDueStays(due: int, t: int, u: int, offset: int)
    requires PastDue(due, t, 0) && t <= u && offset >= 0
    ensures PastDue(due, u, offset)
  {
  }

  lemma AnyDueIsOverdue(a: Account, dues: seq<Option<int>>, due: int, now: int)
    requires a.active && a.status != TRIAL && a.status != BillingStatus.CANCELLED
    requires Some(due) in dues && PastDue(due, now, a.offset)
    ensures ComputeStatus(a, dues, now).status == Overdue
  {
  }
}
