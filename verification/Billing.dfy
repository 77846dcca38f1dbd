/**
 * Billing as one state machine: administrators, provider events and hourly jobs act in any order on
 * the businesses, the invoices and the payment history, under a clock that never goes back.
 */
module Billing {
  import opened Common
  import opened LocalTime
  import opened Numbers
  import opened Account
  import opened Invoices
  import opened Webhooks
  import opened Sweeps

  /** settled lists the invoices in the order in which they were marked paid; settings do not change. */
  datatype World = World(
    accounts: seq<Account>,
    invoices: seq<Invoice>,
    payments: seq<Payment>,
    next: nat,
    clock: nat,
    settled: seq<nat>,
    settings: Settings)

  datatype AccountAct =
    | Updated(status: SubscriptionStatus)
    | Deleted
    | StripePaid(reference: Option<string>, amount: Option<int>)
    | StripeFailed(reference: Option<string>, amount: Option<int>, created: Option<int>)
    | Itn(reference: Option<string>, amount: Option<int>, itn: ItnStatus)
    | StartTrial
    | ExtendTrial(days: int, onboarder: bool)
    | Suspend(why: Reason)
    | Unsuspend
    | CancelSubscription

  datatype InvoiceAct =
    | Edit(body: Option<seq<LineIn>>, supplier: Supplier)
    | Issue(supplier: Supplier, customer: Customer)
    | Send
    | Pay(means: Means, reference: Option<string>, note: Option<string>, actor: string)
    | Cancel(why: string, superAdmin: bool)

  datatype Step =
    | Register(offset: int, trial: bool)
    | OnAccount(b: nat, act: AccountAct)
    | Draft(b: nat, body: seq<LineIn>, supplier: Supplier)
    | OnInvoice(i: nat, iact: InvoiceAct)
    | BurnNumber
    | GraceSweep
    | ExpirySweep

  function ActOn(b: Books, act: AccountAct, now: int, s: Settings): Books {
    match act
    case Updated(status) => b.(account := SubscriptionUpdated(b.account, status))
    case Deleted => b.(account := SubscriptionDeleted(b.account))
    case StripePaid(reference, amount) => PaidEvent(b, STRIPE, reference, amount, now)
    case StripeFailed(reference, amount, created) => FailedEvent(b, STRIPE, reference, amount, created, now)
    case Itn(reference, amount, itn) => ItnEvent(b, reference, amount, itn, now)
    case StartTrial => b.(account := Started(b.account, now, s))
    case ExtendTrial(days, onboarder) =>
      var r := Extended(b.account, days, onboarder, now, s);
      if r.Ok? then b.(account := r.value) else b
    case Suspend(why) => b.(account := b.account.(active := false, reason := Some(why)))
    case Unsuspend => b.(account := b.account.(active := true, reason := None))
    case CancelSubscription => b.(account := b.account.(status := BillingStatus.CANCELLED))
  }

  predicate Issues(inv: Invoice, act: InvoiceAct) {
    act.Issue? && IssueError(inv, act.supplier).None?
  }

  predicate Pays(inv: Invoice, act: InvoiceAct) {
    act.Pay? && PaymentError(inv, act.means, act.reference).None?
  }

  /** A refused action leaves the invoice as it was. */
  function InvoiceAfter(inv: Invoice, act: InvoiceAct, now: nat, serial: nat): Invoice {
    match act
    case Edit(body, supplier) => Settle(inv, Edited(inv, body, supplier))
    case Issue(supplier, customer) => if Issues(inv, act) then Issued(inv, supplier, customer, now, serial) else inv
    case Send => Settle(inv, MarkedSent(inv, now))
    case Pay(means, reference, note, actor) =>
      if Pays(inv, act) then MarkedPaid(inv, Settlement(now, means, reference, note, actor)) else inv
    case Cancel(why, superAdmin) => Settle(inv, Invoices.Cancelled(inv, why, superAdmin, now))
  }

  function Settle(inv: Invoice, r: Result<Invoice, InvoiceError>): Invoice {
    if r.Ok? then r.value else inv
  }

  function BooksAt(w: World, b: nat): Books
    requires b < |w.accounts|
  {
    Books(w.accounts[b], w.payments)
  }

  function AllGraceSwept(accounts: seq<Account>, now: int): (swept: seq<Account>)
    ensures |swept| == |accounts| && forall i :: 0 <= i < |accounts| ==> swept[i] == GraceSwept(accounts[i], now)
  {
    seq(|accounts|, i requires 0 <= i < |accounts| => GraceSwept(accounts[i], now))
  }

  function AllTrialSwept(accounts: seq<Account>, now: int, grace: nat): (swept: seq<Account>)
    ensures |swept| == |accounts| && forall i :: 0 <= i < |accounts| ==> swept[i] == TrialSwept(accounts[i], now, grace)
  {
    seq(|accounts|, i requires 0 <= i < |accounts| => TrialSwept(accounts[i], now, grace))
  }

  function AllSwept(invoices: seq<Invoice>, today: int): (swept: seq<Invoice>)
    ensures |swept| == |invoices| && forall i :: 0 <= i < |invoices| ==> swept[i] == Swept(invoices[i], today)
  {
    seq(|invoices|, i requires 0 <= i < |invoices| => Swept(invoices[i], today))
  }

  predicate Enabled(w: World, step: Step, now: nat) {
    && now >= w.clock
    && (step.OnAccount? ==> step.b < |w.accounts|)
    && (step.Draft? ==> step.b < |w.accounts|)
    && (step.OnInvoice? ==> step.i < |w.invoices| && w.invoices[step.i].business < |w.accounts|)
  }

  /** What a step does to invoice i, and for a payment to its business and the history. */
  function InvoiceStep(w: World, i: nat, act: InvoiceAct, now: nat): World
    requires i < |w.invoices| && w.invoices[i].business < |w.accounts|
  {
    var inv := w.invoices[i];
    var inv' := InvoiceAfter(inv, act, now, w.next);
    var w' := w.(clock := now, invoices := w.invoices[i := inv'], next := if Issues(inv, act) then w.next + 1 else w.next);
    if Pays(inv, act) then
      w'.(accounts := w.accounts[inv.business := Converted(Paid(w.accounts[inv.business], now), now)],
          payments := w.payments + [PaidRow(inv')],
          settled := w.settled + [i])
    else w'
  }

  function Next(w: World, step: Step, now: nat): World
    requires Enabled(w, step, now)
  {
    match step
    case Register(offset, trial) =>
      w.(clock := now, accounts := w.accounts + [Registered(|w.accounts|, offset, now, trial, w.settings)])
    case OnAccount(b, act) =>
      var books := ActOn(BooksAt(w, b), act, now, w.settings);
      w.(clock := now, accounts := w.accounts[b := books.account], payments := books.rows)
    case Draft(b, body, supplier) => w.(clock := now, invoices := w.invoices + [Drafted(b, body, supplier)])
    case OnInvoice(i, act) => InvoiceStep(w, i, act, now)
    case BurnNumber => w.(clock := now, next := w.next + 1)
    case GraceSweep => w.(clock := now, accounts := AllGraceSwept(w.accounts, now))
    case ExpirySweep =>
      w.(clock := now, accounts := AllTrialSwept(w.accounts, now, w.settings.expiryGraceDays),
         invoices := AllSwept(w.invoices, UtcDate(now)))
  }

  // ---- the invariant ----

  ghost predicate AccountOk(a: Account, id: nat, clock: int, s: Settings) {
    && a.id == id
    && a.periodStart <= clock
    && (a.active <==> a.reason.None?)
    && CalendarOk(a, s)
  }

  predicate PaymentOk(p: Payment, accounts: seq<Account>) {
    p.business < |accounts| && (p.paid ==> p.at <= accounts[p.business].periodStart)
  }

  /** No provider reference has two history rows. */
  ghost predicate ReferencesUnique(rows: seq<Payment>) {
    forall provider, reference :: (provider == STRIPE || provider == PAYFAST) && reference != [] ==>
      Occurrences(rows, provider, reference) <= 1
  }

  ghost predicate NumberBelow(number: string, next: nat) {
    exists year: nat, serial: nat :: serial < next && number == InvoiceNumber(year, serial)
  }

  ghost predicate InvoiceOk(inv: Invoice, businesses: nat, next: nat, clock: int) {
    && inv.business < businesses
    && TotalsOk(inv.doc)
    && (Unpaid(inv.status) || inv.status == PAID ==> inv.doc.number.Some? && inv.doc.dueDate.Some?)
    && (inv.status == DRAFT ==> inv.doc.number.None?)
    && (inv.doc.number.Some? ==> NumberBelow(inv.doc.number.value, next))
    && (inv.status == PAID ==> inv.settlement.Some? && !inv.settlement.value.means.Unsupported?)
    && (inv.status == OVERDUE ==> inv.doc.dueDate.Some? && PastDue(inv.doc.dueDate.value, clock, 0))
  }

  predicate SameNumber(inv: Invoice, other: Invoice) {
    inv.doc.number.Some? && inv.doc.number == other.doc.number
  }

  predicate NumbersDistinct(invoices: seq<Invoice>) {
    forall i, j :: 0 <= i < |invoices| && 0 <= j < |invoices| && i != j ==> !SameNumber(invoices[i], invoices[j])
  }

  predicate ByHand(p: Payment) {
    p.provider == EFT || p.provider == CASH
  }

  function ManualRows(rows: seq<Payment>): seq<Payment> {
    if rows == [] then []
    else ManualRows(rows[..|rows| - 1]) + (if ByHand(rows[|rows| - 1]) then [rows[|rows| - 1]] else [])
  }

  /** Row k of the hand-recorded payments is read off invoice settled[k]. */
  predicate RowsMatch(manual: seq<Payment>, invoices: seq<Invoice>, settled: seq<nat>) {
    && |manual| == |settled|
    && forall k :: 0 <= k < |settled| ==>
         settled[k] < |invoices| && PaidInvoice(invoices[settled[k]]) && manual[k] == PaidRow(invoices[settled[k]])
  }

  predicate PaidInvoice(inv: Invoice) {
    inv.status == PAID && inv.settlement.Some?
  }

  predicate EachOnce(ids: seq<nat>) {
    forall j, k :: 0 <= j < k < |ids| ==> ids[j] != ids[k]
  }

  ghost predicate Settled(w: World) {
    && RowsMatch(ManualRows(w.payments), w.invoices, w.settled)
    && EachOnce(w.settled)
    && forall i: nat :: i < |w.invoices| && w.invoices[i].status == PAID ==> i in w.settled
  }

  ghost predicate AccountsOk(w: World) {
    forall b :: 0 <= b < |w.accounts| ==> AccountOk(w.accounts[b], b, w.clock, w.settings)
  }

  ghost predicate PaymentsOk(w: World) {
    forall k :: 0 <= k < |w.payments| ==> PaymentOk(w.payments[k], w.accounts)
  }

  ghost predicate InvoicesOk(w: World) {
    forall i :: 0 <= i < |w.invoices| ==> InvoiceOk(w.invoices[i], |w.accounts|, w.next, w.clock)
  }

  ghost predicate Inv(w: World) {
    AccountsOk(w) && PaymentsOk(w) && ReferencesUnique(w.payments) && InvoicesOk(w)
    && NumbersDistinct(w.invoices) && Settled(w)
  }

  // ---- one account's act ----

  /** The rows an act adds: at most one, new, of a payment provider, stamped now. */
  predicate RowAdded(b: Books, after: Books, now: int) {
    || after.rows == b.rows
    || (|after.rows| == |b.rows| + 1 && after.rows == b.rows + [after.rows[|b.rows|]]
        && NewRow(b, after.rows[|b.rows|], after.account, now))
  }

  predicate NewRow(b: Books, p: Payment, after: Account, now: int) {
    && p.business == b.account.id
    && (p.provider == STRIPE || p.provider == PAYFAST)
    && Fresh(b.rows, p.provider, p.reference)
    && (p.paid ==> p.at == now && after.periodStart == now)
  }

  lemma EventRowAdded(b: Books, after: Account, provider: Provider, reference: Option<string>, amount: Option<int>,
                      paid: bool, now: int)
    requires provider == STRIPE || provider == PAYFAST
    requires Fresh(b.rows, provider, reference) && (paid ==> after.periodStart == now)
    ensures RowAdded(b, Books(after, b.rows + EventRows(b.account.id, Some(provider), reference, amount, paid, now)), now)
  {
  }

  lemma ActAddsRow(b: Books, act: AccountAct, now: int, s: Settings)
    ensures RowAdded(b, ActOn(b, act, now, s), now)
  {
    match act
    case StripePaid(reference, amount) =>
      if Fresh(b.rows, STRIPE, reference) {
        EventRowAdded(b, Paid(b.account, now), STRIPE, reference, amount, true, now);
      }
    case StripeFailed(reference, amount, created) =>
      if Fresh(b.rows, STRIPE, reference) && !Stale(b.account, created) {
        EventRowAdded(b, Failed(b.account, created), STRIPE, reference, amount, false, now);
      }
    case Itn(reference, amount, itn) =>
      if Fresh(b.rows, PAYFAST, reference) {
        if itn == Complete {
          EventRowAdded(b, Paid(b.account, now), PAYFAST, reference, amount, true, now);
        } else if itn == NotPaid {
          EventRowAdded(b, Failed(b.account, None), PAYFAST, reference, amount, false, now);
        }
      }
    case _ =>
  }

  lemma ActKeepsAccount(b: Books, act: AccountAct, id: nat, clock: int, now: int, s: Settings)
    requires AccountOk(b.account, id, clock, s) && clock <= now
    ensures var a := ActOn(b, act, now, s).account;
            AccountOk(a, id, now, s) && a.periodStart >= b.account.periodStart && a.offset == b.account.offset
  {
    match act
    case StartTrial => CalendarKept(b.account, 1, false, now, s);
    case ExtendTrial(days, onboarder) => CalendarKept(b.account, days, onboarder, now, s);
    case _ =>
  }

  // ---- accounts and payments ----

  lemma AccountsKept(w: World, step: Step, now: nat)
    requires Inv(w) && Enabled(w, step, now)
    ensures AccountsOk(Next(w, step, now))
    ensures forall b :: 0 <= b < |w.accounts| ==> LaterAccount(w.accounts[b], Next(w, step, now).accounts, b)
  {
    var w' := Next(w, step, now);
    forall b | 0 <= b < |w'.accounts| ensures AccountOk(w'.accounts[b], b, now, w.settings) {
      AccountKept(w, step, now, b);
    }
    forall b | 0 <= b < |w.accounts| ensures LaterAccount(w.accounts[b], w'.accounts, b) {
      AccountKept(w, step, now, b);
    }
  }

  predicate LaterAccount(a: Account, accounts: seq<Account>, b: nat) {
    b < |accounts| && accounts[b].periodStart >= a.periodStart && accounts[b].offset == a.offset
  }

  lemma AccountKept(w: World, step: Step, now: nat, b: nat)
    requires Inv(w) && Enabled(w, step, now) && b < |Next(w, step, now).accounts|
    ensures AccountOk(Next(w, step, now).accounts[b], b, now, w.settings)
    ensures b < |w.accounts| ==> LaterAccount(w.accounts[b], Next(w, step, now).accounts, b)
  {
    if b < |w.accounts| {
      assert AccountOk(w.accounts[b], b, w.clock, w.settings);
      if step.OnAccount? && step.b == b {
        ActKeepsAccount(BooksAt(w, b), step.act, b, w.clock, now, w.settings);
      } else if step.OnInvoice? && w.invoices[step.i].business == b && Pays(w.invoices[step.i], step.iact) {
        assert Next(w, step, now).accounts[b] == Converted(Paid(w.accounts[b], now), now);
      } else {
        UntouchedKept(w, step, now, b);
      }
    } else {
      assert step.Register? && b == |w.accounts|;
    }
  }

  /** The account is swept, or left alone. */
  lemma UntouchedKept(w: World, step: Step, now: nat, b: nat)
    requires Enabled(w, step, now) && b < |w.accounts| && AccountOk(w.accounts[b], b, w.clock, w.settings)
    requires !(step.OnAccount? && step.b == b)
    requires !(step.OnInvoice? && w.invoices[step.i].business == b && Pays(w.invoices[step.i], step.iact))
    ensures b < |Next(w, step, now).accounts| && AccountOk(Next(w, step, now).accounts[b], b, now, w.settings)
    ensures LaterAccount(w.accounts[b], Next(w, step, now).accounts, b)
  {
  }

  lemma PaymentsKept(w: World, step: Step, now: nat)
    requires Inv(w) && Enabled(w, step, now)
    ensures PaymentsOk(Next(w, step, now))
  {
    var w' := Next(w, step, now);
    AccountsKept(w, step, now);
    PaymentAdded(w, step, now);
    forall k | 0 <= k < |w'.payments| ensures PaymentOk(w'.payments[k], w'.accounts) {
      if k < |w.payments| {
        assert PaymentOk(w.payments[k], w.accounts);
        assert w'.payments[k] == w.payments[k];
      }
    }
  }

  /** A step adds at most one history row, at the end, and what the row says fits the new accounts. */
  lemma PaymentAdded(w: World, step: Step, now: nat)
    requires Inv(w) && Enabled(w, step, now)
    ensures var w' := Next(w, step, now);
            w'.payments == w.payments
            || (|w'.payments| == |w.payments| + 1 && w'.payments == w.payments + [w'.payments[|w.payments|]]
                && PaymentOk(w'.payments[|w.payments|], w'.accounts))
  {
    if step.OnAccount? {
      assert AccountOk(w.accounts[step.b], step.b, w.clock, w.settings);
      ActAddsRow(BooksAt(w, step.b), step.act, now, w.settings);
    } else if step.OnInvoice? && Pays(w.invoices[step.i], step.iact) {
      var inv := w.invoices[step.i];
      assert Next(w, step, now).accounts[inv.business].periodStart == now;
    }
  }

  /** The administrators' own acts: access and reason by hand, and the cancelled subscription, which leaves access alone. */
  lemma ManualActs(b: Books, why: Reason, now: int, s: Settings)
    ensures ActOn(b, Suspend(why), now, s) == b.(account := b.account.(active := false, reason := Some(why)))
    ensures ActOn(b, Unsuspend, now, s) == b.(account := b.account.(active := true, reason := None))
    ensures ActOn(b, CancelSubscription, now, s) == b.(account := b.account.(status := BillingStatus.CANCELLED))
  {
  }
}
