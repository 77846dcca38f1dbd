/** A business's billing fields, the payment history, and the payment and trial transitions between them. */
module Account {
  import opened Common
  import opened LocalTime

  const GRACE_PERIOD_DAYS := 7

  /** Configured lengths, in days: a trial, an onboarder's extensions in all, and an expired trial's grace. */
  datatype Settings = Settings(trialDays: int, onboarderCap: int, expiryGraceDays: nat)

  datatype BillingStatus = TRIAL | ACTIVE | PAST_DUE | SUSPENDED | CANCELLED

  datatype Reason =
    | NonPayment
    | TrialExpired
    | SubscriptionUnpaid
    | SubscriptionCancelled
    | Other(text: string)

  datatype Provider = STRIPE | PAYFAST | EFT | CASH | UNKNOWN

  /** One line of a business's payment history. */
  datatype Payment = Payment(
    business: nat,
    provider: Provider,
    reference: Option<string>,
    amountCents: int,
    paid: bool,
    at: int)

  datatype Account = Account(
    id: nat,
    offset: int,
    status: BillingStatus,
    active: bool,
    reason: Option<Reason>,
    periodStart: int,
    trialStartedAt: Option<int>,
    trialEndsAt: Option<int>,
    extensionDays: int,
    convertedAt: Option<int>)

  datatype TrialError = InvalidExtension | ExtensionCapExceeded

  // ---- transitions on values ----

  predicate Given(reference: Option<string>) {
    reference.Some? && reference.value != []
  }

  function Paid(a: Account, now: int): Account {
    a.(status := ACTIVE, active := true, reason := None, periodStart := now)
  }

  predicate Stale(a: Account, eventTime: Option<int>) {
    eventTime.Some? && eventTime.value < a.periodStart
  }

  function Failed(a: Account, eventTime: Option<int>): Account {
    if Stale(a, eventTime) then a else a.(status := PAST_DUE)
  }

  /** The history rows one payment event adds: none when the event carries no amount. */
  function EventRows(id: nat, provider: Option<Provider>, reference: Option<string>, amount: Option<int>,
                     paid: bool, now: int): seq<Payment> {
    if amount.None? then []
    else [Payment(id, if provider.Some? then provider.value else UNKNOWN, reference, amount.value, paid, now)]
  }

  predicate PastGrace(a: Account, now: int) {
    a.status == PAST_DUE && now > a.periodStart + GRACE_PERIOD_DAYS * DAY
  }

  function Nonpaying(a: Account): Account {
    a.(status := SUSPENDED, active := false, reason := Some(NonPayment))
  }

  function TrialEnd(from: int, days: int, offset: int): int {
    EndOfLocalDay(LocalDate(from, offset) + days, offset)
  }

  function Unsuspended(a: Account): Account {
    if !a.active && a.reason == Some(TrialExpired) then a.(active := true, reason := None) else a
  }

  function Started(a: Account, now: int, s: Settings): Account {
    Unsuspended(a.(status := TRIAL, trialStartedAt := Some(now), extensionDays := 0,
                   trialEndsAt := Some(TrialEnd(now, s.trialDays, a.offset))))
  }

  function Extended(a: Account, days: int, onboarder: bool, now: int, s: Settings): Result<Account, TrialError> {
    if days <= 0 then Err(InvalidExtension)
    else if onboarder && a.extensionDays + days > s.onboarderCap then Err(ExtensionCapExceeded)
    else
      var from := if a.trialEndsAt.Some? then a.trialEndsAt.value else now;
      Ok(Unsuspended(a.(status := TRIAL, trialEndsAt := Some(TrialEnd(from, days, a.offset)),
                        extensionDays := a.extensionDays + days)))
  }

  // ---- the code ----

  class Ledger {
    var rows: seq<Payment>

    constructor ()
      ensures rows == []
    {
      rows := [];
    }

    method Add(row: Payment)
      modifies this
      ensures rows == old(rows) + [row]
    {
      rows := rows + [row];
    }
  }

  class Business {
    const id: nat
    const offset: int
    var status: BillingStatus
    var active: bool
    var reason: Option<Reason>
    var periodStart: int
    var trialStartedAt: Option<int>
    var trialEndsAt: Option<int>
    var extensionDays: int
    var convertedAt: Option<int>

    function View(): Account
      reads this
    {
      Account(id, offset, status, active, reason, periodStart, trialStartedAt, trialEndsAt, extensionDays,
              convertedAt)
    }

    /** The column defaults, with a trial or, for a client paying from day one, without. */
    constructor (id: nat, offset: int, now: int, trial: bool, s: Settings)
      ensures View() == Registered(id, offset, now, trial, s)
      ensures this.id == id && this.offset == offset && status == (if trial then TRIAL else ACTIVE)
      ensures active && reason == None && periodStart == now && extensionDays == 0 && convertedAt == None
      ensures trialStartedAt == (if trial then Some(now) else None)
      ensures trialEndsAt == (if trial then Some(LastInstant(LocalDate(now, offset) + s.trialDays, offset)) else None)
    {
      this.id, this.offset := id, offset;
      status, active, reason := if trial then TRIAL else ACTIVE, true, None;
      periodStart, extensionDays, convertedAt := now, 0, None;
      trialStartedAt := if trial then Some(now) else None;
      trialEndsAt := if trial then Some(TrialEnd(now, s.trialDays, offset)) else None;
    }

    method MarkInvoicePaid(db: Ledger?, amount: Option<int>, provider: Option<Provider>,
                           reference: Option<string>, now: int)
      modifies this, db
      ensures View() == Paid(old(View()), now)
      ensures db != null ==> db.rows == old(db.rows) + EventRows(id, provider, reference, amount, true, now)
      ensures status == ACTIVE && active && reason == None && periodStart == now && SameTrial(old(View()), View())
      ensures db != null ==>
                db.rows == if amount.None? then old(db.rows)
                           else old(db.rows) + [Payment(id, ProviderOr(provider), reference, amount.value, true, now)]
    {
      status := ACTIVE;
      active := true;
      reason := None;
      periodStart := now;
      if db != null && amount.Some? {
        db.Add(Payment(id, if provider.Some? then provider.value else UNKNOWN, reference, amount.value, true, now));
      }
    }

    method MarkPaymentFailed(db: Ledger?, amount: Option<int>, provider: Option<Provider>,
                             reference: Option<string>, eventTime: Option<int>, now: int)
      modifies this, db
      ensures View() == Failed(old(View()), eventTime)
      ensures db != null ==>
                db.rows == old(db.rows) +
                  (if Stale(old(View()), eventTime) then [] else EventRows(id, provider, reference, amount, false, now))
      ensures View() == if eventTime.Some? && eventTime.value < old(periodStart) then old(View())
                        else old(View()).(status := PAST_DUE)
      ensures db != null ==>
                db.rows == if amount.None? || (eventTime.Some? && eventTime.value < old(periodStart)) then old(db.rows)
                           else old(db.rows) + [Payment(id, ProviderOr(provider), reference, amount.value, false, now)]
    {
      if eventTime.Some? && eventTime.value < periodStart {
        return;
      }
      status := PAST_DUE;
      if db != null && amount.Some? {
        db.Add(Payment(id, if provider.Some? then provider.value else UNKNOWN, reference, amount.value, false, now));
      }
    }

    method IsPastGracePeriod(now: int) returns (past: bool)
      ensures past == PastGrace(View(), now)
      ensures past <==> status == PAST_DUE && now > periodStart + 7 * DAY
    {
      if status != PAST_DUE {
        return false;
      }
      var deadline := periodStart + GRACE_PERIOD_DAYS * DAY;
      past := now > deadline;
    }

    method SuspendForNonpayment()
      modifies this
      ensures View() == Nonpaying(old(View()))
      ensures View() == old(View()).(status := SUSPENDED, active := false, reason := Some(NonPayment))
    {
      status := SUSPENDED;
      active := false;
      reason := Some(NonPayment);
    }

    method UnsuspendIfTrialExpired()
      modifies this
      ensures View() == Unsuspended(old(View()))
      ensures View() == if !old(active) && old(reason) == Some(TrialExpired)
                        then old(View()).(active := true, reason := None) else old(View())
    {
      if !active && reason == Some(TrialExpired) {
        active := true;
        reason := None;
      }
    }

    method StartTrial(now: int, s: Settings)
      modifies this
      ensures View() == Started(old(View()), now, s)
      ensures status == TRIAL && trialStartedAt == Some(now) && extensionDays == 0
      ensures trialEndsAt == Some(LastInstant(LocalDate(now, offset) + s.trialDays, offset))
      ensures Reactivated(old(View()), View()) && periodStart == old(periodStart) && convertedAt == old(convertedAt)
    {
      status := TRIAL;
      trialStartedAt := Some(now);
      extensionDays := 0;
      trialEndsAt := Some(TrialEnd(now, s.trialDays, offset));
      UnsuspendIfTrialExpired();
    }

    /** A refused extension changes nothing. */
    method ExtendTrial(days: int, onboarder: bool, now: int, s: Settings) returns (refused: Option<TrialError>)
      modifies this
      ensures match Extended(old(View()), days, onboarder, now, s)
              case Ok(a) => refused == None && View() == a
              case Err(e) => refused == Some(e) && View() == old(View())
      ensures refused == if days <= 0 then Some(InvalidExtension)
                         else if onboarder && old(extensionDays) + days > s.onboarderCap then Some(ExtensionCapExceeded)
                         else None
      ensures refused == None ==>
                && status == TRIAL && extensionDays == old(extensionDays) + days && trialEndsAt.Some?
                && trialEndsAt.value == LastInstant(
                     LocalDate(if old(trialEndsAt).Some? then old(trialEndsAt).value else now, offset) + days, offset)
                && Reactivated(old(View()), View()) && trialStartedAt == old(trialStartedAt)
                && periodStart == old(periodStart) && convertedAt == old(convertedAt)
    {
      if days <= 0 {
        return Some(InvalidExtension);
      }
      if onboarder && extensionDays + days > s.onboarderCap {
        return Some(ExtensionCapExceeded);
      }
      var from := if trialEndsAt.Some? then trialEndsAt.value else now;
      var newEndDate := LocalDate(from, offset) + days;
      status := TRIAL;
      trialEndsAt := Some(EndOfLocalDay(newEndDate, offset));
      extensionDays := extensionDays + days;
      UnsuspendIfTrialExpired();
      refused := None;
    }
  }

  function ProviderOr(provider: Option<Provider>): Provider {
    if provider.Some? then provider.value else UNKNOWN
  }

  /** The last microsecond of a local date. */
  function LastInstant(date: int, offset: int): int {
    date * DAY + (DAY - 1) - offset
  }

  predicate SameTrial(a: Account, b: Account) {
    && (a.id, a.offset, a.convertedAt) == (b.id, b.offset, b.convertedAt)
    && (a.trialStartedAt, a.trialEndsAt, a.extensionDays) == (b.trialStartedAt, b.trialEndsAt, b.extensionDays)
  }

  /** Access came back exactly if the trial's own expiry had taken it. */
  predicate Reactivated(a: Account, b: Account) {
    if !a.active && a.reason == Some(TrialExpired) then b.active && b.reason == None
    else b.active == a.active && b.reason == a.reason
  }

  function Registered(id: nat, offset: int, now: int, trial: bool, s: Settings): Account {
    Account(id, offset, if trial then TRIAL else ACTIVE, true, None, now,
            if trial then Some(now) else None,
            if trial then Some(TrialEnd(now, s.trialDays, offset)) else None, 0, None)
  }

  // ---- the trial calendar ----

  lemma TrialEndDate(from: int, days: int, offset: int)
    ensures LocalDate(TrialEnd(from, days, offset), offset) == LocalDate(from, offset) + days
  {
  }

  /** A started trial ends with the local day that is the default length plus all extensions after its start. */
  ghost predicate CalendarOk(a: Account, s: Settings) {
    a.trialStartedAt.Some? ==>
      a.trialEndsAt == Some(TrialEnd(a.trialStartedAt.value, s.trialDays + a.extensionDays, a.offset))
  }

  lemma CalendarKept(a: Account, days: int, onboarder: bool, now: int, s: Settings)
    requires CalendarOk(a, s)
    ensures CalendarOk(Started(a, now, s), s)
    ensures Extended(a, days, onboarder, now, s).Ok? ==> CalendarOk(Extended(a, days, onboarder, now, s).value, s)
  {
  }

  /** Extending twice is extending once by the sum, also under the onboarder's cap and whenever the second call comes. */
  lemma ExtendTwice(a: Account, x: int, y: int, onboarder: bool, now: int, later: int, s: Settings)
    requires x > 0 && y > 0
    ensures Extended(a, x + y, onboarder, now, s) ==
            (match Extended(a, x, onboarder, now, s)
             case Ok(b) => Extended(b, y, onboarder, later, s)
             case Err(e) => Err(e))
  {
  }

  /** A trial operation reactivates exactly the accounts that its own expiry sweep suspended. */
  lemma TrialLiftsOnlyItsOwn(a: Account, days: int, onboarder: bool, now: int, s: Settings)
    requires !a.active
    ensures Started(a, now, s).active <==> a.reason == Some(TrialExpired)
    ensures var r := Extended(a, days, onboarder, now, s);
            r.Ok? ==> (r.value.active <==> a.reason == Some(TrialExpired))
                      && (!r.value.active ==> r.value.reason == a.reason)
  {
  }
}
