/** Payment-provider events: the duplicate guard, the four Stripe handlers and the PayFast notification. */
module Webhooks {
  import opened Common
  import opened Account

  datatype SubscriptionStatus = SubActive | SubPastDue | SubCanceled | SubUnpaid | SubTrialing | SubUnknown

  datatype ItnStatus = Complete | NotPaid | Unhandled

  /** More than one history row carries the reference: the lookup raises. */
  datatype LookupError = MultipleRows

  /** What a payment event may change: one business and the payment history. */
  datatype Books = Books(account: Account, rows: seq<Payment>)

  // ---- on values ----

  predicate Carries(p: Payment, provider: Provider, reference: string) {
    p.provider == provider && p.reference == Some(reference)
  }

  function Occurrences(rows: seq<Payment>, provider: Provider, reference: string): nat {
    if rows == [] then 0
    else Occurrences(rows[..|rows| - 1], provider, reference)
         + (if Carries(rows[|rows| - 1], provider, reference) then 1 else 0)
  }

  function Recorded(rows: seq<Payment>, provider: Provider, reference: Option<string>): Result<bool, LookupError> {
    if !Given(reference) then Ok(false)
    else
      var n := Occurrences(rows, provider, reference.value);
      if n > 1 then Err(MultipleRows) else Ok(n == 1)
  }

  /** The event is new and will be applied. */
  predicate Fresh(rows: seq<Payment>, provider: Provider, reference: Option<string>) {
    Recorded(rows, provider, reference) == Ok(false)
  }

  function PaidEvent(b: Books, provider: Provider, reference: Option<string>, amount: Option<int>, now: int): Books {
    if !Fresh(b.rows, provider, reference) then b
    else Books(Paid(b.account, now),
               b.rows + EventRows(b.account.id, Some(provider), reference, amount, true, now))
  }

  function FailedEvent(b: Books, provider: Provider, reference: Option<string>, amount: Option<int>,
                       eventTime: Option<int>, now: int): Books {
    if !Fresh(b.rows, provider, reference) || Stale(b.account, eventTime) then b
    else Books(Failed(b.account, eventTime),
               b.rows + EventRows(b.account.id, Some(provider), reference, amount, false, now))
  }

  function ItnEvent(b: Books, reference: Option<string>, amount: Option<int>, status: ItnStatus, now: int): Books {
    match status
    case Complete => PaidEvent(b, PAYFAST, reference, amount, now)
    case NotPaid => FailedEvent(b, PAYFAST, reference, amount, None, now)
    case Unhandled => b
  }

  function SubscriptionUpdated(a: Account, s: SubscriptionStatus): Account {
    match s
    case SubActive => a.(status := ACTIVE, active := true, reason := None)
    case SubPastDue => a.(status := PAST_DUE)
    case SubCanceled => a.(status := CANCELLED)
    case SubUnpaid => a.(status := SUSPENDED, active := false, reason := Some(SubscriptionUnpaid))
    case SubTrialing => a.(status := TRIAL)
    case SubUnknown => a
  }

  function SubscriptionDeleted(a: Account): Account {
    a.(status := CANCELLED, active := false, reason := Some(SubscriptionCancelled))
  }

  /** Some history row of the provider carries the reference. */
  predicate Seen(rows: seq<Payment>, provider: Provider, reference: string) {
    exists k :: 0 <= k < |rows| && rows[k].provider == provider && rows[k].reference == Some(reference)
  }

  /** Nothing in the history speaks against applying the event. */
  predicate Unseen(rows: seq<Payment>, provider: Provider, reference: Option<string>) {
    reference.None? || reference.value == [] || !Seen(rows, provider, reference.value)
  }

  lemma {:induction false} OccurrencesPositiveIff(rows: seq<Payment>, provider: Provider, reference: string)
    ensures Occurrences(rows, provider, reference) > 0 <==> Seen(rows, provider, reference)
  {
    if rows != [] {
      var n := |rows| - 1;
      OccurrencesPositiveIff(rows[..n], provider, reference);
      if Seen(rows, provider, reference) && !Carries(rows[n], provider, reference) {
        var k :| 0 <= k < |rows| && rows[k].provider == provider && rows[k].reference == Some(reference);
        assert rows[..n][k] == rows[k];
      }
    }
  }

  /** The duplicate guard lets an event through exactly when no history row carries its nonempty reference. */
  lemma FreshIff(rows: seq<Payment>, provider: Provider, reference: Option<string>)
    ensures Fresh(rows, provider, reference) <==> Unseen(rows, provider, reference)
  {
    if reference.Some? {
      OccurrencesPositiveIff(rows, provider, reference.value);
    }
  }

  /** What a payment does to the books: all of it for an unseen reference, nothing otherwise. */
  predicate PaymentTaken(b: Books, b': Books, provider: Provider, reference: Option<string>, amount: Option<int>, now: int) {
    if !Unseen(b.rows, provider, reference) then b' == b
    else
      && b'.account == b.account.(status := ACTIVE, active := true, reason := None, periodStart := now)
      && b'.rows == if amount.None? then b.rows
                    else b.rows + [Payment(b.account.id, provider, reference, amount.value, true, now)]
  }

  /** A failure does nothing either when it predates the current period. */
  predicate FailureTaken(b: Books, b': Books, provider: Provider, reference: Option<string>, amount: Option<int>,
                         eventTime: Option<int>, now: int) {
    if !Unseen(b.rows, provider, reference) || (eventTime.Some? && eventTime.value < b.account.periodStart) then b' == b
    else
      && b'.account == b.account.(status := PAST_DUE)
      && b'.rows == if amount.None? then b.rows
                    else b.rows + [Payment(b.account.id, provider, reference, amount.value, false, now)]
  }

  // ---- the code ----

  ghost function BooksOf(biz: Business, db: Ledger): Books
    reads biz, db
  {
    Books(biz.View(), db.rows)
  }

  method HandleSubscriptionUpdated(biz: Business?, s: SubscriptionStatus)
    modifies biz
    ensures biz != null ==> biz.View() == SubscriptionUpdated(old(biz.View()), s)
    ensures biz != null ==>
              match s
              case SubActive => biz.View() == old(biz.View()).(status := ACTIVE, active := true, reason := None)
              case SubPastDue => biz.View() == old(biz.View()).(status := PAST_DUE)
              case SubCanceled => biz.View() == old(biz.View()).(status := CANCELLED)
              case SubUnpaid =>
                biz.View() == old(biz.View()).(status := SUSPENDED, active := false, reason := Some(SubscriptionUnpaid))
              case SubTrialing => biz.View() == old(biz.View()).(status := TRIAL)
              case SubUnknown => biz.View() == old(biz.View())
  {
    if biz == null {
      return;
    }
    var newStatus: Option<BillingStatus> :=
      match s
      case SubActive => Some(ACTIVE)
      case SubPastDue => Some(PAST_DUE)
      case SubCanceled => Some(CANCELLED)
      case SubUnpaid => Some(SUSPENDED)
      case SubTrialing => Some(TRIAL)
      case SubUnknown => None;
    if newStatus.Some? {
      biz.status := newStatus.value;
      if newStatus.value == SUSPENDED {
        biz.active := false;
        biz.reason := Some(SubscriptionUnpaid);
      } else if newStatus.value == ACTIVE {
        biz.active := true;
        biz.reason := None;
      }
    }
  }

  method HandleSubscriptionDeleted(biz: Business?)
    modifies biz
    ensures biz != null ==> biz.View() == SubscriptionDeleted(old(biz.View()))
    ensures biz != null ==>
              biz.View() == old(biz.View()).(status := CANCELLED, active := false, reason := Some(SubscriptionCancelled))
  {
    if biz == null {
      return;
    }
    biz.status := CANCELLED;
    biz.active := false;
    biz.reason := Some(SubscriptionCancelled);
  }

  method HandleInvoicePaid(db: Ledger, biz: Business?, reference: Option<string>, amount: Option<int>, now: int)
    returns (raised: bool)
    modifies db, biz
    ensures biz == null ==> !raised && db.rows == old(db.rows)
    ensures biz != null ==>
              && raised == Recorded(old(db.rows), STRIPE, reference).Err?
              && BooksOf(biz, db) == PaidEvent(old(BooksOf(biz, db)), STRIPE, reference, amount, now)
    ensures biz != null ==> PaymentTaken(old(BooksOf(biz, db)), BooksOf(biz, db), STRIPE, reference, amount, now)
  {
    raised := false;
    if biz == null {
      return;
    }
    var recorded := Recorded(db.rows, STRIPE, reference);
    FreshIff(db.rows, STRIPE, reference);
    if recorded.Err? {
      return true;
    }
    if recorded.value {
      return;
    }
    biz.MarkInvoicePaid(db, amount, Some(STRIPE), reference, now);
  }

  method HandlePaymentFailed(db: Ledger, biz: Business?, reference: Option<string>, amount: Option<int>,
                             created: Option<int>, now: int)
    returns (raised: bool)
    modifies db, biz
    ensures biz == null ==> !raised && db.rows == old(db.rows)
    ensures biz != null ==>
              && raised == Recorded(old(db.rows), STRIPE, reference).Err?
              && BooksOf(biz, db) == FailedEvent(old(BooksOf(biz, db)), STRIPE, reference, amount, created, now)
    ensures biz != null ==> FailureTaken(old(BooksOf(biz, db)), BooksOf(biz, db), STRIPE, reference, amount, created, now)
  {
    raised := false;
    if biz == null {
      return;
    }
    var recorded := Recorded(db.rows, STRIPE, reference);
    FreshIff(db.rows, STRIPE, reference);
    if recorded.Err? {
      return true;
    }
    if recorded.value {
      return;
    }
    biz.MarkPaymentFailed(db, amount, Some(STRIPE), reference, created, now);
  }

  method PayFastNotification(db: Ledger, biz: Business?, reference: Option<string>, amount: Option<int>,
                             status: ItnStatus, now: int)
    returns (raised: bool)
    modifies db, biz
    ensures biz == null ==> !raised && db.rows == old(db.rows)
    ensures biz != null ==>
              && raised == Recorded(old(db.rows), PAYFAST, reference).Err?
              && BooksOf(biz, db) == ItnEvent(old(BooksOf(biz, db)), reference, amount, status, now)
    ensures biz != null ==>
              match status
              case Complete => PaymentTaken(old(BooksOf(biz, db)), BooksOf(biz, db), PAYFAST, reference, amount, now)
              case NotPaid => FailureTaken(old(BooksOf(biz, db)), BooksOf(biz, db), PAYFAST, reference, amount, None, now)
              case Unhandled => BooksOf(biz, db) == old(BooksOf(biz, db))
  {
    raised := false;
    if biz == null {
      return;
    }
    var recorded := Recorded(db.rows, PAYFAST, reference);
    FreshIff(db.rows, PAYFAST, reference);
    if recorded.Err? {
      return true;
    }
    if recorded.value {
      return;
    }
    if status == Complete {
      biz.MarkInvoicePaid(db, amount, Some(PAYFAST), reference, now);
    } else if status == NotPaid {
      biz.MarkPaymentFailed(db, amount, Some(PAYFAST), reference, None, now);
    }
  }

  // ---- replay ----

  lemma OccurrencesSnoc(rows: seq<Payment>, p: Payment, provider: Provider, reference: string)
    ensures Occurrences(rows + [p], provider, reference)
            == Occurrences(rows, provider, reference) + (if Carries(p, provider, reference) then 1 else 0)
  {
  }

  lemma {:induction false} OccurrencesGrow(rows: seq<Payment>, more: seq<Payment>, provider: Provider, reference: string)
    ensures Occurrences(rows + more, provider, reference) >= Occurrences(rows, provider, reference)
  {
    if more == [] {
      assert rows + more == rows;
    } else {
      var n := |more| - 1;
      assert rows + more == (rows + more[..n]) + [more[n]];
      OccurrencesSnoc(rows + more[..n], more[n], provider, reference);
      OccurrencesGrow(rows, more[..n], provider, reference);
    }
  }

  /** An applied event with a reference and an amount is recorded, so it is never fresh again. */
  lemma AppliedOnce(b: Books, provider: Provider, reference: Option<string>, amount: Option<int>,
                    eventTime: Option<int>, now: int, more: seq<Payment>)
    requires Given(reference) && amount.Some?
    ensures !Fresh(PaidEvent(b, provider, reference, amount, now).rows + more, provider, reference)
    ensures !Stale(b.account, eventTime) ==>
              !Fresh(FailedEvent(b, provider, reference, amount, eventTime, now).rows + more, provider, reference)
  {
    PaidOnce(b, provider, reference, amount, now, more);
    if !Stale(b.account, eventTime) {
      FailedOnce(b, provider, reference, amount, eventTime, now, more);
    }
  }

  lemma PaidOnce(b: Books, provider: Provider, reference: Option<string>, amount: Option<int>, now: int, more: seq<Payment>)
    requires Given(reference) && amount.Some?
    ensures !Fresh(PaidEvent(b, provider, reference, amount, now).rows + more, provider, reference)
  {
    if Fresh(b.rows, provider, reference) {
      EventRecorded(b, provider, reference, amount, true, now);
    }
    OccurrencesGrow(PaidEvent(b, provider, reference, amount, now).rows, more, provider, reference.value);
  }

  lemma FailedOnce(b: Books, provider: Provider, reference: Option<string>, amount: Option<int>, eventTime: Option<int>,
                   now: int, more: seq<Payment>)
    requires Given(reference) && amount.Some? && !Stale(b.account, eventTime)
    ensures !Fresh(FailedEvent(b, provider, reference, amount, eventTime, now).rows + more, provider, reference)
  {
    if Fresh(b.rows, provider, reference) {
      EventRecorded(b, provider, reference, amount, false, now);
    }
    OccurrencesGrow(FailedEvent(b, provider, reference, amount, eventTime, now).rows, more, provider, reference.value);
  }

  lemma EventRecorded(b: Books, provider: Provider, reference: Option<string>, amount: Option<int>, paid: bool, now: int)
    requires Given(reference) && amount.Some?
    ensures var rows := b.rows + EventRows(b.account.id, Some(provider), reference, amount, paid, now);
            Occurrences(rows, provider, reference.value) == Occurrences(b.rows, provider, reference.value) + 1
  {
    OccurrencesSnoc(b.rows, Payment(b.account.id, provider, reference, amount.value, paid, now), provider, reference.value);
  }

  /**
   * A paid event puts the account in good standing exactly when it is fresh: one that follows a failure
   * recorded under the same reference is skipped.
   */
  lemma PaidEventIff(b: Books, provider: Provider, reference: Option<string>, amount: Option<int>, now: int)
    requires b.account.periodStart < now
    ensures PaidEvent(b, provider, reference, amount, now).account.periodStart == now <==> Fresh(b.rows, provider, reference)
    ensures PaidEvent(b, provider, reference, amount, now).account.periodStart == now ==>
              PaidEvent(b, provider, reference, amount, now).account == Paid(b.account, now)
  {
  }

  /** A failure and then the payment under one reference: the account stays past due. */
  lemma PaidAfterFailedSkipped(b: Books, provider: Provider, reference: Option<string>, amount: Option<int>,
                               eventTime: Option<int>, now: int, later: int)
    requires Given(reference) && amount.Some?
    requires Fresh(b.rows, provider, reference) && !Stale(b.account, eventTime)
    ensures var failed := FailedEvent(b, provider, reference, amount, eventTime, now);
            failed.account.status == PAST_DUE && PaidEvent(failed, provider, reference, amount, later) == failed
  {
  }
}
