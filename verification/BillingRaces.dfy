/**
 * The hourly jobs and the payment events read rows without locking them and write only the columns they
 * changed, when they commit. What such a write does to rows that others changed in between.
 */
module BillingRaces {
  import opened Common
  import opened LocalTime
  import opened Account
  import opened Invoices
  import opened Sweeps
  import opened Billing
  import opened BillingInvariant
  import opened BillingLaws

  // ---- one row, read before and written now ----

  function GraceWrite(read: Account, stored: Account, now: int): Account {
    if GraceDue(read, now) then Nonpaying(stored) else stored
  }

  function TrialWrite(read: Account, stored: Account, now: int, grace: nat): Account {
    if TrialDue(read, now, grace) then stored.(active := false, reason := Some(TrialExpired)) else stored
  }

  function PaymentWrite(read: Account, stored: Account, now: int): Account {
    var paid := Paid(read, now);
    stored.(
      status := if paid.status != read.status then paid.status else stored.status,
      active := if paid.active != read.active then paid.active else stored.active,
      reason := if paid.reason != read.reason then paid.reason else stored.reason,
      periodStart := if paid.periodStart != read.periodStart then paid.periodStart else stored.periodStart)
  }

  function OverdueWrite(read: Invoice, stored: Invoice, today: int): Invoice {
    if SweepDue(read, today) then stored.(status := OVERDUE) else stored
  }

  /** Without a change in between these are the atomic operations. */
  lemma UndisturbedWrites(a: Account, inv: Invoice, now: int, grace: nat, today: int)
    ensures GraceWrite(a, a, now) == GraceSwept(a, now)
    ensures TrialWrite(a, a, now, grace) == TrialSwept(a, now, grace)
    ensures PaymentWrite(a, a, now) == Paid(a, now)
    ensures OverdueWrite(inv, inv, today) == Swept(inv, today)
  {
  }

  predicate FlagsOk(a: Account) {
    a.active <==> a.reason.None?
  }

  /** Every one of these writes keeps "active exactly without a reason", whatever came in between. */
  lemma WritesKeepFlags(read: Account, stored: Account, now: int, grace: nat)
    requires FlagsOk(read) && FlagsOk(stored)
    ensures FlagsOk(GraceWrite(read, stored, now)) && FlagsOk(TrialWrite(read, stored, now, grace))
    ensures FlagsOk(PaymentWrite(read, stored, now))
  {
  }

  /**
   * The grace job never breaks the agreement of status and access; the trial job does exactly for an
   * account that was activated in between.
   */
  lemma SweepConsistentIff(read: Account, stored: Account, now: int, grace: nat)
    requires Consistent(stored)
    ensures Consistent(GraceWrite(read, stored, now))
    ensures Consistent(TrialWrite(read, stored, now, grace)) <==> !(TrialDue(read, now, grace) && stored.status == ACTIVE)
  {
  }

  /** A payment gives access exactly when the account it read was inactive, or nobody took access away since. */
  lemma PaymentAccessIff(read: Account, stored: Account, now: int)
    requires FlagsOk(read) && FlagsOk(stored) && now != read.periodStart
    ensures PaymentWrite(read, stored, now).active <==> !read.active || stored.active
    ensures PaymentWrite(read, stored, now) == Paid(stored, now) <==>
            (read.status != ACTIVE || stored.status == ACTIVE) && (!read.active || stored.active)
  {
  }

  // ---- the grace job against payments, over runs ----

  /** events[i..j] all happen no earlier than the job's clock. */
  predicate NotBefore(events: seq<Event>, i: nat, j: nat, now: int) {
    forall k :: i <= k < j && k < |events| ==> events[k].now >= now
  }

  /** The history only grew, and the payments added are no older than the given time. */
  predicate Extends(before: seq<Payment>, after: seq<Payment>, now: int) {
    && |after| >= |before|
    && (forall k :: 0 <= k < |before| ==> after[k] == before[k])
    && (forall k :: |before| <= k < |after| ==> NotOlder(after[k], now))
  }

  predicate NotOlder(p: Payment, now: int) {
    p.paid ==> p.at >= now
  }

  lemma ExtendsTwice(a: seq<Payment>, b: seq<Payment>, c: seq<Payment>, now: int, later: int)
    requires Extends(a, b, now) && Extends(b, c, later) && now <= later
    ensures Extends(a, c, now)
  {
    forall k | |a| <= k < |c| ensures NotOlder(c[k], now) {
      if k < |b| {
        assert c[k] == b[k];
      }
    }
  }

  lemma StampedNow(w: World, step: Step, now: nat)
    requires Inv(w) && Enabled(w, step, now)
    ensures Extends(w.payments, Next(w, step, now).payments, now)
  {
    PaymentAdded(w, step, now);
    if step.OnAccount? {
      ActAddsRow(BooksAt(w, step.b), step.act, now, w.settings);
    }
  }

  lemma HistoryStep(first: seq<Payment>, w: World, e: Event, w': World, now: int)
    requires Inv(w) && Follows(w, e, w') && Extends(first, w.payments, now) && now <= e.now
    ensures Extends(first, w'.payments, now)
  {
    StampedNow(w, e.step, e.now);
    ExtendsTwice(first, w.payments, w'.payments, now, e.now);
  }

  lemma {:induction false} HistoryGrows(worlds: seq<World>, events: seq<Event>, i: nat, j: nat, now: int)
    requires IsRun(worlds, events) && i <= j < |worlds| && NotBefore(events, i, j, now)
    ensures Extends(worlds[i].payments, worlds[j].payments, now)
  {
    if i < j {
      HistoryGrows(worlds, events, i, j - 1, now);
      RunKeepsInv(worlds, events, j - 1);
      HistoryStep(worlds[i].payments, worlds[j - 1], events[j - 1], worlds[j], now);
    }
  }

  predicate PaymentOf(p: Payment, b: nat) {
    p.business == b && p.paid
  }

  ghost predicate RecentPayer(w: World, b: nat, since: int) {
    exists k :: 0 <= k < |w.payments| && PaymentOf(w.payments[k], b) && w.payments[k].at >= since
  }

  ghost predicate PaidBetween(before: World, after: World, b: nat) {
    exists k :: |before.payments| <= k < |after.payments| && PaymentOf(after.payments[k], b)
  }

  /**
   * A grace job reads worlds[i] and commits onto worlds[j]. It suspends a business with a payment recorded
   * in the last seven days exactly when that payment was committed between its read and its commit.
   */
  lemma GraceRaceIff(worlds: seq<World>, events: seq<Event>, i: nat, j: nat, b: nat, now: nat)
    requires IsRun(worlds, events) && i <= j < |worlds| && b < |worlds[i].accounts| && b < |worlds[j].accounts|
    requires NotBefore(events, i, j, now) && GraceDue(worlds[i].accounts[b], now)
    ensures !GraceWrite(worlds[i].accounts[b], worlds[j].accounts[b], now).active
    ensures RecentPayer(worlds[j], b, now - GRACE_PERIOD_DAYS * DAY) <==> PaidBetween(worlds[i], worlds[j], b)
  {
    var before, after := worlds[i].payments, worlds[j].payments;
    HistoryGrows(worlds, events, i, j, now);
    RunKeepsInv(worlds, events, i);
    forall k | 0 <= k < |before| && PaymentOf(after[k], b) ensures after[k].at < now - GRACE_PERIOD_DAYS * DAY {
      assert after[k] == before[k] && PaymentOk(before[k], worlds[i].accounts);
    }
    if k :| |before| <= k < |after| && PaymentOf(after[k], b) {
      assert NotOlder(after[k], now);
    }
  }

  // ---- the overdue sweep against invoice payments ----

  function AllOverdueWritten(read: seq<Invoice>, stored: seq<Invoice>, today: int): (written: seq<Invoice>)
    ensures |written| == |stored|
    ensures forall k :: 0 <= k < |stored| ==>
              written[k] == if k < |read| then OverdueWrite(read[k], stored[k], today) else stored[k]
  {
    seq(|stored|, k requires 0 <= k < |stored| => if k < |read| then OverdueWrite(read[k], stored[k], today) else stored[k])
  }

  /** Settled or cancelled while the sweep was under way. */
  predicate OvertakenAt(read: seq<Invoice>, stored: seq<Invoice>, today: int, k: nat) {
    k < |read| && k < |stored| && SweepDue(read[k], today) && Final(stored[k])
  }

  /**
   * The sweep leaves paid and cancelled invoices alone exactly when none it read as due was paid or
   * cancelled before it commits.
   */
  lemma SweepSparesFinalIff(read: seq<Invoice>, stored: seq<Invoice>, today: int)
    ensures (forall k :: 0 <= k < |stored| && Final(stored[k]) ==> AllOverdueWritten(read, stored, today)[k] == stored[k]) <==>
            forall k: nat :: !OvertakenAt(read, stored, today, k)
  {
    var written := AllOverdueWritten(read, stored, today);
    if k: nat :| OvertakenAt(read, stored, today, k) {
      assert Final(stored[k]) && written[k] != stored[k];
    } else {
      forall k | 0 <= k < |stored| && Final(stored[k]) ensures written[k] == stored[k] {
        assert !OvertakenAt(read, stored, today, k);
      }
    }
  }

  lemma {:induction false} ManualRowStored(rows: seq<Payment>, p: Payment)
    requires p in ManualRows(rows)
    ensures p in rows && ByHand(p)
  {
    var n := |rows| - 1;
    if !(ByHand(rows[n]) && p == rows[n]) {
      ManualRowStored(rows[..n], p);
    }
  }

  /**
   * What then follows: an invoice that was paid before the sweep commits can be marked paid once more, and
   * the history holds two rows over its total.
   */
  lemma OvertakenPaidTwice(worlds: seq<World>, events: seq<Event>, i: nat, j: nat, k: nat, today: int,
                           act: InvoiceAct, now: nat)
    requires IsRun(worlds, events) && i <= j < |worlds| && now >= worlds[j].clock
    requires OvertakenAt(worlds[i].invoices, worlds[j].invoices, today, k) && worlds[j].invoices[k].status == PAID
    requires act.Pay? && !act.means.Unsupported? && (act.means == Eft ==> Given(act.reference))
    ensures var w := worlds[j].(invoices := AllOverdueWritten(worlds[i].invoices, worlds[j].invoices, today));
            && w.invoices[k].status == OVERDUE && Enabled(w, OnInvoice(k, act), now)
            && var w' := Next(w, OnInvoice(k, act), now);
               exists p, q :: p in worlds[j].payments && w'.payments == worlds[j].payments + [q]
                              && SameCharge(p, q, worlds[j].invoices[k])
  {
    RunKeepsInv(worlds, events, j);
    var w := worlds[j].(invoices := AllOverdueWritten(worlds[i].invoices, worlds[j].invoices, today));
    var inv := worlds[j].invoices[k];
    assert InvoiceOk(inv, |worlds[j].accounts|, worlds[j].next, worlds[j].clock);
    var p := PaidRow(inv);
    SettledRow(worlds[j], k);
    ManualRowStored(worlds[j].payments, p);
    assert Pays(w.invoices[k], act);
    var q := PaidRow(InvoiceAfter(w.invoices[k], act, now, w.next));
    assert SameCharge(p, q, inv);
    assert Next(w, OnInvoice(k, act), now).payments == worlds[j].payments + [q];
  }

  /** Two hand-recorded payments of one business over the invoice's total. */
  predicate SameCharge(p: Payment, q: Payment, inv: Invoice) {
    ByHand(p) && ByHand(q) && p.business == q.business == inv.business && p.amountCents == q.amountCents == inv.doc.totalCents
  }

  lemma SettledRow(w: World, k: nat)
    requires Inv(w) && k < |w.invoices| && w.invoices[k].status == PAID
    ensures PaidInvoice(w.invoices[k]) && PaidRow(w.invoices[k]) in ManualRows(w.payments)
  {
    assert k in w.settled;
    var n :| 0 <= n < |w.settled| && w.settled[n] == k;
    assert ManualRows(w.payments)[n] == PaidRow(w.invoices[k]);
  }
}
