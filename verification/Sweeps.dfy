/** The hourly jobs: grace-period suspension, trial expiry and overdue invoices. */
module Sweeps {
  import opened Common
  import opened LocalTime
  import opened Account
  import opened AccountStatus
  import opened Invoices

  predicate GraceDue(a: Account, now: int) {
    a.status == PAST_DUE && a.active && PastGrace(a, now)
  }

  function GraceSwept(a: Account, now: int): Account {
    if GraceDue(a, now) then Nonpaying(a) else a
  }

  predicate TrialDue(a: Account, now: int, grace: nat) {
    a.status == TRIAL && a.active && a.trialEndsAt.Some?
    && now > a.trialEndsAt.value + grace * DAY
  }

  function TrialSwept(a: Account, now: int, grace: nat): Account {
    if TrialDue(a, now, grace) then a.(active := false, reason := Some(TrialExpired)) else a
  }

  function CountIf<T>(xs: seq<T>, p: T -> bool): nat {
    if xs == [] then 0 else CountIf(xs[..|xs| - 1], p) + (if p(xs[|xs| - 1]) then 1 else 0)
  }

  lemma CountSnoc<T>(xs: seq<T>, p: T -> bool, n: nat)
    requires n < |xs|
    ensures CountIf(xs[..n + 1], p) == CountIf(xs[..n], p) + (if p(xs[n]) then 1 else 0)
  {
    assert xs[..n + 1][..n] == xs[..n];
  }

  function GraceDueAt(now: int): Account -> bool {
    (a: Account) => GraceDue(a, now)
  }

  function TrialDueAt(now: int, grace: nat): Account -> bool {
    (a: Account) => TrialDue(a, now, grace)
  }

  function SweepDueOn(today: int): Invoice -> bool {
    (inv: Invoice) => SweepDue(inv, today)
  }

  ghost function Accounts(table: seq<Business>): (views: seq<Account>)
    reads table
    ensures |views| == |table| && forall i :: 0 <= i < |table| ==> views[i] == table[i].View()
  {
    seq(|table|, i requires 0 <= i < |table| reads table => table[i].View())
  }

  ghost function InvoicesOf(table: seq<CommercialInvoice>): (views: seq<Invoice>)
    reads table
    ensures |views| == |table| && forall i :: 0 <= i < |table| ==> views[i] == table[i].View()
  {
    seq(|table|, i requires 0 <= i < |table| reads table => table[i].View())
  }

  /** The query's filter is applied row by row as the loop goes. */
  method SuspendPastDue(table: seq<Business>, now: int) returns (suspended: nat)
    requires forall i, j :: 0 <= i < j < |table| ==> table[i] != table[j]
    modifies table
    ensures forall i :: 0 <= i < |table| ==> table[i].View() == GraceSwept(old(table[i].View()), now)
    ensures forall i :: 0 <= i < |table| ==>
              table[i].View() ==
              var a := old(table[i].View());
              if a.status == PAST_DUE && a.active && now > a.periodStart + 7 * DAY
              then a.(status := SUSPENDED, active := false, reason := Some(NonPayment)) else a
    ensures suspended == CountIf(old(Accounts(table)), GraceDueAt(now))
  {
    suspended := 0;
    ghost var before := Accounts(table);
    for n := 0 to |table|
      invariant forall i :: 0 <= i < n ==> table[i].View() == GraceSwept(before[i], now)
      invariant forall i :: n <= i < |table| ==> table[i].View() == before[i]
      invariant suspended == CountIf(before[..n], GraceDueAt(now))
    {
      CountSnoc(before, GraceDueAt(now), n);
      var business := table[n];
      if business.status == PAST_DUE && business.active {
        var past := business.IsPastGracePeriod(now);
        if past {
          business.SuspendForNonpayment();
          suspended := suspended + 1;
        }
      }
    }
    assert before[..|table|] == before;
  }

  method SuspendExpiredTrials(table: seq<Business>, now: int, grace: nat) returns (suspended: nat)
    requires forall i, j :: 0 <= i < j < |table| ==> table[i] != table[j]
    modifies table
    ensures forall i :: 0 <= i < |table| ==> table[i].View() == TrialSwept(old(table[i].View()), now, grace)
    ensures forall i :: 0 <= i < |table| ==>
              table[i].View() ==
              var a := old(table[i].View());
              if a.status == TRIAL && a.active && a.trialEndsAt.Some? && now > a.trialEndsAt.value + grace * DAY
              then a.(active := false, reason := Some(TrialExpired)) else a
    ensures suspended == CountIf(old(Accounts(table)), TrialDueAt(now, grace))
  {
    suspended := 0;
    ghost var before := Accounts(table);
    for n := 0 to |table|
      invariant forall i :: 0 <= i < n ==> table[i].View() == TrialSwept(before[i], now, grace)
      invariant forall i :: n <= i < |table| ==> table[i].View() == before[i]
      invariant suspended == CountIf(before[..n], TrialDueAt(now, grace))
    {
      CountSnoc(before, TrialDueAt(now, grace), n);
      var business := table[n];
      if business.status == TRIAL && business.active && business.trialEndsAt.Some? {
        var deadline := business.trialEndsAt.value + grace * DAY;
        if now > deadline {
          business.active := false;
          business.reason := Some(TrialExpired);
          suspended := suspended + 1;
        }
      }
    }
    assert before[..|table|] == before;
  }

  method SweepOverdueInvoices(table: seq<CommercialInvoice>, today: int) returns (changed: nat)
    requires forall i, j :: 0 <= i < j < |table| ==> table[i] != table[j]
    modifies table
    ensures forall i :: 0 <= i < |table| ==> table[i].View() == Swept(old(table[i].View()), today)
    ensures forall i :: 0 <= i < |table| ==>
              table[i].View() ==
              var inv := old(table[i].View());
              if inv.status in {SENT, AWAITING_PAYMENT} && inv.doc.dueDate.Some? && inv.doc.dueDate.value < today
              then inv.(status := OVERDUE) else inv
    ensures changed == CountIf(old(InvoicesOf(table)), SweepDueOn(today))
  {
    changed := 0;
    ghost var before := InvoicesOf(table);
    for n := 0 to |table|
      invariant forall i :: 0 <= i < n ==> table[i].View() == Swept(before[i], today)
      invariant forall i :: n <= i < |table| ==> table[i].View() == before[i]
      invariant changed == CountIf(before[..n], SweepDueOn(today))
    {
      CountSnoc(before, SweepDueOn(today), n);
      var inv := table[n];
      assert before[n] == inv.View();
      if (inv.status == SENT || inv.status == AWAITING_PAYMENT) && inv.dueDate.Some? && inv.dueDate.value < today {
        inv.status := OVERDUE;
        changed := changed + 1;
      }
    }
    assert before[..|table|] == before;
  }

  /** The trial sweep never touches an account that is still shown as on trial. */
  lemma TrialSweepSparesRunning(a: Account, dues: seq<Option<int>>, now: int, grace: nat)
    requires ComputeStatus(a, dues, now).status == OnTrial
    ensures TrialSwept(a, now, grace) == a
  {
  }

  /** The trial sweep turns off exactly the trials shown as expired for more than the grace days. */
  lemma TrialSweepIff(a: Account, dues: seq<Option<int>>, now: int, grace: nat)
    requires a.active && a.status == TRIAL && a.trialEndsAt.Some?
    ensures TrialSwept(a, now, grace).active <==>
            ComputeStatus(a, dues, now - grace * DAY).status == OnTrial
            || now - grace * DAY == a.trialEndsAt.value
  {
  }
}
