/** The displayed status of a business, derived from its stored facts and its open invoices' due dates. */
module AccountStatus {
  import opened Common
  import opened LocalTime
  import opened Account

  datatype Derived = OnTrial | InGoodStanding | PaymentDue | Overdue | Expired | Suspended | Cancelled

  datatype Alert = TrialEnds7D | TrialEnds3D | TrialEnds1D | TrialHasExpired | InvoiceOverdue | PaymentAwaiting | IsSuspended

  datatype Display = Display(status: Derived, daysRemaining: Option<int>, alerts: seq<Alert>)

  function DueDates(dues: seq<Option<int>>): (dates: seq<int>)
    ensures forall d :: d in dates <==> Some(d) in dues
  {
    if dues == [] then []
    else
      var front := DueDates(dues[..|dues| - 1]);
      assert dues == dues[..|dues| - 1] + [dues[|dues| - 1]];
      if dues[|dues| - 1].Some? then front + [dues[|dues| - 1].value] else front
  }

  predicate AnyPast(dates: seq<int>, today: int) {
    exists k :: 0 <= k < |dates| && dates[k] < today
  }

  /** `dues` are the due dates of the issued unpaid invoices. */
  function ComputeStatus(a: Account, dues: seq<Option<int>>, now: int): Display {
    if !a.active then Display(Suspended, None, [IsSuspended])
    else if a.status == CANCELLED then Display(Cancelled, None, [])
    else if a.status == TRIAL then TrialStatus(a, now)
    else
      var today := LocalDate(now, a.offset);
      var dates := DueDates(dues);
      if a.status == PAST_DUE || AnyPast(dates, today) then Display(Overdue, None, [InvoiceOverdue])
      else if dates != [] then Display(PaymentDue, None, [PaymentAwaiting])
      else Display(InGoodStanding, None, [])
  }

  function TrialStatus(a: Account, now: int): Display {
    if a.trialEndsAt.None? || now >= a.trialEndsAt.value then Display(Expired, Some(0), [TrialHasExpired])
    else
      var days := Max(0, LocalDate(a.trialEndsAt.value, a.offset) - LocalDate(now, a.offset));
      Display(OnTrial, Some(days),
              if days <= 1 then [TrialEnds1D] else if days <= 3 then [TrialEnds3D]
              else if days <= 7 then [TrialEnds7D] else [])
  }

  /** The precedence of the display: no access first, then cancelled, then the trial. */
  lemma DisplayPrecedence(a: Account, dues: seq<Option<int>>, now: int)
    ensures var s := ComputeStatus(a, dues, now).status;
            && (s == Suspended <==> !a.active)
            && (s == Cancelled <==> a.active && a.status == CANCELLED)
            && (s == OnTrial || s == Expired <==> a.active && a.status == TRIAL)
            && (s == OnTrial <==> a.active && a.status == TRIAL && a.trialEndsAt.Some? && now < a.trialEndsAt.value)
  {
  }

  /** The alerts that go with a displayed status; a trial warns once, by the closest of its three thresholds. */
  lemma AlertsOf(a: Account, dues: seq<Option<int>>, now: int)
    ensures var d := ComputeStatus(a, dues, now);
            match d.status
            case Suspended => d.alerts == [IsSuspended] && d.daysRemaining == None
            case Cancelled => d.alerts == [] && d.daysRemaining == None
            case Expired => d.alerts == [TrialHasExpired] && d.daysRemaining == Some(0)
            case Overdue => d.alerts == [InvoiceOverdue] && d.daysRemaining == None
            case PaymentDue => d.alerts == [PaymentAwaiting] && d.daysRemaining == None
            case InGoodStanding => d.alerts == [] && d.daysRemaining == None
            case OnTrial =>
              && d.daysRemaining.Some? && d.daysRemaining.value >= 0 && |d.alerts| <= 1
              && (TrialEnds1D in d.alerts <==> d.daysRemaining.value <= 1)
              && (TrialEnds3D in d.alerts <==> 2 <= d.daysRemaining.value <= 3)
              && (TrialEnds7D in d.alerts <==> 4 <= d.daysRemaining.value <= 7)
              && (d.alerts == [] <==> d.daysRemaining.value > 7)
  {
  }

  /** As time passes a running trial's days never rise, and an expired trial stays expired. */
  lemma DaysRemainingFall(a: Account, dues: seq<Option<int>>, t: int, u: int)
    requires t <= u && a.active && a.status == TRIAL
    ensures var d, e := ComputeStatus(a, dues, t).daysRemaining, ComputeStatus(a, dues, u).daysRemaining;
            d.Some? && e.Some? && 0 <= e.value <= d.value
    ensures ComputeStatus(a, dues, t).status == Expired ==> ComputeStatus(a, dues, u).status == Expired
  {
  }

  /**
   * A trial is shown running exactly through its last local day: with the calendar invariant, while the
   * local date has not passed start date + default days + extensions, and the days shown are the difference.
   */
  lemma RunningTrialIff(a: Account, dues: seq<Option<int>>, now: int, s: Settings)
    requires CalendarOk(a, s) && a.trialStartedAt.Some? && a.active && a.status == TRIAL
    ensures var left := LocalDate(a.trialStartedAt.value, a.offset) + s.trialDays + a.extensionDays
                        - LocalDate(now, a.offset);
            && (ComputeStatus(a, dues, now).status == OnTrial ==>
                  left >= 0 && ComputeStatus(a, dues, now).daysRemaining == Some(left))
            && (left > 0 ==> ComputeStatus(a, dues, now).status == OnTrial)
            && (left < 0 ==> ComputeStatus(a, dues, now).status == Expired)
            && (left == 0 ==> (ComputeStatus(a, dues, now).status == Expired <==> now == a.trialEndsAt.value))
  {
  }

  /** Off trial, overdue, payment due and good standing are told apart by the failed payment and the due dates alone. */
  lemma DueIff(a: Account, dues: seq<Option<int>>, now: int)
    requires a.active && a.status != TRIAL && a.status != CANCELLED
    ensures var s := ComputeStatus(a, dues, now).status;
            && (s == Overdue <==> a.status == PAST_DUE || exists d: int :: Some(d) in dues && PastDue(d, now, a.offset))
            && (s == InGoodStanding <==> a.status != PAST_DUE && forall d: int :: Some(d) !in dues)
  {
    var dates := DueDates(dues);
    if d: int :| Some(d) in dues && PastDue(d, now, a.offset) {
      assert d in dates;
    }
    if AnyPast(dates, LocalDate(now, a.offset)) {
      var k :| 0 <= k < |dates| && dates[k] < LocalDate(now, a.offset);
      assert Some(dates[k]) in dues && PastDue(dates[k], now, a.offset);
    }
    if d: int :| Some(d) in dues {
      assert d in dates;
    }
    if dates != [] {
      assert Some(dates[0]) in dues;
    }
  }
}
