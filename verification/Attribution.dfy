/** Messages per order: each order is charged the messages since its customer's previous order. Times are microseconds. */
module Attribution {
  import opened Common

  const HOUR := 3600000000

  /** A customer may be unknown; unknown customers are grouped like any other. */
  datatype Message = Message(customer: Option<nat>, at: int, outbound: bool, llm: bool)

  datatype Order = Order(id: nat, customer: Option<nat>, at: int)

  datatype Count = Count(order: Order, windowStart: int, outbound: nat, llm: nat)

  predicate Counted(m: Message, customer: Option<nat>, lo: int, hi: int, llmOnly: bool) {
    m.customer == customer && m.outbound && (llmOnly ==> m.llm) && lo < m.at <= hi
  }

  /** Outbound messages of a customer in (lo, hi]. */
  function CountIn(messages: seq<Message>, customer: Option<nat>, lo: int, hi: int, llmOnly: bool): nat {
    if messages == [] then 0
    else
      var n := |messages| - 1;
      CountIn(messages[..n], customer, lo, hi, llmOnly) + (if Counted(messages[n], customer, lo, hi, llmOnly) then 1 else 0)
  }

  /** Time of the customer's latest order among the first n. */
  function LastBefore(orders: seq<Order>, n: nat, customer: Option<nat>): Option<int>
    requires n <= |orders|
  {
    if n == 0 then None
    else if orders[n - 1].customer == customer then Some(orders[n - 1].at)
    else LastBefore(orders, n - 1, customer)
  }

  function WindowStart(orders: seq<Order>, k: nat, lookbackHours: int): int
    requires k < |orders|
  {
    var prev := LastBefore(orders, k, orders[k].customer);
    if prev.Some? then prev.value else orders[k].at - lookbackHours * HOUR
  }

  function Charge(messages: seq<Message>, orders: seq<Order>, k: nat, lookbackHours: int): Count
    requires k < |orders|
  {
    var o, start := orders[k], WindowStart(orders, k, lookbackHours);
    Count(o, start, CountIn(messages, o.customer, start, o.at, false), CountIn(messages, o.customer, start, o.at, true))
  }

  method GetPerOrderMessageCounts(messages: seq<Message>, orders: seq<Order>, lookbackHours: int)
    returns (results: seq<Count>)
    ensures |results| == |orders|
    ensures forall k :: 0 <= k < |orders| ==> results[k] == Charge(messages, orders, k, lookbackHours)
  {
    results := [];
    var lastOrderAt: map<Option<nat>, int> := map[];
    for n := 0 to |orders|
      invariant |results| == n
      invariant forall k :: 0 <= k < n ==> results[k] == Charge(messages, orders, k, lookbackHours)
      invariant forall c :: LastBefore(orders, n, c) == (if c in lastOrderAt then Some(lastOrderAt[c]) else None)
    {
      var o := orders[n];
      var windowStart := if o.customer in lastOrderAt then lastOrderAt[o.customer] else o.at - lookbackHours * HOUR;
      assert windowStart == WindowStart(orders, n, lookbackHours);
      lastOrderAt := lastOrderAt[o.customer := o.at];
      var outbound := CountIn(messages, o.customer, windowStart, o.at, false);
      var llm := CountIn(messages, o.customer, windowStart, o.at, true);
      results := results + [Count(o, windowStart, outbound, llm)];
    }
  }

  /** A window starts at the customer's latest earlier order, or the lookback before a first order. */
  lemma {:induction false} LastBeforeIs(orders: seq<Order>, n: nat, customer: Option<nat>)
    requires n <= |orders|
    ensures match LastBefore(orders, n, customer)
            case None => forall j :: 0 <= j < n ==> orders[j].customer != customer
            case Some(at) =>
              exists j :: 0 <= j < n && orders[j].customer == customer && orders[j].at == at
                          && forall k :: j < k < n ==> orders[k].customer != customer
  {
    if n > 0 && orders[n - 1].customer != customer {
      LastBeforeIs(orders, n - 1, customer);
      if LastBefore(orders, n - 1, customer).Some? {
        var at := LastBefore(orders, n - 1, customer).value;
        var j :| 0 <= j < n - 1 && orders[j].customer == customer && orders[j].at == at
                 && forall k :: j < k < n - 1 ==> orders[k].customer != customer;
        assert forall k :: j < k < n ==> orders[k].customer != customer;
      }
    }
  }

  /** Each result names its order, its window and both counts over that window. */
  lemma ChargeIs(messages: seq<Message>, orders: seq<Order>, k: nat, lookbackHours: int)
    requires k < |orders|
    ensures var c, o := Charge(messages, orders, k, lookbackHours), orders[k];
            && c.order == o
            && (c.windowStart == o.at - lookbackHours * 3600000000
                || exists j :: 0 <= j < k && orders[j].customer == o.customer && orders[j].at == c.windowStart
                               && forall i :: j < i < k ==> orders[i].customer != o.customer)
            && ((forall j :: 0 <= j < k ==> orders[j].customer != o.customer) ==>
                  c.windowStart == o.at - lookbackHours * 3600000000)
            && c.outbound == CountIn(messages, o.customer, c.windowStart, o.at, false)
            && c.llm == CountIn(messages, o.customer, c.windowStart, o.at, true)
  {
    LastBeforeIs(orders, k, orders[k].customer);
  }

  // ---- telescoping ----

  /** Each customer's orders come in time order, as the query sorts them. */
  predicate InTimeOrder(orders: seq<Order>) {
    forall i, j :: 0 <= i < j < |orders| && orders[i].customer == orders[j].customer ==> orders[i].at <= orders[j].at
  }

  lemma {:induction false} CountSplits(messages: seq<Message>, customer: Option<nat>, lo: int, mid: int, hi: int, llmOnly: bool)
    requires lo <= mid <= hi
    ensures CountIn(messages, customer, lo, hi, llmOnly)
            == CountIn(messages, customer, lo, mid, llmOnly) + CountIn(messages, customer, mid, hi, llmOnly)
  {
    if messages != [] {
      CountSplits(messages[..|messages| - 1], customer, lo, mid, hi, llmOnly);
    }
  }

  lemma {:induction false} EmptyWindow(messages: seq<Message>, customer: Option<nat>, lo: int, hi: int, llmOnly: bool)
    requires lo >= hi
    ensures CountIn(messages, customer, lo, hi, llmOnly) == 0
  {
    if messages != [] {
      EmptyWindow(messages[..|messages| - 1], customer, lo, hi, llmOnly);
    }
  }

  function Charged(messages: seq<Message>, orders: seq<Order>, k: nat, lookbackHours: int, llmOnly: bool): nat
    requires k < |orders|
  {
    if llmOnly then Charge(messages, orders, k, lookbackHours).llm else Charge(messages, orders, k, lookbackHours).outbound
  }

  /** What the first n orders of one customer are charged in all. */
  function CustomerTotal(messages: seq<Message>, orders: seq<Order>, n: nat, customer: Option<nat>, lookbackHours: int,
                         llmOnly: bool): nat
    requires n <= |orders|
  {
    if n == 0 then 0
    else CustomerTotal(messages, orders, n - 1, customer, lookbackHours, llmOnly)
         + (if orders[n - 1].customer == customer then Charged(messages, orders, n - 1, lookbackHours, llmOnly) else 0)
  }

  function FirstAmong(orders: seq<Order>, n: nat, customer: Option<nat>): Option<int>
    requires n <= |orders|
  {
    if n == 0 then None
    else
      var first := FirstAmong(orders, n - 1, customer);
      if first.Some? then first else if orders[n - 1].customer == customer then Some(orders[n - 1].at) else None
  }

  lemma {:induction false} LastIsRecent(orders: seq<Order>, n: nat, customer: Option<nat>, k: nat)
    requires n <= k < |orders| && InTimeOrder(orders) && orders[k].customer == customer
    ensures LastBefore(orders, n, customer).Some? ==> LastBefore(orders, n, customer).value <= orders[k].at
  {
    if n > 0 && orders[n - 1].customer != customer {
      LastIsRecent(orders, n - 1, customer, k);
    }
  }

  lemma {:induction false} FirstToLast(orders: seq<Order>, n: nat, customer: Option<nat>)
    requires n <= |orders| && InTimeOrder(orders)
    ensures var first, last := FirstAmong(orders, n, customer), LastBefore(orders, n, customer);
            first.Some? == last.Some? && (first.Some? ==> first.value <= last.value)
  {
    if n > 0 {
      FirstToLast(orders, n - 1, customer);
      if orders[n - 1].customer == customer {
        LastIsRecent(orders, n - 1, customer, n - 1);
      }
    }
  }

  function Least(a: int, b: int): int {
    if a < b then a else b
  }

  /**
   * A customer's counts add up to exactly the messages between the start of the first window and the
   * last order: none is lost between two windows and none is counted in both.
   */
  lemma {:induction false} CountsTelescope(messages: seq<Message>, orders: seq<Order>, n: nat, customer: Option<nat>,
                                           lookbackHours: int, llmOnly: bool)
    requires n <= |orders| && InTimeOrder(orders)
    ensures var first, last := FirstAmong(orders, n, customer), LastBefore(orders, n, customer);
            CustomerTotal(messages, orders, n, customer, lookbackHours, llmOnly)
            == if first.None? || last.None? then 0
               else CountIn(messages, customer, Least(first.value - lookbackHours * HOUR, first.value), last.value, llmOnly)
  {
    if n > 0 {
      CountsTelescope(messages, orders, n - 1, customer, lookbackHours, llmOnly);
      FirstToLast(orders, n - 1, customer);
      if orders[n - 1].customer == customer {
        var before := LastBefore(orders, n - 1, customer);
        var at := orders[n - 1].at;
        if before.Some? {
          LastIsRecent(orders, n - 1, customer, n - 1);
          var lo := Least(FirstAmong(orders, n - 1, customer).value - lookbackHours * HOUR,
                          FirstAmong(orders, n - 1, customer).value);
          CountSplits(messages, customer, lo, before.value, at, llmOnly);
        } else {
          EmptyWindow(messages, customer, at, at, llmOnly);
          if lookbackHours * HOUR < 0 {
            EmptyWindow(messages, customer, at - lookbackHours * HOUR, at, llmOnly);
          }
        }
      }
    }
  }

  // ---- no message twice ----

  predicate InWindow(m: Message, orders: seq<Order>, k: nat, lookbackHours: int)
    requires k < |orders|
  {
    Counted(m, orders[k].customer, WindowStart(orders, k, lookbackHours), orders[k].at, false)
  }

  lemma {:induction false} LastCovers(orders: seq<Order>, n: nat, j: nat)
    requires j < n <= |orders| && InTimeOrder(orders)
    ensures LastBefore(orders, n, orders[j].customer).Some?
    ensures LastBefore(orders, n, orders[j].customer).value >= orders[j].at
  {
    if orders[n - 1].customer != orders[j].customer {
      LastCovers(orders, n - 1, j);
    }
  }

  /** The windows of two orders share no message. */
  lemma WindowsDisjoint(m: Message, orders: seq<Order>, j: nat, k: nat, lookbackHours: int)
    requires j < k < |orders| && InTimeOrder(orders) && InWindow(m, orders, j, lookbackHours)
    ensures !InWindow(m, orders, k, lookbackHours)
  {
    LastCovers(orders, k, j);
  }

  function WindowsHolding(m: Message, orders: seq<Order>, n: nat, lookbackHours: int): nat
    requires n <= |orders|
  {
    if n == 0 then 0
    else WindowsHolding(m, orders, n - 1, lookbackHours) + (if InWindow(m, orders, n - 1, lookbackHours) then 1 else 0)
  }

  lemma {:induction false} HeldOnce(m: Message, orders: seq<Order>, n: nat, k: nat, lookbackHours: int)
    requires n <= k < |orders| && InTimeOrder(orders) && InWindow(m, orders, k, lookbackHours)
    ensures WindowsHolding(m, orders, n, lookbackHours) == 0
  {
    if n > 0 {
      HeldOnce(m, orders, n - 1, k, lookbackHours);
      if InWindow(m, orders, n - 1, lookbackHours) {
        WindowsDisjoint(m, orders, n - 1, k, lookbackHours);
      }
    }
  }

  lemma {:induction false} AtMostOneWindow(m: Message, orders: seq<Order>, n: nat, lookbackHours: int)
    requires n <= |orders| && InTimeOrder(orders)
    ensures WindowsHolding(m, orders, n, lookbackHours) <= (if m.outbound then 1 else 0)
  {
    if n > 0 {
      AtMostOneWindow(m, orders, n - 1, lookbackHours);
      if InWindow(m, orders, n - 1, lookbackHours) {
        HeldOnce(m, orders, n - 1, n - 1, lookbackHours);
      }
    }
  }

  /** All outbound counts of a report together. */
  function ReportTotal(messages: seq<Message>, orders: seq<Order>, n: nat, lookbackHours: int): nat
    requires n <= |orders|
  {
    if n == 0 then 0
    else ReportTotal(messages, orders, n - 1, lookbackHours) + Charge(messages, orders, n - 1, lookbackHours).outbound
  }

  function Outbound(messages: seq<Message>): nat {
    if messages == [] then 0
    else Outbound(messages[..|messages| - 1]) + (if messages[|messages| - 1].outbound then 1 else 0)
  }

  lemma {:induction false} OneMoreMessage(messages: seq<Message>, orders: seq<Order>, n: nat, lookbackHours: int)
    requires n <= |orders| && messages != []
    ensures ReportTotal(messages, orders, n, lookbackHours)
            == ReportTotal(messages[..|messages| - 1], orders, n, lookbackHours)
               + WindowsHolding(messages[|messages| - 1], orders, n, lookbackHours)
  {
    if n > 0 {
      OneMoreMessage(messages, orders, n - 1, lookbackHours);
    }
  }

  lemma {:induction false} NothingToCount(orders: seq<Order>, n: nat, lookbackHours: int)
    requires n <= |orders|
    ensures ReportTotal([], orders, n, lookbackHours) == 0
  {
    if n > 0 {
      NothingToCount(orders, n - 1, lookbackHours);
    }
  }

  /** Over all orders and customers, no more messages are charged than were sent. */
  lemma {:induction false} NoMessageChargedTwice(messages: seq<Message>, orders: seq<Order>, lookbackHours: int)
    requires InTimeOrder(orders)
    ensures ReportTotal(messages, orders, |orders|, lookbackHours) <= Outbound(messages)
  {
    if messages == [] {
      NothingToCount(orders, |orders|, lookbackHours);
    } else {
      NoMessageChargedTwice(messages[..|messages| - 1], orders, lookbackHours);
      OneMoreMessage(messages, orders, |orders|, lookbackHours);
      AtMostOneWindow(messages[|messages| - 1], orders, |orders|, lookbackHours);
    }
  }

  /** One more message counts exactly if it is the customer's, outbound, of the asked kind, and inside the window. */
  lemma CountInSnoc(messages: seq<Message>, m: Message, customer: Option<nat>, lo: int, hi: int, llmOnly: bool)
    ensures CountIn([], customer, lo, hi, llmOnly) == 0
    ensures CountIn(messages + [m], customer, lo, hi, llmOnly) == CountIn(messages, customer, lo, hi, llmOnly)
            + (if m.customer == customer && m.outbound && (m.llm || !llmOnly) && m.at > lo && m.at <= hi then 1 else 0)
  {
    assert (messages + [m])[..|messages|] == messages;
  }
}
