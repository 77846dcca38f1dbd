/** Delivery of queued messages: one row, one worker's batch. Times are integer microseconds. */
module Outbox {
  import opened Common
  import opened Sorting

  const SECOND := 1000000
  const POLL_INTERVAL_SECONDS := 5
  const BATCH_SIZE := 20

  datatype Status = PENDING | SENDING | SENT | FAILED

  datatype Failure =
    | NoError
    | NoPhoneNumber
    | WhatsAppDisabled
    | Rejected(text: string)
    | MaxAttemptsReached(limit: int, last: Option<string>)
    | WillRetry(last: Option<string>)

  datatype Row = Row(
    status: Status,
    attempts: int,
    maxAttempts: int,
    scheduledAt: int,
    waMessageId: Option<string>,
    sentAt: Option<int>,
    lastError: Failure)

  /** Whether the row's business can send at all. */
  datatype Reach = Missing | Disabled | Reachable

  /** What the provider answers: an id, an error that no retry can cure, or anything else. */
  datatype SendResult = Delivered(id: string) | Permanent(error: string) | Retryable(detail: Option<string>)

  function Power(b: int, e: nat): int {
    if e == 0 then 1 else b * Power(b, e - 1)
  }

  // ---- one row ----

  function Refused(r: Row, reach: Reach): Row
    requires !reach.Reachable?
  {
    r.(status := FAILED, lastError := if reach.Missing? then NoPhoneNumber else WhatsAppDisabled)
  }

  function Attempted(r: Row): Row {
    r.(attempts := r.attempts + 1, status := SENDING)
  }

  function Backoff(attempts: int): int {
    if attempts < 1 then 0 else POLL_INTERVAL_SECONDS * Power(5, attempts - 1) * SECOND
  }

  function Settled(r: Row, result: SendResult, now: int): Row {
    match result
    case Delivered(id) => r.(status := SENT, waMessageId := Some(id), sentAt := Some(now))
    case Permanent(error) => r.(status := FAILED, lastError := Rejected(error))
    case Retryable(detail) =>
      if r.attempts >= r.maxAttempts then r.(status := FAILED, lastError := MaxAttemptsReached(r.maxAttempts, detail))
      else r.(status := PENDING, scheduledAt := now + Backoff(r.attempts), lastError := WillRetry(detail))
  }

  function Processed(r: Row, reach: Reach, result: SendResult, now: int): Row {
    if reach.Reachable? then Settled(Attempted(r), result, now) else Refused(r, reach)
  }

  /** The cause stored with a row that failed for good on this attempt. */
  predicate FailedFor(r': Row, reach: Reach, result: SendResult) {
    match reach
    case Missing => r'.lastError == NoPhoneNumber
    case Disabled => r'.lastError == WhatsAppDisabled
    case Reachable =>
      if result.Permanent? then r'.lastError == Rejected(result.error)
      else result.Retryable? && r'.lastError == MaxAttemptsReached(r'.maxAttempts, result.detail)
  }

  /**
   * How a row r comes out of one processing as r': sent exactly when the provider returned an id, pending
   * exactly when a retryable error leaves attempts to go, failed otherwise, each with what belongs to it.
   */
  predicate Outcome(r: Row, r': Row, reach: Reach, result: SendResult, now: int) {
    && r'.maxAttempts == r.maxAttempts
    && r'.attempts == r.attempts + (if reach.Reachable? then 1 else 0)
    && (r'.status == SENT <==> reach.Reachable? && result.Delivered?)
    && (r'.status == PENDING <==> reach.Reachable? && result.Retryable? && r.attempts + 1 < r.maxAttempts)
    && (r'.status == FAILED <==> r'.status != SENT && r'.status != PENDING)
    && (r'.waMessageId, r'.sentAt) ==
         (if r'.status == SENT then (Some(result.id), Some(now)) else (r.waMessageId, r.sentAt))
    && (r'.status == SENT ==> r'.lastError == r.lastError)
    && (r'.status == PENDING ==> r'.lastError == WillRetry(result.detail))
    && (r'.status == FAILED ==> FailedFor(r', reach, result))
    && (r'.status != PENDING ==> r'.scheduledAt == r.scheduledAt)
    && (r'.status == PENDING && r.attempts >= 0 ==> r'.scheduledAt == now + 5 * Power(5, r.attempts) * 1000000)
  }

  lemma ProcessedOutcome(r: Row, reach: Reach, result: SendResult, now: int)
    ensures Outcome(r, Processed(r, reach, result, now), reach, result, now)
  {
  }

  /** The same for the immediate attempt of a new row, which counts as an attempt only when it failed. */
  predicate InsertOutcome(r: Row, r': Row, result: SendResult, now: int) {
    && r'.maxAttempts == r.maxAttempts && r'.scheduledAt == r.scheduledAt
    && (r'.status == SENT <==> result.Delivered?)
    && (r'.status == FAILED <==> result.Permanent?)
    && (r'.status == PENDING <==> result.Retryable?)
    && r'.attempts == (if result.Delivered? then r.attempts else 1)
    && (r'.waMessageId, r'.sentAt) ==
         (if result.Delivered? then (Some(result.id), Some(now)) else (r.waMessageId, r.sentAt))
    && r'.lastError ==
         match result
         case Delivered(_) => r.lastError
         case Permanent(error) => Rejected(error)
         case Retryable(detail) => if detail.Some? then WillRetry(detail) else NoError
  }

  predicate Eligible(r: Row, now: int) {
    r.status == PENDING && r.scheduledAt <= now && r.attempts < r.maxAttempts
  }

  // ---- the batch a worker picks ----

  function EligibleIds(rows: seq<Row>, locked: set<nat>, now: int): (ids: seq<nat>)
    ensures forall k :: 0 <= k < |ids| ==> ids[k] < |rows| && Eligible(rows[ids[k]], now) && ids[k] !in locked
    ensures forall i :: 0 <= i < |rows| && Eligible(rows[i], now) && i !in locked ==> i in ids
    ensures forall j, k :: 0 <= j < k < |ids| ==> ids[j] < ids[k]
  {
    if rows == [] then []
    else
      var n := |rows| - 1;
      var front := EligibleIds(rows[..n], locked, now);
      assert forall i :: 0 <= i < n ==> rows[..n][i] == rows[i];
      if Eligible(rows[n], now) && n !in locked then front + [n] else front
  }

  function DueTime(rows: seq<Row>): nat -> int {
    (i: nat) => if i < |rows| then rows[i].scheduledAt else 0
  }

  /** Due rows not locked by another transaction, oldest schedule first, at most BATCH_SIZE of them. */
  function PickBatch(rows: seq<Row>, locked: set<nat>, now: int): seq<nat> {
    var order := Sorted(EligibleIds(rows, locked, now), DueTime(rows));
    if |order| <= BATCH_SIZE then order else order[..BATCH_SIZE]
  }

  predicate Distinct(ids: seq<nat>) {
    forall j, k :: 0 <= j < k < |ids| ==> ids[j] != ids[k]
  }

  lemma TwiceCounted(ids: seq<nat>, j: nat, k: nat)
    requires j < k < |ids| && ids[j] == ids[k]
    ensures multiset(ids)[ids[j]] >= 2
  {
    assert ids == ids[..k] + ids[k..];
    assert ids[..k][j] == ids[j] && ids[k..][0] == ids[j];
  }

  lemma {:induction false} AtMostOnce(ids: seq<nat>)
    requires Distinct(ids)
    ensures forall x :: multiset(ids)[x] <= 1
  {
    if ids != [] {
      var n := |ids| - 1;
      AtMostOnce(ids[..n]);
      assert ids == ids[..n] + [ids[n]];
      assert ids[n] !in ids[..n];
    }
  }

  lemma DistinctByMultiset(ids: seq<nat>, order: seq<nat>)
    requires Distinct(ids) && multiset(order) == multiset(ids)
    ensures Distinct(order)
    ensures forall x :: x in order <==> x in ids
  {
    AtMostOnce(ids);
    forall j, k | 0 <= j < k < |order| ensures order[j] != order[k] {
      if order[j] == order[k] {
        TwiceCounted(order, j, k);
        assert false;
      }
    }
    assert forall x :: x in order <==> x in multiset(order);
    assert forall x :: x in ids <==> x in multiset(ids);
  }

  /** Distinct ids of due unlocked rows, oldest schedule first. */
  ghost predicate DueInOrder(rows: seq<Row>, locked: set<nat>, now: int, batch: seq<nat>) {
    && Distinct(batch)
    && (forall k :: 0 <= k < |batch| ==> Free(rows, locked, now, batch[k]))
    && Ascends(batch, DueTime(rows))
  }

  predicate Free(rows: seq<Row>, locked: set<nat>, now: int, i: nat) {
    && i < |rows| && i !in locked
    && rows[i].status == PENDING && rows[i].scheduledAt <= now && rows[i].attempts < rows[i].maxAttempts
  }

  lemma WholeOrder(rows: seq<Row>, locked: set<nat>, now: int)
    ensures var order := Sorted(EligibleIds(rows, locked, now), DueTime(rows));
            && DueInOrder(rows, locked, now, order)
            && forall i :: Free(rows, locked, now, i) ==> i in order
  {
    var ids := EligibleIds(rows, locked, now);
    var order := Sorted(ids, DueTime(rows));
    SortedAscends(ids, DueTime(rows));
    DistinctByMultiset(ids, order);
    forall k | 0 <= k < |order| ensures Free(rows, locked, now, order[k]) {
      assert order[k] in ids;
    }
  }

  /** Everything in the batch was due no later than row i. */
  predicate NoLater(rows: seq<Row>, batch: seq<nat>, i: nat) {
    forall k :: 0 <= k < |batch| ==> DueTime(rows)(batch[k]) <= DueTime(rows)(i)
  }

  /**
   * An answer the query may give: at most BATCH_SIZE distinct due unlocked rows in schedule order, with
   * nothing older left behind. Rows due at the same instant may come in any order.
   */
  ghost predicate IsPick(rows: seq<Row>, locked: set<nat>, now: int, batch: seq<nat>) {
    && |batch| <= BATCH_SIZE
    && DueInOrder(rows, locked, now, batch)
    && forall i :: Free(rows, locked, now, i) && i !in batch ==> |batch| == BATCH_SIZE && NoLater(rows, batch, i)
  }

  /** There always is such an answer. */
  lemma PickBatchIs(rows: seq<Row>, locked: set<nat>, now: int)
    ensures IsPick(rows, locked, now, PickBatch(rows, locked, now))
  {
    WholeOrder(rows, locked, now);
    var order := Sorted(EligibleIds(rows, locked, now), DueTime(rows));
    var batch := PickBatch(rows, locked, now);
    TakenInOrder(rows, locked, now, order, |batch|);
    forall i | Free(rows, locked, now, i) && i !in batch ensures |batch| == BATCH_SIZE && NoLater(rows, batch, i) {
      assert i in order;
      LeftBehind(order, DueTime(rows), |batch|, i);
    }
  }

  /** Two answers differ only in rows that are due at the very instant at which the query stops. */
  lemma PicksDiffer(rows: seq<Row>, locked: set<nat>, now: int, batch: seq<nat>, other: seq<nat>, i: nat)
    requires IsPick(rows, locked, now, batch) && IsPick(rows, locked, now, other) && i in batch && i !in other
    ensures |other| == BATCH_SIZE
    ensures forall k :: 0 <= k < |other| && other[k] !in batch ==> rows[i].scheduledAt == DueTime(rows)(other[k])
  {
    var j :| 0 <= j < |batch| && batch[j] == i;
    assert Free(rows, locked, now, batch[j]);
    forall k | 0 <= k < |other| && other[k] !in batch ensures rows[i].scheduledAt == DueTime(rows)(other[k]) {
      assert Free(rows, locked, now, other[k]);
      assert NoLater(rows, batch, other[k]) && NoLater(rows, other, i);
    }
  }

  lemma TakenInOrder(rows: seq<Row>, locked: set<nat>, now: int, order: seq<nat>, n: nat)
    requires DueInOrder(rows, locked, now, order) && n <= |order|
    ensures DueInOrder(rows, locked, now, order[..n])
  {
  }

  lemma LeftBehind(order: seq<nat>, key: nat -> int, n: nat, i: nat)
    requires Ascends(order, key) && n <= |order| && i in order && i !in order[..n]
    ensures n < |order| && forall k :: 0 <= k < n ==> key(order[..n][k]) <= key(i)
  {
  }

  // ---- the code ----

  class OutboxMessage {
    var status: Status
    var attempts: int
    var maxAttempts: int
    var scheduledAt: int
    var waMessageId: Option<string>
    var sentAt: Option<int>
    var lastError: Failure

    function View(): Row
      reads this
    {
      Row(status, attempts, maxAttempts, scheduledAt, waMessageId, sentAt, lastError)
    }

    /** A fresh row as `send_text_message` inserts it, before its immediate attempt. */
    constructor (maxAttempts: int, now: int)
      ensures View() == Row(SENDING, 0, maxAttempts, now, None, None, NoError)
    {
      status, attempts, this.maxAttempts, scheduledAt := SENDING, 0, maxAttempts, now;
      waMessageId, sentAt, lastError := None, None, NoError;
    }

    method FirstAttempt(result: SendResult, now: int)
      modifies this
      ensures View() == Inserted(old(View()), result, now)
      ensures InsertOutcome(old(View()), View(), result, now)
    {
      match result
      case Delivered(id) =>
        status, waMessageId, sentAt := SENT, Some(id), Some(now);
      case Permanent(error) =>
        status, attempts, lastError := FAILED, 1, Rejected(error);
      case Retryable(detail) =>
        status, attempts, lastError := PENDING, 1, if detail.Some? then WillRetry(detail) else NoError;
    }

    method ProcessSingle(reach: Reach, result: SendResult, now: int)
      modifies this
      ensures View() == Processed(old(View()), reach, result, now)
      ensures Outcome(old(View()), View(), reach, result, now)
    {
      if reach.Missing? {
        status, lastError := FAILED, NoPhoneNumber;
        return;
      }
      if reach.Disabled? {
        status, lastError := FAILED, WhatsAppDisabled;
        return;
      }
      attempts := attempts + 1;
      status := SENDING;
      if result.Delivered? {
        status, waMessageId, sentAt := SENT, Some(result.id), Some(now);
      } else if result.Permanent? {
        status, lastError := FAILED, Rejected(result.error);
      } else if attempts >= maxAttempts {
        status, lastError := FAILED, MaxAttemptsReached(maxAttempts, result.detail);
      } else {
        status := PENDING;
        scheduledAt := now + Backoff(attempts);
        lastError := WillRetry(result.detail);
      }
    }
  }

  /** The row after the immediate attempt made while inserting it. */
  function Inserted(row: Row, result: SendResult, now: int): Row {
    match result
    case Delivered(id) => row.(status := SENT, waMessageId := Some(id), sentAt := Some(now))
    case Permanent(error) => row.(status := FAILED, attempts := 1, lastError := Rejected(error))
    case Retryable(detail) =>
      row.(status := PENDING, attempts := 1, lastError := if detail.Some? then WillRetry(detail) else NoError)
  }

  ghost function Views(table: seq<OutboxMessage>): seq<Row>
    reads table
  {
    seq(|table|, i requires 0 <= i < |table| reads table => table[i].View())
  }

  predicate DistinctMessages(table: seq<OutboxMessage>) {
    forall i, j :: 0 <= i < j < |table| ==> table[i] != table[j]
  }

  /**
   * What meets the k-th row of a batch: its business, the provider's answer, the time of the answer, and
   * whether the answer rejected the business's own token (which is a permanent error).
   */
  datatype Encounter = Encounter(reach: Reach, result: SendResult, at: int, revoked: bool)

  /** The table's rows after the first k rows of the batch have been processed. */
  ghost function After(rows: seq<Row>, batch: seq<nat>, k: nat, world: nat -> Encounter): (rows': seq<Row>)
    requires k <= |batch|
    ensures |rows'| == |rows|
  {
    if k == 0 then rows
    else
      var before := After(rows, batch, k - 1, world);
      var e, i := world(k - 1), batch[k - 1];
      if i < |before| then before[i := Processed(before[i], e.reach, e.result, e.at)] else before
  }

  predicate ProcessedOnce(before: Row, after: Row, e: Encounter) {
    after == Processed(before, e.reach, e.result, e.at)
  }

  lemma {:induction false} UntouchedAfter(rows: seq<Row>, batch: seq<nat>, k: nat, world: nat -> Encounter, i: nat)
    requires k <= |batch| && i < |rows| && i !in batch[..k]
    ensures After(rows, batch, k, world)[i] == rows[i]
  {
    if k > 0 {
      assert batch[..k] == batch[..k - 1] + [batch[k - 1]];
      UntouchedAfter(rows, batch, k - 1, world, i);
    }
  }

  lemma {:induction false} ProcessedAfter(rows: seq<Row>, batch: seq<nat>, k: nat, world: nat -> Encounter, j: nat)
    requires j < k <= |batch| && Distinct(batch) && batch[j] < |rows|
    ensures ProcessedOnce(rows[batch[j]], After(rows, batch, k, world)[batch[j]], world(j))
  {
    if j < k - 1 {
      ProcessedAfter(rows, batch, k - 1, world, j);
      assert batch[k - 1] != batch[j];
    } else {
      assert batch[j] !in batch[..j];
      UntouchedAfter(rows, batch, j, world, batch[j]);
    }
  }

  /** Each row of a batch without repetitions is processed exactly once, and no other row changes. */
  lemma AfterIs(rows: seq<Row>, batch: seq<nat>, k: nat, world: nat -> Encounter)
    requires k <= |batch| && Distinct(batch) && forall j :: 0 <= j < |batch| ==> batch[j] < |rows|
    ensures var rows' := After(rows, batch, k, world);
            && (forall j :: 0 <= j < k ==> ProcessedOnce(rows[batch[j]], rows'[batch[j]], world(j)))
            && (forall i :: 0 <= i < |rows| && i !in batch[..k] ==> rows'[i] == rows[i])
  {
    forall j | 0 <= j < k ensures ProcessedOnce(rows[batch[j]], After(rows, batch, k, world)[batch[j]], world(j)) {
      ProcessedAfter(rows, batch, k, world, j);
    }
    forall i | 0 <= i < |rows| && i !in batch[..k] ensures After(rows, batch, k, world)[i] == rows[i] {
      UntouchedAfter(rows, batch, k, world, i);
    }
  }

  lemma AfterStep(rows: seq<Row>, batch: seq<nat>, k: nat, world: nat -> Encounter)
    requires k < |batch| && batch[k] < |rows|
    ensures var now := After(rows, batch, k, world);
            After(rows, batch, k + 1, world) ==
            now[batch[k] := Processed(now[batch[k]], world(k).reach, world(k).result, world(k).at)]
  {
  }

  /** One worker pass over the table: the batch is what the query answered; its rows are processed one by one. */
  method ProcessBatch(table: seq<OutboxMessage>, batch: seq<nat>, ghost locked: set<nat>, ghost now: int,
                      world: nat -> Encounter)
    returns (count: nat)
    requires DistinctMessages(table) && IsPick(Views(table), locked, now, batch)
    modifies table
    ensures count == |batch| && Views(table) == After(old(Views(table)), batch, count, world)
  {
    ghost var rows := Views(table);
    count := |batch|;
    for k := 0 to |batch|
      invariant Views(table) == After(rows, batch, k, world)
    {
      assert Free(rows, locked, now, batch[k]);
      AfterStep(rows, batch, k, world);
      ProcessAt(table, batch[k], world(k));
    }
  }

  method ProcessAt(table: seq<OutboxMessage>, i: nat, e: Encounter)
    requires DistinctMessages(table) && i < |table|
    modifies table
    ensures Views(table) ==
            old(Views(table))[i := Processed(old(Views(table))[i], e.reach, e.result, e.at)]
  {
    table[i].ProcessSingle(e.reach, e.result, e.at);
    assert forall j :: 0 <= j < |table| && j != i ==> table[j] != table[i];
  }

  // ---- progress and backoff ----

  predicate Ended(r: Row) {
    r.status == SENT || r.status == FAILED
  }

  /** Every processing of a due row ends it, or keeps it pending with strictly fewer attempts left. */
  lemma ProcessingProgress(r: Row, now: int, reach: Reach, result: SendResult, at: int)
    requires Eligible(r, now) && r.attempts >= 0
    ensures var r' := Processed(r, reach, result, at);
            && r'.maxAttempts == r.maxAttempts
            && (Ended(r') ||
                (r'.status == PENDING && r'.attempts < r'.maxAttempts
                 && r'.maxAttempts - r'.attempts < r.maxAttempts - r.attempts
                 && r'.scheduledAt > at))
  {
    PowerPositive(r.attempts);
    assert Backoff(r.attempts + 1) == 5 * Power(5, r.attempts) * SECOND;
  }

  lemma {:induction false} PowerPositive(e: nat)
    ensures Power(5, e) >= 1
  {
    if e > 0 {
      PowerPositive(e - 1);
    }
  }

  /** Sum of the delays chosen while every attempt fails with a retryable error; attempt k is answered at clock(k). */
  function TotalBackoff(r: Row, clock: int -> int): int
    requires r.attempts >= 0
    decreases r.maxAttempts - r.attempts
  {
    var at := clock(r.attempts + 1);
    var r' := Processed(r, Reachable, Retryable(None), at);
    if r'.status == PENDING then r'.scheduledAt - at + TotalBackoff(r', clock) else 0
  }

  lemma {:induction false} BackoffSum(r: Row, clock: int -> int)
    requires 0 <= r.attempts < r.maxAttempts
    ensures 4 * TotalBackoff(r, clock) == (Power(5, r.maxAttempts) - Power(5, r.attempts + 1)) * SECOND
    decreases r.maxAttempts - r.attempts
  {
    var at := clock(r.attempts + 1);
    var r' := Processed(r, Reachable, Retryable(None), at);
    if r'.status == PENDING {
      BackoffSum(r', clock);
      assert r'.scheduledAt - at == Power(5, r.attempts + 1) * SECOND;
      assert Power(5, r.attempts + 2) == 5 * Power(5, r.attempts + 1);
    }
  }

  /** A row queued with no attempts waits (5^max - 5) / 4 seconds in all before it is given up. */
  lemma FreshBackoffSum(r: Row, clock: int -> int)
    requires r.attempts == 0 && r.maxAttempts >= 1
    ensures TotalBackoff(r, clock) == (Power(5, r.maxAttempts) - 5) / 4 * SECOND
    ensures (Power(5, r.maxAttempts) - 5) % 4 == 0
  {
    BackoffSum(r, clock);
    PowerModFour(r.maxAttempts);
    Quarter(TotalBackoff(r, clock), Power(5, r.maxAttempts), SECOND);
  }

  lemma Quarter(total: int, power: int, unit: int)
    requires 4 * total == (power - 5) * unit && power % 4 == 1
    ensures (power - 5) % 4 == 0 && total == (power - 5) / 4 * unit
  {
  }

  lemma {:induction false} PowerModFour(e: nat)
    ensures Power(5, e) % 4 == 1
  {
    if e > 0 {
      PowerModFour(e - 1);
      FiveTimes(Power(5, e - 1));
    }
  }

  lemma FiveTimes(x: int)
    requires x % 4 == 1
    ensures (5 * x) % 4 == 1
  {
    assert 5 * x == 4 * x + x;
  }
}
