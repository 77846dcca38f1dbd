/**
 * Several workers over one message table. A worker locks a batch, sends row by row, and commits or rolls
 * back at the end; between any two of its steps other workers may move, and it may crash (roll back) at
 * any point. Sends are counted outside the transaction: a roll back forgets the row changes, not the
 * messages. A send counts from the moment the request goes out.
 *
 * One answer breaks the batch: when a customer's own access token is rejected, the sender marks that
 * connection and commits the worker's transaction on the spot. The rows so far are stored, the current one
 * as SENDING, and every lock of the batch is released; the worker then goes on from its copies in memory.
 * The rows of such a batch are called tainted. All laws hold for the other rows.
 */
module OutboxProtocol {
  import opened Outbox

  /**
   * base: the table as the worker's copies remember it. local: copies changed since the last commit.
   * held: row locks. sent: sends since the last commit. rejected: the current row's token was rejected.
   */
  datatype Session =
    | Idle
    | Busy(
        batch: seq<nat>,
        done: nat,
        sending: bool,
        rejected: bool,
        held: set<nat>,
        base: seq<Row>,
        local: map<nat, Row>,
        sent: set<nat>)

  /**
   * rows: the committed table. inserted: each row as it was inserted. sends: requests sent by workers,
   * per row. aborted: how many of those belong to transactions that were rolled back. half: rows that
   * were committed in the middle of their insertion and whose inserter is still at work. tainted: rows
   * that were in a batch, or in an insertion, committed half-way.
   */
  datatype World = World(
    rows: seq<Row>,
    workers: seq<Session>,
    inserted: seq<Row>,
    sends: seq<nat>,
    aborted: seq<nat>,
    half: set<nat>,
    tainted: set<nat>)

  datatype Step =
    | Insert(row: Row)
    | InsertHalf(row: Row)
    | FinishInsert(id: nat, error: string)
    | LoseInsert(id: nat)
    | Pick(w: nat, now: int, batch: seq<nat>)
    | Refuse(w: nat, reach: Reach)
    | Attempt(w: nat)
    | Revoke(w: nat)
    | Deliver(w: nat, result: SendResult, at: int)
    | Commit(w: nat)
    | Abort(w: nat)

  predicate OfInserter(step: Step) {
    step.Insert? || step.InsertHalf? || step.FinishInsert? || step.LoseInsert?
  }

  function Ids(batch: seq<nat>): set<nat> {
    set x | x in batch
  }

  function Held(s: Session): set<nat> {
    if s.Busy? then s.held else {}
  }

  function Locked(workers: seq<Session>): set<nat> {
    if workers == [] then {}
    else Locked(workers[..|workers| - 1]) + Held(workers[|workers| - 1])
  }

  /** No other worker holds a lock on any of the rows. */
  predicate Unheld(workers: seq<Session>, w: nat, ids: set<nat>) {
    forall v :: 0 <= v < |workers| && v != w ==> Held(workers[v]) !! ids
  }

  /** Rows enter the table pending, sent or failed, unless their insertion is committed half-way. */
  predicate Insertable(r: Row) {
    r.status != SENDING && r.attempts >= 0
  }

  predicate BusyAt(g: World, w: nat) {
    w < |g.workers| && g.workers[w].Busy?
  }

  /** The worker has a current row to work on. */
  predicate HasCurrent(g: World, w: nat) {
    BusyAt(g, w) && g.workers[w].done < |g.workers[w].batch| && g.workers[w].batch[g.workers[w].done] < |g.workers[w].base|
    && |g.workers[w].base| <= |g.rows|
  }

  function Current(s: Session): nat
    requires s.Busy? && s.done < |s.batch|
  {
    s.batch[s.done]
  }

  /** A flush writes the changed copies and the current row, and so waits for their locks. */
  function Flushed(s: Session): set<nat>
    requires s.Busy? && s.done < |s.batch|
  {
    s.local.Keys + {Current(s)}
  }

  ghost predicate Enabled(g: World, step: Step) {
    match step
    case Insert(r) => Insertable(r)
    case InsertHalf(r) => r.status == SENDING && r.attempts == 0
    case FinishInsert(id, error) => id in g.half && id < |g.rows|
    case LoseInsert(id) => id in g.half
    case Pick(w, now, batch) =>
      w < |g.workers| && g.workers[w].Idle? && IsPick(g.rows, Locked(g.workers), now, batch)
    case Refuse(w, reach) => HasCurrent(g, w) && !g.workers[w].sending && !reach.Reachable?
    case Attempt(w) =>
      HasCurrent(g, w) && !g.workers[w].sending && Unheld(g.workers, w, Flushed(g.workers[w]))
    case Revoke(w) => HasCurrent(g, w) && g.workers[w].sending && !g.workers[w].rejected
    case Deliver(w, result, at) =>
      HasCurrent(g, w) && g.workers[w].sending && (g.workers[w].rejected ==> result.Permanent?)
    case Commit(w) =>
      BusyAt(g, w) && g.workers[w].done == |g.workers[w].batch| && !g.workers[w].sending
      && Unheld(g.workers, w, g.workers[w].local.Keys)
    case Abort(w) => BusyAt(g, w)
  }

  /** The worker's copy of a row. */
  function Memory(s: Session, id: nat): Row
    requires s.Busy? && id < |s.base|
  {
    if id in s.local then s.local[id] else s.base[id]
  }

  /** An update writes the columns whose copies changed, and the status, which changed on the way. */
  function Merged(before: Row, mine: Row, stored: Row): Row {
    Row(mine.status,
        if mine.attempts != before.attempts then mine.attempts else stored.attempts,
        stored.maxAttempts,
        if mine.scheduledAt != before.scheduledAt then mine.scheduledAt else stored.scheduledAt,
        if mine.waMessageId != before.waMessageId then mine.waMessageId else stored.waMessageId,
        if mine.sentAt != before.sentAt then mine.sentAt else stored.sentAt,
        if mine.lastError != before.lastError then mine.lastError else stored.lastError)
  }

  function Written(rows: seq<Row>, s: Session): (rows': seq<Row>)
    requires s.Busy?
    ensures |rows'| == |rows|
    ensures forall i :: 0 <= i < |rows| ==> rows'[i] == WrittenAt(rows, s, i)
  {
    seq(|rows|, i requires 0 <= i < |rows| => WrittenAt(rows, s, i))
  }

  function WrittenAt(rows: seq<Row>, s: Session, i: nat): Row
    requires s.Busy? && i < |rows|
  {
    if i in s.local && i < |s.base| then Merged(s.base[i], s.local[i], rows[i]) else rows[i]
  }

  /** After a commit the changed copies are the remembered ones. */
  function Remembered(s: Session): (base: seq<Row>)
    requires s.Busy?
    ensures |base| == |s.base| && forall i :: 0 <= i < |base| ==> base[i] == Memory(s, i)
  {
    seq(|s.base|, i requires 0 <= i < |s.base| => Memory(s, i))
  }

  function Lost(aborted: seq<nat>, s: Session): (aborted': seq<nat>)
    requires s.Busy?
    ensures |aborted'| == |aborted|
    ensures forall i :: 0 <= i < |aborted| ==> aborted'[i] == aborted[i] + SentIn(s, i)
  {
    seq(|aborted|, i requires 0 <= i < |aborted| => aborted[i] + SentIn(s, i))
  }

  /** The session a worker holds after its own step. */
  ghost function Advanced(g: World, step: Step): Session
    requires Enabled(g, step) && !OfInserter(step)
  {
    var s := g.workers[step.w];
    match step
    case Pick(w, now, batch) =>
      if batch == [] then Idle else Busy(batch, 0, false, false, Ids(batch), g.rows, map[], {})
    case Refuse(w, reach) =>
      s.(done := s.done + 1, local := s.local[Current(s) := Refused(Memory(s, Current(s)), reach)])
    case Attempt(w) =>
      s.(sending := true, held := s.held + Flushed(s), sent := s.sent + {Current(s)},
         local := s.local[Current(s) := Attempted(Memory(s, Current(s)))])
    case Revoke(w) => s.(rejected := true, held := {}, base := Remembered(s), local := map[], sent := {})
    case Deliver(w, result, at) =>
      s.(done := s.done + 1, sending := false, rejected := false,
         local := s.local[Current(s) := Settled(Memory(s, Current(s)), result, at)])
    case Commit(w) => Idle
    case Abort(w) => Idle
  }

  ghost function Next(g: World, step: Step): World
    requires Enabled(g, step) && SameSizes(g)
  {
    if OfInserter(step) then AfterInserter(g, step)
    else
      var s := g.workers[step.w];
      var g' := g.(workers := g.workers[step.w := Advanced(g, step)]);
      match step
      case Attempt(_) => g'.(sends := g.sends[Current(s) := g.sends[Current(s)] + 1])
      case Revoke(_) => g'.(rows := Written(g.rows, s), tainted := g.tainted + Ids(s.batch))
      case Commit(_) => g'.(rows := Written(g.rows, s))
      case Abort(_) => g'.(aborted := Lost(g.aborted, s))
      case _ => g'
  }

  ghost function AfterInserter(g: World, step: Step): World
    requires Enabled(g, step) && OfInserter(step)
  {
    match step
    case Insert(row) => Appended(g, row)
    case InsertHalf(row) =>
      Appended(g, row).(half := g.half + {|g.rows|}, tainted := g.tainted + {|g.rows|})
    case FinishInsert(id, error) =>
      g.(rows := g.rows[id := Inserted(g.rows[id], Permanent(error), 0)], half := g.half - {id})
    case LoseInsert(id) => g.(half := g.half - {id})
  }

  function Appended(g: World, row: Row): World {
    g.(rows := g.rows + [row], inserted := g.inserted + [row], sends := g.sends + [0], aborted := g.aborted + [0])
  }

  predicate SameSizes(g: World) {
    |g.rows| == |g.inserted| == |g.sends| == |g.aborted|
  }

  // ---- the invariant ----

  function SentIn(s: Session, id: nat): nat {
    if s.Busy? && id in s.sent then 1 else 0
  }

  /** Sends of a row inside transactions that are still open, answered or not. */
  function OpenSends(workers: seq<Session>, id: nat): nat {
    if workers == [] then 0
    else OpenSends(workers[..|workers| - 1], id) + SentIn(workers[|workers| - 1], id)
  }

  /** A worker will still take this row at some time. */
  predicate Pickable(r: Row) {
    r.status == PENDING && r.attempts < r.maxAttempts
  }

  /** A row's uncommitted version against its committed one. */
  predicate LocalOk(before: Row, after: Row, sent: bool) {
    && after.maxAttempts == before.maxAttempts
    && after.attempts == before.attempts + (if sent then 1 else 0)
    && (Ended(after) || (sent && Pickable(after)))
  }

  /** The worker is in the middle of sending the k-th row of its batch. */
  predicate InFlight(s: Session, k: nat)
    requires s.Busy?
  {
    k == s.done && s.sending
  }

  /** What a worker knows of the k-th row of its batch, an untainted one: it holds the lock and the row's last version. */
  predicate EntryOk(rows: seq<Row>, s: Session, k: nat)
    requires s.Busy? && k < |s.batch|
  {
    var id := s.batch[k];
    && id < |s.base| && id < |rows| && s.base[id] == rows[id] && Pickable(rows[id]) && id in s.held
    && (k < s.done ==> id in s.local && LocalOk(rows[id], s.local[id], id in s.sent))
    && (k >= s.done ==> (id in s.sent <==> InFlight(s, k)) && (id in s.local <==> InFlight(s, k)))
    && (InFlight(s, k) ==> s.local[id] == Attempted(rows[id]))
  }

  predicate EntriesOk(rows: seq<Row>, tainted: set<nat>, s: Session) {
    s.Busy? ==> forall k :: 0 <= k < |s.batch| && s.batch[k] !in tainted ==> EntryOk(rows, s, k)
  }

  /** Only the row being sent is SENDING in memory. */
  predicate CopyOk(s: Session, x: nat)
    requires s.Busy? && x in s.local
  {
    x in s.batch && (s.local[x].status == SENDING ==> s.sending && s.done < |s.batch| && x == Current(s))
  }

  /** What holds of a session also after its batch was committed half-way. */
  predicate Shaped(rows: seq<Row>, s: Session) {
    s.Busy? ==>
      && Distinct(s.batch)
      && s.done <= |s.batch|
      && (s.sending ==> s.done < |s.batch|)
      && (s.rejected ==> s.sending)
      && |s.base| <= |rows|
      && (forall k :: 0 <= k < |s.batch| ==> s.batch[k] < |s.base|)
      && (forall x :: x in s.sent ==> x in s.batch)
      && (forall x :: x in s.held ==> x in s.batch)
      && (forall x :: x in s.local ==> CopyOk(s, x))
      && (s.sending && !s.rejected ==> Current(s) in s.local && s.local[Current(s)].status == SENDING)
  }

  predicate SessionOk(rows: seq<Row>, tainted: set<nat>, s: Session) {
    Shaped(rows, s) && EntriesOk(rows, tainted, s)
  }

  /** Rows in two batches are tainted, and no row is locked twice. */
  predicate Apart(tainted: set<nat>, s: Session, t: Session) {
    (s.Busy? && t.Busy? ==> forall x :: x in s.batch && x in t.batch ==> x in tainted)
    && Held(s) !! Held(t)
  }

  predicate SessionsApart(tainted: set<nat>, workers: seq<Session>) {
    forall v, w :: 0 <= v < |workers| && 0 <= w < |workers| && v != w ==> Apart(tainted, workers[v], workers[w])
  }

  predicate RowOk(inserted: Row, r: Row) {
    && inserted.attempts >= 0
    && r.maxAttempts == inserted.maxAttempts
    && r.status != SENDING
    && r.attempts >= inserted.attempts
    && (Pickable(inserted) ==> (Ended(r) || Pickable(r)) && r.attempts <= r.maxAttempts)
    && (!Pickable(inserted) ==> r == inserted)
  }

  predicate Accounted(g: World, id: nat)
    requires SameSizes(g) && id < |g.rows|
  {
    g.sends[id] == g.rows[id].attempts - g.inserted[id].attempts + g.aborted[id] + OpenSends(g.workers, id)
  }

  ghost predicate Inv(g: World) {
    && SameSizes(g)
    && (forall w :: 0 <= w < |g.workers| ==> SessionOk(g.rows, g.tainted, g.workers[w]))
    && SessionsApart(g.tainted, g.workers)
    && g.half <= g.tainted
    && (forall id :: id in g.tainted ==> id < |g.rows|)
    && (forall id :: 0 <= id < |g.rows| && id !in g.tainted ==> RowOk(g.inserted[id], g.rows[id]) && Accounted(g, id))
  }

  // ---- runs ----

  ghost predicate Start(g: World) {
    && g.rows == [] && g.inserted == [] && g.sends == [] && g.aborted == [] && g.half == {} && g.tainted == {}
    && forall w :: 0 <= w < |g.workers| ==> g.workers[w] == Idle
  }

  ghost predicate Follows(g: World, step: Step, g': World) {
    SameSizes(g) && Enabled(g, step) && g' == Next(g, step)
  }

  ghost predicate Chain(worlds: seq<World>, steps: seq<Step>) {
    && |worlds| == |steps| + 1
    && forall i :: 0 <= i < |steps| ==> Follows(worlds[i], steps[i], worlds[i + 1])
  }

  /** worlds[i + 1] is worlds[i] after steps[i], from an empty table with any number of idle workers. */
  ghost predicate IsRun(worlds: seq<World>, steps: seq<Step>) {
    Chain(worlds, steps) && Start(worlds[0])
  }
}
