/** What holds over every run of the workers, and what exactly the commit inside the send path breaks. */
module OutboxLaws {
  import opened Common
  import opened Outbox
  import opened OutboxProtocol
  import opened OutboxInvariant

  // ---- tainted rows ----

  /** The step commits a batch, or an insertion, half-way that contains the row. */
  ghost predicate Taints(g: World, step: Step, id: nat) {
    || (step.InsertHalf? && id == |g.rows|)
    || (step.Revoke? && BusyAt(g, step.w) && id in g.workers[step.w].batch)
  }

  /** A row is tainted exactly when some earlier step committed it half-way. */
  lemma {:induction false} TaintedIff(worlds: seq<World>, steps: seq<Step>, i: nat, id: nat)
    requires IsRun(worlds, steps) && i < |worlds|
    ensures id in worlds[i].tainted <==> exists j :: 0 <= j < i && Taints(worlds[j], steps[j], id)
  {
    if i > 0 {
      TaintedIff(worlds, steps, i - 1, id);
      assert Follows(worlds[i - 1], steps[i - 1], worlds[i]);
      TaintedAfter(worlds[i - 1], steps[i - 1], id);
    }
  }

  lemma TaintedAfter(g: World, step: Step, id: nat)
    requires SameSizes(g) && Enabled(g, step)
    ensures id in Next(g, step).tainted <==> id in g.tainted || Taints(g, step, id)
  {
  }

  // ---- laws of the untainted rows ----

  lemma EndedStaysInStep(g: World, step: Step, id: nat)
    requires Inv(g) && Enabled(g, step) && id < |g.rows| && Ended(g.rows[id]) && id !in g.tainted
    ensures var g' := Next(g, step);
            && SameSizes(g') && id < |g'.rows| && id !in g'.tainted
            && g'.rows[id] == g.rows[id] && g'.sends[id] == g.sends[id]
  {
    if !OfInserter(step) && g.workers[step.w].Busy? {
      EndedElsewhere(g, step.w, id);
      assert id in g.workers[step.w].local ==> CopyOk(g.workers[step.w], id);
    }
  }

  /** No batch contains an untainted row that has ended. */
  lemma EndedElsewhere(g: World, w: nat, id: nat)
    requires Inv(g) && BusyAt(g, w) && id < |g.rows| && Ended(g.rows[id]) && id !in g.tainted
    ensures id !in g.workers[w].batch
  {
  }

  /** A committed sent or failed row that is untainted never changes again, is never sent again, and stays untainted. */
  lemma {:induction false} EndedStays(worlds: seq<World>, steps: seq<Step>, i: nat, j: nat, id: nat)
    requires IsRun(worlds, steps) && i <= j < |worlds|
    requires SameSizes(worlds[i]) && id < |worlds[i].rows| && Ended(worlds[i].rows[id]) && id !in worlds[i].tainted
    ensures SameSizes(worlds[j]) && id < |worlds[j].rows| && id !in worlds[j].tainted
    ensures worlds[j].rows[id] == worlds[i].rows[id] && worlds[j].sends[id] == worlds[i].sends[id]
  {
    if i < j {
      EndedStays(worlds, steps, i, j - 1, id);
      RunKeepsInv(worlds, steps, j - 1);
      assert Follows(worlds[j - 1], steps[j - 1], worlds[j]);
      EndedStaysInStep(worlds[j - 1], steps[j - 1], id);
    }
  }

  /** No two workers have the same untainted row in their batches. */
  lemma NoSharedRow(worlds: seq<World>, steps: seq<Step>, i: nat, v: nat, w: nat, id: nat)
    requires IsRun(worlds, steps) && i < |worlds|
    requires BusyAt(worlds[i], v) && BusyAt(worlds[i], w)
    requires id in worlds[i].workers[v].batch && id in worlds[i].workers[w].batch && id !in worlds[i].tainted
    ensures v == w
  {
    RunKeepsInv(worlds, steps, i);
    PairApart(worlds[i], v, w);
  }

  /** No row is locked by two workers, tainted or not. */
  lemma NoSharedLock(worlds: seq<World>, steps: seq<Step>, i: nat, v: nat, w: nat, id: nat)
    requires IsRun(worlds, steps) && i < |worlds| && v < |worlds[i].workers| && w < |worlds[i].workers|
    requires id in Held(worlds[i].workers[v]) && id in Held(worlds[i].workers[w])
    ensures v == w
  {
    RunKeepsInv(worlds, steps, i);
    PairApart(worlds[i], v, w);
  }

  lemma SentApart(g: World, v: nat, w: nat, id: nat)
    requires Inv(g) && v < |g.workers| && w < |g.workers| && v != w && id !in g.tainted
    requires SentIn(g.workers[w], id) == 1
    ensures SentIn(g.workers[v], id) == 0
  {
    PairApart(g, v, w);
  }

  lemma OpenSendsBound(g: World, id: nat)
    requires Inv(g) && id < |g.rows| && id !in g.tainted
    ensures OpenSends(g.workers, id) <= 1
    ensures OpenSends(g.workers, id) == 1 ==> Pickable(g.rows[id])
  {
    if w :| 0 <= w < |g.workers| && SentIn(g.workers[w], id) == 1 {
      SentExists(g, w, id);
      forall v | 0 <= v < |g.workers| && v != w ensures SentIn(g.workers[v], id) == 0 {
        SentApart(g, v, w, id);
      }
      OpenSendsOfOne(g.workers, w, id);
    } else {
      NoOpenSends(g.workers, id);
    }
  }

  /**
   * At every moment an untainted row's sends are exactly its committed attempts since insertion, plus the
   * send in the batch that holds it, plus the sends of rolled-back batches; so without roll backs it is
   * never sent more than max_attempts times.
   */
  lemma SendsAccounted(worlds: seq<World>, steps: seq<Step>, i: nat, id: nat)
    requires IsRun(worlds, steps) && i < |worlds|
    requires SameSizes(worlds[i]) && id < |worlds[i].rows| && id !in worlds[i].tainted
    ensures var g := worlds[i];
            && g.sends[id] == g.rows[id].attempts - g.inserted[id].attempts + OpenSends(g.workers, id) + g.aborted[id]
            && OpenSends(g.workers, id) <= 1
            && g.sends[id] - g.aborted[id] <= Max(0, g.rows[id].maxAttempts)
  {
    RunKeepsInv(worlds, steps, i);
    assert Accounted(worlds[i], id);
    OpenSendsBound(worlds[i], id);
  }

  /**
   * An untainted pending row is stuck (never eligible again, at any time) exactly when it was inserted
   * pending with no attempts left.
   */
  lemma StuckIff(worlds: seq<World>, steps: seq<Step>, i: nat, id: nat)
    requires IsRun(worlds, steps) && i < |worlds| && SameSizes(worlds[i])
    requires id < |worlds[i].rows| && id !in worlds[i].tainted && worlds[i].rows[id].status == PENDING
    ensures (forall now :: !Eligible(worlds[i].rows[id], now)) <==>
            worlds[i].inserted[id].attempts >= worlds[i].inserted[id].maxAttempts
  {
    RunKeepsInv(worlds, steps, i);
    var r := worlds[i].rows[id];
    assert RowOk(worlds[i].inserted[id], r);
    if r.attempts < r.maxAttempts {
      assert Eligible(r, r.scheduledAt);
    }
  }

  /** A row queued after its failed first attempt is stuck exactly when max_attempts is below two. */
  lemma QueuedRowStuckIff(row: Row, detail: Option<string>, now: int)
    requires row.attempts == 0
    ensures var r := Inserted(row, Retryable(detail), now);
            Insertable(r) && (Pickable(r) <==> row.maxAttempts >= 2)
  {
  }

  // ---- rows stored as SENDING ----

  predicate IsSending(g: World, id: nat) {
    id < |g.rows| && g.rows[id].status == SENDING
  }

  /** The step commits the row while it is being sent. */
  ghost predicate StoresSending(g: World, step: Step, id: nat) {
    || (step.InsertHalf? && id == |g.rows|)
    || (step.Revoke? && HasCurrent(g, step.w) && id == Current(g.workers[step.w]))
  }

  lemma SendingAppears(g: World, step: Step, id: nat)
    requires Inv(g) && Enabled(g, step)
    ensures StoresSending(g, step, id) ==> IsSending(Next(g, step), id)
    ensures IsSending(Next(g, step), id) ==> IsSending(g, id) || StoresSending(g, step, id)
  {
    if step.Commit? || step.Revoke? {
      var s := g.workers[step.w];
      assert id in s.local ==> CopyOk(s, id);
    }
  }

  lemma {:induction false} SendingHasCause(worlds: seq<World>, steps: seq<Step>, i: nat, id: nat)
    requires IsRun(worlds, steps) && i < |worlds| && IsSending(worlds[i], id)
    ensures exists j :: 0 <= j < i && StoresSending(worlds[j], steps[j], id)
  {
    if i > 0 {
      RunKeepsInv(worlds, steps, i - 1);
      assert Follows(worlds[i - 1], steps[i - 1], worlds[i]);
      SendingAppears(worlds[i - 1], steps[i - 1], id);
      if !StoresSending(worlds[i - 1], steps[i - 1], id) {
        SendingHasCause(worlds, steps, i - 1, id);
      }
    }
  }

  lemma CauseStoresSending(worlds: seq<World>, steps: seq<Step>, j: nat, id: nat)
    requires IsRun(worlds, steps) && j < |steps| && StoresSending(worlds[j], steps[j], id)
    ensures IsSending(worlds[j + 1], id)
  {
    RunKeepsInv(worlds, steps, j);
    assert Follows(worlds[j], steps[j], worlds[j + 1]);
    SendingAppears(worlds[j], steps[j], id);
  }

  /** A row is at some time committed as SENDING exactly when a rejected token, its own, or its insertion's, committed it. */
  lemma StoredSendingIff(worlds: seq<World>, steps: seq<Step>, id: nat)
    requires IsRun(worlds, steps)
    ensures (exists i :: 0 <= i < |worlds| && IsSending(worlds[i], id)) <==>
            exists j :: 0 <= j < |steps| && StoresSending(worlds[j], steps[j], id)
  {
    if i :| 0 <= i < |worlds| && IsSending(worlds[i], id) {
      SendingHasCause(worlds, steps, i, id);
    }
    if j :| 0 <= j < |steps| && StoresSending(worlds[j], steps[j], id) {
      CauseStoresSending(worlds, steps, j, id);
    }
  }

  predicate CommitsHalfway(step: Step) {
    step.Revoke? || step.InsertHalf?
  }

  /** No row of a run is ever committed as SENDING exactly when no token was rejected in the middle of a transaction. */
  lemma NeverLeftSendingIff(worlds: seq<World>, steps: seq<Step>)
    requires IsRun(worlds, steps)
    ensures (forall i, id: nat :: 0 <= i < |worlds| ==> !IsSending(worlds[i], id)) <==>
            forall j :: 0 <= j < |steps| ==> !CommitsHalfway(steps[j])
  {
    if j :| 0 <= j < |steps| && CommitsHalfway(steps[j]) {
      assert Follows(worlds[j], steps[j], worlds[j + 1]);
      var id := if steps[j].Revoke? then Current(worlds[j].workers[steps[j].w]) else |worlds[j].rows|;
      CauseStoresSending(worlds, steps, j, id);
    }
    if i: int, id: nat :| 0 <= i < |worlds| && IsSending(worlds[i], id) {
      SendingHasCause(worlds, steps, i, id);
    }
  }

  /** Nobody works on the row: it is in no batch and its inserter is gone. */
  predicate Abandoned(g: World, id: nat) {
    id !in g.half && forall w :: 0 <= w < |g.workers| && g.workers[w].Busy? ==> id !in g.workers[w].batch
  }

  lemma PickedEligible(g: World, step: Step)
    requires Enabled(g, step) && step.Pick?
    ensures forall id :: id in step.batch ==> id < |g.rows| && Eligible(g.rows[id], step.now)
  {
    forall id | id in step.batch ensures id < |g.rows| && Eligible(g.rows[id], step.now) {
      var k :| 0 <= k < |step.batch| && step.batch[k] == id;
      assert Free(g.rows, Locked(g.workers), step.now, step.batch[k]);
    }
  }

  lemma StrandedInStep(g: World, step: Step, id: nat)
    requires Inv(g) && Enabled(g, step) && IsSending(g, id) && Abandoned(g, id)
    ensures var g' := Next(g, step); IsSending(g', id) && g'.rows[id] == g.rows[id] && Abandoned(g', id)
  {
    if step.Pick? {
      PickedEligible(g, step);
    } else if step.Commit? || step.Revoke? {
      assert id in g.workers[step.w].local ==> CopyOk(g.workers[step.w], id);
    }
  }

  /** A row committed as SENDING that nobody works on is stranded: it never changes again and is never picked. */
  lemma {:induction false} StrandedForever(worlds: seq<World>, steps: seq<Step>, i: nat, j: nat, id: nat)
    requires IsRun(worlds, steps) && i <= j < |worlds| && IsSending(worlds[i], id) && Abandoned(worlds[i], id)
    ensures IsSending(worlds[j], id) && worlds[j].rows[id] == worlds[i].rows[id] && Abandoned(worlds[j], id)
  {
    if i < j {
      StrandedForever(worlds, steps, i, j - 1, id);
      RunKeepsInv(worlds, steps, j - 1);
      assert Follows(worlds[j - 1], steps[j - 1], worlds[j]);
      StrandedInStep(worlds[j - 1], steps[j - 1], id);
    }
  }
}
