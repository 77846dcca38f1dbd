/** A stored row says "sent" exactly when the provider returned an id for it and that was committed. */
module OutboxDelivery {
  import opened Outbox
  import opened OutboxProtocol
  import opened OutboxInvariant

  /** The worker's step brings an id for the row. */
  ghost predicate Brings(g: World, step: Step, w: nat, id: nat) {
    step.Deliver? && step.w == w && step.result.Delivered? && HasCurrent(g, w) && Current(g.workers[w]) == id
  }

  /** The worker's transaction ends. */
  predicate Closes(step: Step, w: nat) {
    (step.Commit? || step.Abort?) && step.w == w
  }

  /** In its open transaction the worker has received an id for the row. */
  ghost predicate Received(worlds: seq<World>, steps: seq<Step>, i: nat, w: nat, id: nat)
    requires i <= |steps| && |steps| <= |worlds|
  {
    exists d :: 0 <= d < i && BroughtAt(worlds, steps, d, i, w, id)
  }

  ghost predicate BroughtAt(worlds: seq<World>, steps: seq<Step>, d: nat, i: nat, w: nat, id: nat)
    requires d < i <= |steps| && |steps| <= |worlds|
  {
    Brings(worlds[d], steps[d], w, id) && forall k :: d < k < i ==> !Closes(steps[k], w)
  }

  /** What was received up to step i is what was received before it and not closed, or what the step brings. */
  lemma ReceivedNext(worlds: seq<World>, steps: seq<Step>, i: nat, w: nat, id: nat)
    requires i < |steps| && |steps| <= |worlds|
    ensures Received(worlds, steps, i + 1, w, id) <==>
            Brings(worlds[i], steps[i], w, id) || (Received(worlds, steps, i, w, id) && !Closes(steps[i], w))
  {
    if Received(worlds, steps, i + 1, w, id) {
      var d :| 0 <= d < i + 1 && BroughtAt(worlds, steps, d, i + 1, w, id);
      if d < i {
        assert BroughtAt(worlds, steps, d, i, w, id);
      }
    }
    if Brings(worlds[i], steps[i], w, id) {
      assert BroughtAt(worlds, steps, i, i + 1, w, id);
    }
    if Received(worlds, steps, i, w, id) && !Closes(steps[i], w) {
      var d :| 0 <= d < i && BroughtAt(worlds, steps, d, i, w, id);
      assert BroughtAt(worlds, steps, d, i + 1, w, id);
    }
  }

  // ---- the worker's copy ----

  /** The worker's copy says sent. */
  predicate CopySent(g: World, w: nat, id: nat) {
    BusyAt(g, w) && id in g.workers[w].local && g.workers[w].local[id].status == SENT
  }

  predicate InBatch(g: World, w: nat, id: nat) {
    BusyAt(g, w) && id in g.workers[w].batch
  }

  lemma SettledSent(r: Row, result: SendResult, at: int)
    ensures Settled(Attempted(r), result, at).status == SENT <==> result.Delivered?
  {
  }

  /** One step on an untainted row's copy: it says sent afterwards exactly when the step brings an id, or it said so before. */
  lemma CopyNext(g: World, step: Step, g': World, w: nat, id: nat)
    requires Inv(g) && Follows(g, step, g') && id !in g'.tainted
    ensures CopySent(g', w, id) <==> Brings(g, step, w, id) || (CopySent(g, w, id) && !Closes(step, w))
    ensures Brings(g, step, w, id) || (InBatch(g, w, id) && !Closes(step, w)) ==> InBatch(g', w, id)
  {
    if OfInserter(step) || step.w != w {
      ElsewhereSame(g, step, g', w, id);
    } else if step.Revoke? {
      RevokedElsewhere(g, step, g', id);
    } else if WorksOnRow(step) {
      WorkedCopyNext(g, step, id);
    } else {
      StartsOrEnds(g, step, g', id);
    }
  }

  /** An untainted row is in no batch that is committed half-way. */
  lemma RevokedElsewhere(g: World, step: Step, g': World, id: nat)
    requires Inv(g) && Follows(g, step, g') && step.Revoke? && id !in g'.tainted
    ensures !InBatch(g, step.w, id) && !CopySent(g, step.w, id) && !CopySent(g', step.w, id)
  {
    assert forall x :: x in g.workers[step.w].local ==> CopyOk(g.workers[step.w], x);
  }

  lemma ElsewhereSame(g: World, step: Step, g': World, w: nat, id: nat)
    requires Follows(g, step, g') && (OfInserter(step) || step.w != w)
    ensures CopySent(g', w, id) == CopySent(g, w, id) && InBatch(g', w, id) == InBatch(g, w, id)
    ensures !Brings(g, step, w, id) && !Closes(step, w)
  {
  }

  lemma StartsOrEnds(g: World, step: Step, g': World, id: nat)
    requires Follows(g, step, g') && (step.Pick? || step.Commit? || step.Abort?)
    ensures !CopySent(g', step.w, id) && !Brings(g, step, step.w, id)
    ensures CopySent(g, step.w, id) || InBatch(g, step.w, id) ==> Closes(step, step.w)
  {
  }

  lemma WorkedCopyNext(g: World, step: Step, id: nat)
    requires Inv(g) && Enabled(g, step) && WorksOnRow(step) && id !in g.tainted
    ensures CopySent(Next(g, step), step.w, id) <==> Brings(g, step, step.w, id) || CopySent(g, step.w, id)
    ensures Brings(g, step, step.w, id) || InBatch(g, step.w, id) ==> InBatch(Next(g, step), step.w, id)
  {
    if id == Current(g.workers[step.w]) {
      CurrentCopyNext(g, step, id);
    }
  }

  lemma CurrentCopyNext(g: World, step: Step, id: nat)
    requires Inv(g) && Enabled(g, step) && WorksOnRow(step)
    requires id == Current(g.workers[step.w]) && id !in g.tainted
    ensures !CopySent(g, step.w, id)
    ensures CopySent(Next(g, step), step.w, id) <==> Brings(g, step, step.w, id)
  {
    var s := g.workers[step.w];
    assert EntryOk(g.rows, s, s.done);
    if step.Deliver? {
      SettledSent(g.rows[id], step.result, step.at);
    }
  }

  lemma TaintGrows(g: World, step: Step)
    requires SameSizes(g) && Enabled(g, step)
    ensures g.tainted <= Next(g, step).tainted
  {
  }

  /** An untainted row's copy says sent exactly when the worker has received an id for it. */
  lemma {:induction false} CopySentIff(worlds: seq<World>, steps: seq<Step>, i: nat, w: nat, id: nat)
    requires IsRun(worlds, steps) && i < |worlds| && id !in worlds[i].tainted
    ensures CopySent(worlds[i], w, id) <==> Received(worlds, steps, i, w, id)
    ensures Received(worlds, steps, i, w, id) ==> InBatch(worlds[i], w, id)
  {
    if i == 0 {
      assert w < |worlds[0].workers| ==> worlds[0].workers[w] == Idle;
    } else {
      var g, step := worlds[i - 1], steps[i - 1];
      assert Follows(g, step, worlds[i]);
      RunKeepsInv(worlds, steps, i - 1);
      TaintGrows(g, step);
      CopySentIff(worlds, steps, i - 1, w, id);
      CopyNext(g, step, worlds[i], w, id);
      ReceivedNext(worlds, steps, i - 1, w, id);
    }
  }

  // ---- the stored row ----

  /** Some earlier commit stored an id received for the row. */
  ghost predicate CommittedId(worlds: seq<World>, steps: seq<Step>, i: nat, id: nat)
    requires i <= |steps| && |steps| <= |worlds|
  {
    exists c :: 0 <= c < i && CommitsId(worlds, steps, c, id)
  }

  ghost predicate CommitsId(worlds: seq<World>, steps: seq<Step>, c: nat, id: nat)
    requires c < |steps| && |steps| <= |worlds|
  {
    steps[c].Commit? && Received(worlds, steps, c, steps[c].w, id)
  }

  lemma CommittedNext(worlds: seq<World>, steps: seq<Step>, i: nat, id: nat)
    requires i < |steps| && |steps| <= |worlds|
    ensures CommittedId(worlds, steps, i + 1, id) <==>
            CommittedId(worlds, steps, i, id) || CommitsId(worlds, steps, i, id)
  {
  }

  predicate StoredSent(g: World, id: nat) {
    id < |g.rows| && g.rows[id].status == SENT
  }

  predicate InsertedSent(g: World, id: nat) {
    id < |g.inserted| && g.inserted[id].status == SENT
  }

  lemma BatchStored(g: World, w: nat, id: nat)
    requires Inv(g) && InBatch(g, w, id)
    ensures id < |g.rows|
  {
  }

  predicate InsertsSent(g: World, step: Step, id: nat) {
    step.Insert? && id == |g.rows| && step.row.status == SENT
  }

  /** One step on an untainted stored row: it says sent afterwards exactly if it did, was inserted so, or a commit says so. */
  lemma StoredNext(g: World, step: Step, g': World, id: nat)
    requires Inv(g) && Follows(g, step, g') && id !in g'.tainted
    ensures StoredSent(g', id) <==>
            StoredSent(g, id) || InsertsSent(g, step, id) || (step.Commit? && CopySent(g, step.w, id))
    ensures InsertedSent(g', id) <==> InsertedSent(g, id) || InsertsSent(g, step, id)
  {
    if step.Commit? || step.Revoke? {
      StoredByCommit(g, step, id);
    }
  }

  lemma StoredByCommit(g: World, step: Step, id: nat)
    requires Inv(g) && Enabled(g, step) && (step.Commit? || step.Revoke?) && id !in Next(g, step).tainted
    ensures StoredSent(Next(g, step), id) <==> StoredSent(g, id) || (step.Commit? && CopySent(g, step.w, id))
  {
    var s := g.workers[step.w];
    if id in s.local {
      assert CopyOk(s, id);
      BatchStored(g, step.w, id);
    }
    if id < |g.rows| {
      CommittedRow(g, step, id);
      if id in s.batch && step.Commit? {
        CopyWritten(g, step.w, id);
      }
    }
  }

  lemma CopyWritten(g: World, w: nat, id: nat)
    requires Inv(g) && Enabled(g, Commit(w)) && id in g.workers[w].batch && id !in g.tainted && id < |g.rows|
    ensures id in g.workers[w].local && Written(g.rows, g.workers[w])[id] == g.workers[w].local[id]
  {
    var s := g.workers[w];
    var k :| 0 <= k < |s.batch| && s.batch[k] == id;
    assert EntryOk(g.rows, s, k);
    MergedOwn(g.rows[id], s.local[id]);
  }

  /**
   * In every run an untainted row is stored as SENT exactly when it was inserted as SENT, or a worker received
   * an id for it and then committed.
   */
  lemma {:induction false} SentIff(worlds: seq<World>, steps: seq<Step>, i: nat, id: nat)
    requires IsRun(worlds, steps) && i < |worlds| && id !in worlds[i].tainted
    ensures StoredSent(worlds[i], id) <==> InsertedSent(worlds[i], id) || CommittedId(worlds, steps, i, id)
  {
    if i > 0 {
      assert Follows(worlds[i - 1], steps[i - 1], worlds[i]);
      TaintGrows(worlds[i - 1], steps[i - 1]);
      SentIff(worlds, steps, i - 1, id);
      StoredStep(worlds, steps, i - 1, id);
      CommittedNext(worlds, steps, i - 1, id);
    }
  }

  lemma StoredStep(worlds: seq<World>, steps: seq<Step>, i: nat, id: nat)
    requires IsRun(worlds, steps) && i < |steps| && id !in worlds[i + 1].tainted
    ensures (StoredSent(worlds[i + 1], id) <==> InsertedSent(worlds[i + 1], id) || CommitsId(worlds, steps, i, id)
                                                || StoredSent(worlds[i], id))
    ensures InsertedSent(worlds[i + 1], id) && !InsertedSent(worlds[i], id) ==> StoredSent(worlds[i + 1], id)
    ensures InsertedSent(worlds[i], id) ==> InsertedSent(worlds[i + 1], id)
  {
    assert Follows(worlds[i], steps[i], worlds[i + 1]);
    RunKeepsInv(worlds, steps, i);
    TaintGrows(worlds[i], steps[i]);
    CommitBrings(worlds, steps, i, id);
    StoredNext(worlds[i], steps[i], worlds[i + 1], id);
    SentStays(worlds[i], steps[i], id);
  }

  /** A row inserted as sent is stored as sent. */
  lemma SentStays(g: World, step: Step, id: nat)
    requires Inv(g) && Enabled(g, step) && id !in g.tainted
    ensures InsertedSent(g, id) ==> StoredSent(g, id)
  {
    assert id < |g.rows| ==> RowOk(g.inserted[id], g.rows[id]);
  }

  lemma CommitBrings(worlds: seq<World>, steps: seq<Step>, i: nat, id: nat)
    requires IsRun(worlds, steps) && i < |steps| && id !in worlds[i].tainted
    ensures CommitsId(worlds, steps, i, id) <==> steps[i].Commit? && CopySent(worlds[i], steps[i].w, id)
  {
    if steps[i].Commit? {
      CopySentIff(worlds, steps, i, steps[i].w, id);
    }
  }
}
