/**
 * A worker that nobody disturbs: its steps from pick to commit write what one pass over the batch writes,
 * also when tokens are rejected on the way.
 */
module OutboxSolo {
  import opened Outbox
  import opened OutboxProtocol
  import opened OutboxInvariant

  /** A rejected token is a permanent error answered to a request. */
  predicate Possible(e: Encounter) {
    e.revoked ==> e.reach.Reachable? && e.result.Permanent?
  }

  /** The rest of the batch, from the k-th row on, is in memory and in the table as it was picked. */
  predicate Ahead(rows0: seq<Row>, rows: seq<Row>, s: Session, k: nat) {
    s.Busy? && forall j :: k <= j < |s.batch| ==>
      && s.batch[j] < |rows0| == |rows| == |s.base| && s.batch[j] !in s.local
      && s.base[s.batch[j]] == rows[s.batch[j]] == rows0[s.batch[j]]
  }

  /** The worker has worked off k rows: what a commit would write now is one pass over those rows. */
  ghost predicate WorkedOff(g: World, w: nat, rows0: seq<Row>, batch: seq<nat>, k: nat, world: nat -> Encounter) {
    && SameSizes(g) && BusyAt(g, w) && k <= |batch| && Distinct(batch)
    && var s := g.workers[w];
       && s.batch == batch && s.done == k && !s.sending && !s.rejected
       && |s.base| == |rows0| == |g.rows|
       && s.local.Keys <= Ids(batch)
       && Unheld(g.workers, w, Ids(batch))
       && Ahead(rows0, g.rows, s, k)
       && Written(g.rows, s) == After(rows0, batch, k, world)
  }

  /** The steps that work off one row: a refusal, or a request, maybe the commit after a rejected token, and the answer. */
  function RowSteps(w: nat, e: Encounter): seq<Step> {
    if !e.reach.Reachable? then [Refuse(w, e.reach)]
    else if e.revoked then [Attempt(w), Revoke(w), Deliver(w, e.result, e.at)]
    else [Attempt(w), Deliver(w, e.result, e.at)]
  }

  /** Writing differs from an earlier state in one row only, which is now processed. */
  lemma OneMoreRow(rows0: seq<Row>, batch: seq<nat>, k: nat, world: nat -> Encounter, before: seq<Row>, after: seq<Row>)
    requires k < |batch| && Distinct(batch) && batch[k] < |rows0|
    requires before == After(rows0, batch, k, world) && |after| == |before|
    requires forall i :: 0 <= i < |before| && i != batch[k] ==> after[i] == before[i]
    requires ProcessedOnce(rows0[batch[k]], after[batch[k]], world(k))
    ensures after == After(rows0, batch, k + 1, world)
  {
    assert batch[k] !in batch[..k];
    UntouchedAfter(rows0, batch, k, world, batch[k]);
  }

  lemma ProcessedMerges(r: Row, e: Encounter)
    ensures Merged(r, Processed(r, e.reach, e.result, e.at), r) == Processed(r, e.reach, e.result, e.at)
    ensures Merged(Attempted(r), Settled(Attempted(r), e.result, e.at), Attempted(r)) == Settled(Attempted(r), e.result, e.at)
    ensures Merged(r, Attempted(r), r) == Attempted(r)
  {
  }

  /** The copy of the current row was changed and nothing else. */
  lemma CopyChanged(rows0: seq<Row>, rows: seq<Row>, s: Session, s': Session, k: nat, world: nat -> Encounter)
    requires s.Busy? && s'.Busy? && s'.batch == s.batch && Distinct(s.batch) && s'.base == s.base
    requires |s.base| == |rows0| == |rows|
    requires k < |s.batch| && Ahead(rows0, rows, s, k) && Written(rows, s) == After(rows0, s.batch, k, world)
    requires var id := s.batch[k]; var e := world(k);
             s'.local == s.local[id := Processed(rows0[id], e.reach, e.result, e.at)]
    ensures Ahead(rows0, rows, s', k + 1) && Written(rows, s') == After(rows0, s.batch, k + 1, world)
  {
    var id := s.batch[k];
    ProcessedMerges(rows0[id], world(k));
    forall j | k + 1 <= j < |s.batch| ensures s.batch[j] != id {
    }
    OneMoreRow(rows0, s.batch, k, world, Written(rows, s), Written(rows, s'));
  }

  lemma RefuseRow(g: World, w: nat, rows0: seq<Row>, batch: seq<nat>, k: nat, world: nat -> Encounter)
    returns (worlds: seq<World>)
    requires WorkedOff(g, w, rows0, batch, k, world) && k < |batch| && !world(k).reach.Reachable?
    ensures Chain(worlds, RowSteps(w, world(k))) && worlds[0] == g
    ensures WorkedOff(worlds[|worlds| - 1], w, rows0, batch, k + 1, world)
  {
    var step := Refuse(w, world(k).reach);
    var g' := Next(g, step);
    CopyChanged(rows0, g.rows, g.workers[w], g'.workers[w], k, world);
    assert batch[k] in Ids(batch);
    assert Follows(g, step, g');
    worlds := [g, g'];
  }

  /** The request is out. */
  lemma AttemptRow(g: World, w: nat, rows0: seq<Row>, batch: seq<nat>, k: nat, world: nat -> Encounter)
    returns (mid: World)
    requires WorkedOff(g, w, rows0, batch, k, world) && k < |batch|
    ensures Follows(g, Attempt(w), mid) && SameSizes(mid)
    ensures var s, s' := g.workers[w], g.workers[w].(sending := true, held := g.workers[w].held + Flushed(g.workers[w]),
                          sent := g.workers[w].sent + {batch[k]}, local := g.workers[w].local[batch[k] := Attempted(rows0[batch[k]])]);
            mid.rows == g.rows && mid.workers == g.workers[w := s']
  {
    assert batch[k] in Ids(batch);
    assert Flushed(g.workers[w]) <= Ids(batch);
    assert Unheld(g.workers, w, Flushed(g.workers[w]));
    mid := Next(g, Attempt(w));
  }

  lemma SendRow(g: World, w: nat, rows0: seq<Row>, batch: seq<nat>, k: nat, world: nat -> Encounter)
    returns (worlds: seq<World>)
    requires WorkedOff(g, w, rows0, batch, k, world) && k < |batch| && world(k).reach.Reachable? && !world(k).revoked
    ensures Chain(worlds, RowSteps(w, world(k))) && worlds[0] == g
    ensures WorkedOff(worlds[|worlds| - 1], w, rows0, batch, k + 1, world)
  {
    var mid := AttemptRow(g, w, rows0, batch, k, world);
    var step := Deliver(w, world(k).result, world(k).at);
    var g' := Next(mid, step);
    CopyChanged(rows0, g.rows, g.workers[w], g'.workers[w], k, world);
    assert batch[k] in Ids(batch);
    assert Follows(mid, step, g');
    worlds := [g, mid, g'];
  }

  /** After the commit half-way the worker starts from what it committed. */
  lemma RevokedMid(rows0: seq<Row>, rows: seq<Row>, s: Session, t: Session, k: nat, world: nat -> Encounter)
    requires s.Busy? && t.Busy? && t.batch == s.batch && Distinct(s.batch) && t.base == s.base
    requires |s.base| == |rows0| == |rows|
    requires k < |s.batch| && Ahead(rows0, rows, s, k) && Written(rows, s) == After(rows0, s.batch, k, world)
    requires t.local == s.local[s.batch[k] := Attempted(rows0[s.batch[k]])]
    ensures forall i :: 0 <= i < |rows| && i != s.batch[k] ==> Written(rows, t)[i] == After(rows0, s.batch, k, world)[i]
    ensures Written(rows, t)[s.batch[k]] == Remembered(t)[s.batch[k]] == Attempted(rows0[s.batch[k]])
    ensures forall j :: k < j < |s.batch| ==>
              Written(rows, t)[s.batch[j]] == Remembered(t)[s.batch[j]] == rows0[s.batch[j]]
  {
    ProcessedMerges(rows0[s.batch[k]], world(k));
    forall i | 0 <= i < |rows| && i != s.batch[k] ensures WrittenAt(rows, t, i) == WrittenAt(rows, s, i) {
    }
  }

  lemma RevokedAnswered(rows0: seq<Row>, rows: seq<Row>, s: Session, k: nat, world: nat -> Encounter)
    requires s.Busy? && k < |s.batch| && Distinct(s.batch) && |s.base| == |rows0| == |rows| && world(k).reach.Reachable?
    requires forall j :: k <= j < |s.batch| ==> s.batch[j] < |rows0|
    requires forall i :: 0 <= i < |rows| && i != s.batch[k] ==> rows[i] == After(rows0, s.batch, k, world)[i]
    requires rows[s.batch[k]] == s.base[s.batch[k]] == Attempted(rows0[s.batch[k]])
    requires forall j :: k < j < |s.batch| ==> rows[s.batch[j]] == s.base[s.batch[j]] == rows0[s.batch[j]]
    requires s.local == map[s.batch[k] := Settled(Attempted(rows0[s.batch[k]]), world(k).result, world(k).at)]
    ensures Ahead(rows0, rows, s, k + 1) && Written(rows, s) == After(rows0, s.batch, k + 1, world)
  {
    ProcessedMerges(rows0[s.batch[k]], world(k));
    forall j | k + 1 <= j < |s.batch| ensures s.batch[j] != s.batch[k] {
    }
    OneMoreRow(rows0, s.batch, k, world, After(rows0, s.batch, k, world), Written(rows, s));
  }

  lemma RevokeRow(g: World, w: nat, rows0: seq<Row>, batch: seq<nat>, k: nat, world: nat -> Encounter)
    returns (worlds: seq<World>)
    requires WorkedOff(g, w, rows0, batch, k, world) && k < |batch| && world(k).revoked && Possible(world(k))
    ensures Chain(worlds, RowSteps(w, world(k))) && worlds[0] == g
    ensures WorkedOff(worlds[|worlds| - 1], w, rows0, batch, k + 1, world)
  {
    var mid := AttemptRow(g, w, rows0, batch, k, world);
    var half := Next(mid, Revoke(w));
    var step := Deliver(w, world(k).result, world(k).at);
    var g' := Next(half, step);
    RevokedMid(rows0, g.rows, g.workers[w], mid.workers[w], k, world);
    RevokedAnswered(rows0, g'.rows, g'.workers[w], k, world);
    assert batch[k] in Ids(batch);
    assert Follows(mid, Revoke(w), half) && Follows(half, step, g');
    worlds := [g, mid, half, g'];
  }

  lemma WorkRow(g: World, w: nat, rows0: seq<Row>, batch: seq<nat>, k: nat, world: nat -> Encounter)
    returns (worlds: seq<World>)
    requires WorkedOff(g, w, rows0, batch, k, world) && k < |batch| && Possible(world(k))
    ensures Chain(worlds, RowSteps(w, world(k))) && worlds[0] == g
    ensures WorkedOff(worlds[|worlds| - 1], w, rows0, batch, k + 1, world)
  {
    if !world(k).reach.Reachable? {
      worlds := RefuseRow(g, w, rows0, batch, k, world);
    } else if world(k).revoked {
      worlds := RevokeRow(g, w, rows0, batch, k, world);
    } else {
      worlds := SendRow(g, w, rows0, batch, k, world);
    }
  }

  /** The steps for the rows of the batch from the k-th on. */
  function BatchSteps(w: nat, batch: seq<nat>, k: nat, world: nat -> Encounter): seq<Step>
    requires k <= |batch|
    decreases |batch| - k
  {
    if k == |batch| then [] else RowSteps(w, world(k)) + BatchSteps(w, batch, k + 1, world)
  }

  lemma {:induction false} WorkRows(g: World, w: nat, rows0: seq<Row>, batch: seq<nat>, k: nat, world: nat -> Encounter)
    returns (worlds: seq<World>)
    requires WorkedOff(g, w, rows0, batch, k, world) && forall j :: 0 <= j < |batch| ==> Possible(world(j))
    ensures Chain(worlds, BatchSteps(w, batch, k, world)) && worlds[0] == g
    ensures WorkedOff(worlds[|worlds| - 1], w, rows0, batch, |batch|, world)
    decreases |batch| - k
  {
    if k == |batch| {
      worlds := [g];
    } else {
      var first := WorkRow(g, w, rows0, batch, k, world);
      var rest := WorkRows(first[|first| - 1], w, rows0, batch, k + 1, world);
      ChainConcat(first, RowSteps(w, world(k)), rest, BatchSteps(w, batch, k + 1, world));
      worlds := first + rest[1..];
    }
  }

  lemma ChainAfter(g: World, s: Step, rest: seq<World>, steps: seq<Step>)
    requires Chain(rest, steps) && Follows(g, s, rest[0])
    ensures Chain([g] + rest, [s] + steps)
  {
    var worlds, all := [g] + rest, [s] + steps;
    forall i | 0 <= i < |all| ensures Follows(worlds[i], all[i], worlds[i + 1]) {
      assert i > 0 ==> Follows(rest[i - 1], steps[i - 1], rest[i]);
    }
  }

  lemma ChainBefore(front: seq<World>, steps: seq<Step>, t: Step, done: World)
    requires Chain(front, steps) && Follows(front[|front| - 1], t, done)
    ensures Chain(front + [done], steps + [t])
  {
    var worlds, all := front + [done], steps + [t];
    forall i | 0 <= i < |all| ensures Follows(worlds[i], all[i], worlds[i + 1]) {
      assert i < |steps| ==> Follows(front[i], steps[i], front[i + 1]);
    }
  }

  lemma {:induction false} NotLocked(workers: seq<Session>, x: nat)
    requires x !in Locked(workers)
    ensures forall v :: 0 <= v < |workers| ==> x !in Held(workers[v])
  {
    forall v | 0 <= v < |workers| ensures x !in Held(workers[v]) {
      if x in Held(workers[v]) {
        LockedIs(workers, v, x);
      }
    }
  }

  lemma PickedFree(g: World, w: nat, now: int, batch: seq<nat>)
    requires IsPick(g.rows, Locked(g.workers), now, batch)
    ensures Unheld(g.workers, w, Ids(batch)) && forall j :: 0 <= j < |batch| ==> batch[j] < |g.rows|
  {
    forall j | 0 <= j < |batch| ensures batch[j] < |g.rows| && batch[j] !in Locked(g.workers) {
      assert Free(g.rows, Locked(g.workers), now, batch[j]);
    }
    forall v, x | 0 <= v < |g.workers| && x in Ids(batch) ensures x !in Held(g.workers[v]) {
      NotLocked(g.workers, x);
    }
  }

  /**
   * A worker that is left alone from its pick to its commit leaves the table as processing the batch in
   * one pass does, whatever locks other workers hold and whatever tokens are rejected.
   */
  lemma LoneBatch(g: World, w: nat, now: int, batch: seq<nat>, world: nat -> Encounter) returns (worlds: seq<World>)
    requires SameSizes(g) && Enabled(g, Pick(w, now, batch)) && batch != []
    requires forall j :: 0 <= j < |batch| ==> Possible(world(j))
    ensures Chain(worlds, [Pick(w, now, batch)] + BatchSteps(w, batch, 0, world) + [Commit(w)])
    ensures worlds[0] == g && worlds[|worlds| - 1].rows == After(g.rows, batch, |batch|, world)
  {
    var picked := Next(g, Pick(w, now, batch));
    PickedFree(g, w, now, batch);
    assert Written(picked.rows, picked.workers[w]) == g.rows;
    assert WorkedOff(picked, w, g.rows, batch, 0, world);
    var middle := WorkRows(picked, w, g.rows, batch, 0, world);
    var last := middle[|middle| - 1];
    var done := Next(last, Commit(w));
    ChainAfter(g, Pick(w, now, batch), middle, BatchSteps(w, batch, 0, world));
    ChainBefore([g] + middle, [Pick(w, now, batch)] + BatchSteps(w, batch, 0, world), Commit(w), done);
    worlds := [g] + middle + [done];
  }
}
