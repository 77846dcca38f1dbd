/** Every step of every worker keeps the invariant, and so does every run. */
module OutboxInvariant {
  import opened Outbox
  import opened OutboxProtocol

  // ---- counting open sends ----

  lemma {:induction false} OpenSendsUpdate(workers: seq<Session>, w: nat, s: Session, id: nat)
    requires w < |workers|
    ensures OpenSends(workers[w := s], id) == OpenSends(workers, id) - SentIn(workers[w], id) + SentIn(s, id)
  {
    var n := |workers| - 1;
    if w == n {
      assert workers[w := s][..n] == workers[..n];
    } else {
      assert workers[w := s][..n] == workers[..n][w := s];
      OpenSendsUpdate(workers[..n], w, s, id);
    }
  }

  lemma {:induction false} NoOpenSends(workers: seq<Session>, id: nat)
    requires forall w :: 0 <= w < |workers| ==> SentIn(workers[w], id) == 0
    ensures OpenSends(workers, id) == 0
  {
    if workers != [] {
      NoOpenSends(workers[..|workers| - 1], id);
    }
  }

  /** At most one open transaction holds a send of the row. */
  lemma OpenSendsOfOne(workers: seq<Session>, w: nat, id: nat)
    requires w < |workers| && forall v :: 0 <= v < |workers| && v != w ==> SentIn(workers[v], id) == 0
    ensures OpenSends(workers, id) == SentIn(workers[w], id)
  {
    var others := workers[w := Idle];
    forall v | 0 <= v < |others| ensures SentIn(others[v], id) == 0 {
      assert v != w ==> others[v] == workers[v];
    }
    NoOpenSends(others, id);
    OpenSendsUpdate(workers, w, Idle, id);
  }

  lemma {:induction false} LockedIs(workers: seq<Session>, w: nat, x: nat)
    requires w < |workers| && x in Held(workers[w])
    ensures x in Locked(workers)
  {
    if w < |workers| - 1 {
      LockedIs(workers[..|workers| - 1], w, x);
    }
  }

  // ---- every step keeps the invariant: the worker's own session ----

  lemma PickedOk(g: World, step: Step)
    requires Inv(g) && Enabled(g, step) && step.Pick?
    ensures SessionOk(g.rows, g.tainted, Advanced(g, step))
  {
    var s' := Advanced(g, step);
    if s'.Busy? {
      forall k | 0 <= k < |s'.batch| ensures s'.batch[k] < |g.rows| && EntryOk(g.rows, s', k) {
        assert Free(g.rows, Locked(g.workers), step.now, s'.batch[k]);
      }
    }
  }

  /** A refusal, an attempt or an answer. */
  predicate WorksOnRow(step: Step) {
    step.Refuse? || step.Attempt? || step.Deliver?
  }

  lemma CopyWorked(g: World, step: Step)
    requires Inv(g) && Enabled(g, step) && WorksOnRow(step)
    ensures Shaped(g.rows, Advanced(g, step))
  {
    var s, s' := g.workers[step.w], Advanced(g, step);
    forall x | x in s'.local ensures CopyOk(s', x) {
      if x != Current(s) {
        assert CopyOk(s, x);
      }
    }
  }

  lemma EntryWorked(g: World, step: Step, k: nat)
    requires Inv(g) && Enabled(g, step) && WorksOnRow(step)
    requires var s := g.workers[step.w]; k < |s.batch| && s.batch[k] !in g.tainted
    ensures EntryOk(g.rows, Advanced(g, step), k)
  {
    var s := g.workers[step.w];
    assert EntryOk(g.rows, s, k);
    if k != s.done {
      assert s.batch[k] != Current(s);
    }
  }

  lemma AdvancedOk(g: World, step: Step)
    requires Inv(g) && Enabled(g, step) && (WorksOnRow(step) || step.Pick?)
    ensures SessionOk(g.rows, g.tainted, Advanced(g, step))
  {
    if step.Pick? {
      PickedOk(g, step);
    } else {
      CopyWorked(g, step);
      var s' := Advanced(g, step);
      forall k | 0 <= k < |s'.batch| && s'.batch[k] !in g.tainted ensures EntryOk(g.rows, s', k) {
        EntryWorked(g, step, k);
      }
    }
  }

  // ---- every step keeps the invariant: two sessions ----

  lemma UntaintedHeld(g: World, v: nat, x: nat)
    requires Inv(g) && BusyAt(g, v) && x in g.workers[v].batch
    ensures x in g.tainted || x in g.workers[v].held
  {
    var s := g.workers[v];
    var k :| 0 <= k < |s.batch| && s.batch[k] == x;
    assert x !in g.tainted ==> EntryOk(g.rows, s, k);
  }

  lemma PickApart(g: World, step: Step, v: nat)
    requires Inv(g) && Enabled(g, step) && step.Pick? && v < |g.workers| && v != step.w
    ensures Apart(g.tainted, g.workers[v], Advanced(g, step))
  {
    var s, s' := g.workers[v], Advanced(g, step);
    if s.Busy? && s'.Busy? {
      forall x | x in s'.batch ensures x !in s.held {
        var k :| 0 <= k < |s'.batch| && s'.batch[k] == x;
        assert Free(g.rows, Locked(g.workers), step.now, s'.batch[k]);
        if x in s.held {
          LockedIs(g.workers, v, x);
        }
      }
      forall x | x in s'.batch && x in s.batch ensures x in g.tainted {
        UntaintedHeld(g, v, x);
      }
    }
  }

  lemma ApartKept(g: World, step: Step, v: nat)
    requires Inv(g) && Enabled(g, step) && !OfInserter(step) && v < |g.workers| && v != step.w
    ensures Apart(Next(g, step).tainted, g.workers[v], Advanced(g, step))
    ensures Apart(Next(g, step).tainted, Advanced(g, step), g.workers[v])
  {
    if step.Pick? {
      PickApart(g, step, v);
    } else {
      assert Apart(g.tainted, g.workers[v], g.workers[step.w]);
    }
  }

  lemma AdvancedApart(g: World, step: Step)
    requires Inv(g) && Enabled(g, step) && !OfInserter(step)
    ensures SessionsApart(Next(g, step).tainted, Next(g, step).workers)
  {
    var g' := Next(g, step);
    forall v, u | 0 <= v < |g'.workers| && 0 <= u < |g'.workers| && v != u
      ensures Apart(g'.tainted, g'.workers[v], g'.workers[u]) {
      if v == step.w {
        ApartKept(g, step, u);
      } else if u == step.w {
        ApartKept(g, step, v);
      } else {
        assert Apart(g.tainted, g.workers[v], g.workers[u]);
      }
    }
  }

  // ---- every step keeps the invariant: all sessions ----

  /** A session whose untainted rows kept their committed versions stays sound. */
  lemma SessionKept(rows: seq<Row>, rows': seq<Row>, tainted: set<nat>, tainted': set<nat>, s: Session)
    requires SessionOk(rows, tainted, s) && |rows| <= |rows'| && tainted <= tainted'
    requires s.Busy? ==> forall x :: x in s.batch && x < |rows| && x !in tainted' ==> rows'[x] == rows[x]
    ensures SessionOk(rows', tainted', s)
  {
    if s.Busy? {
      forall k | 0 <= k < |s.batch| && s.batch[k] !in tainted' ensures EntryOk(rows', s, k) {
        assert EntryOk(rows, s, k) && s.batch[k] in s.batch;
      }
    }
  }

  lemma OthersKept(g: World, step: Step, v: nat)
    requires Inv(g) && Enabled(g, step) && v < |g.workers| && (OfInserter(step) || v != step.w)
    ensures SessionOk(Next(g, step).rows, Next(g, step).tainted, g.workers[v])
  {
    var g' := Next(g, step);
    if step.Commit? || step.Revoke? {
      assert Apart(g.tainted, g.workers[v], g.workers[step.w]);
      assert forall x :: x in g.workers[step.w].local ==> CopyOk(g.workers[step.w], x);
    }
    SessionKept(g.rows, g'.rows, g.tainted, g'.tainted, g.workers[v]);
  }

  lemma RevokedOk(g: World, step: Step)
    requires Inv(g) && Enabled(g, step) && step.Revoke?
    ensures SessionOk(Next(g, step).rows, Next(g, step).tainted, Advanced(g, step))
  {
    var s' := Advanced(g, step);
    assert forall k :: 0 <= k < |s'.batch| ==> s'.batch[k] in Ids(s'.batch);
  }

  lemma SessionsKept(g: World, step: Step)
    requires Inv(g) && Enabled(g, step)
    ensures var g' := Next(g, step);
            forall v :: 0 <= v < |g'.workers| ==> SessionOk(g'.rows, g'.tainted, g'.workers[v])
  {
    var g' := Next(g, step);
    forall v | 0 <= v < |g'.workers| ensures SessionOk(g'.rows, g'.tainted, g'.workers[v]) {
      if OfInserter(step) || v != step.w {
        OthersKept(g, step, v);
      } else if step.Revoke? {
        RevokedOk(g, step);
      } else if WorksOnRow(step) || step.Pick? {
        AdvancedOk(g, step);
      }
    }
  }

  // ---- every step keeps the invariant: rows and accounts ----

  lemma MergedOwn(stored: Row, mine: Row)
    requires mine.maxAttempts == stored.maxAttempts
    ensures Merged(stored, mine, stored) == mine
  {
  }

  /** What a commit, at the end or half-way, does to one untainted row. */
  lemma CommittedRow(g: World, step: Step, id: nat)
    requires Inv(g) && Enabled(g, step) && (step.Commit? || step.Revoke?)
    requires id < |g.rows| && id !in Next(g, step).tainted
    ensures var s, r' := g.workers[step.w], Written(g.rows, g.workers[step.w])[id];
            && (id in s.batch ==> step.Commit? && Pickable(g.rows[id]) && LocalOk(g.rows[id], r', id in s.sent))
            && (id !in s.batch ==> r' == g.rows[id] && id !in s.sent)
  {
    var s := g.workers[step.w];
    if id in s.batch {
      var k :| 0 <= k < |s.batch| && s.batch[k] == id;
      assert EntryOk(g.rows, s, k);
      MergedOwn(g.rows[id], s.local[id]);
    } else {
      assert id in s.local ==> CopyOk(s, id);
    }
  }

  lemma RowKept(g: World, step: Step, id: nat)
    requires Inv(g) && Enabled(g, step) && id < |Next(g, step).rows| && id !in Next(g, step).tainted
    ensures RowOk(Next(g, step).inserted[id], Next(g, step).rows[id])
  {
    if step.Commit? || step.Revoke? {
      CommittedRow(g, step, id);
    }
  }

  /** A row sent in an open transaction is in that batch. */
  lemma SentExists(g: World, w: nat, id: nat)
    requires Inv(g) && w < |g.workers|
    ensures SentIn(g.workers[w], id) == 1 ==> id < |g.rows| && id in g.workers[w].batch
    ensures SentIn(g.workers[w], id) == 1 && id !in g.tainted ==> Pickable(g.rows[id])
  {
    var s := g.workers[w];
    if SentIn(s, id) == 1 {
      var k :| 0 <= k < |s.batch| && s.batch[k] == id;
      assert id !in g.tainted ==> EntryOk(g.rows, s, k);
    }
  }

  lemma NewRowAccounted(g: World, step: Step)
    requires Inv(g) && Enabled(g, step) && step.Insert?
    ensures SameSizes(Next(g, step)) && Accounted(Next(g, step), |g.rows|)
  {
    forall w | 0 <= w < |g.workers| ensures SentIn(g.workers[w], |g.rows|) == 0 {
      SentExists(g, w, |g.rows|);
    }
    NoOpenSends(g.workers, |g.rows|);
  }

  lemma AccountKept(g: World, step: Step, id: nat)
    requires Inv(g) && Enabled(g, step) && id < |Next(g, step).rows| && id !in Next(g, step).tainted
    ensures SameSizes(Next(g, step)) && Accounted(Next(g, step), id)
  {
    if OfInserter(step) {
      if id == |g.rows| {
        NewRowAccounted(g, step);
      } else {
        assert Accounted(g, id);
      }
    } else {
      WorkerAccountKept(g, step, id);
    }
  }

  lemma WorkerAccountKept(g: World, step: Step, id: nat)
    requires Inv(g) && Enabled(g, step) && !OfInserter(step) && id < |g.rows| && id !in Next(g, step).tainted
    ensures SameSizes(Next(g, step)) && Accounted(Next(g, step), id)
  {
    assert Accounted(g, id);
    var s, s' := g.workers[step.w], Advanced(g, step);
    OpenSendsUpdate(g.workers, step.w, s', id);
    if step.Commit? || step.Revoke? {
      CommittedRow(g, step, id);
    } else if step.Attempt? && id == Current(s) {
      assert EntryOk(g.rows, s, s.done);
    }
  }

  lemma StepKeepsInv(g: World, step: Step)
    requires Inv(g) && Enabled(g, step)
    ensures Inv(Next(g, step))
  {
    var g' := Next(g, step);
    SessionsKept(g, step);
    if !OfInserter(step) {
      AdvancedApart(g, step);
    }
    forall id | 0 <= id < |g'.rows| && id !in g'.tainted
      ensures RowOk(g'.inserted[id], g'.rows[id]) && SameSizes(g') && Accounted(g', id) {
      RowKept(g, step, id);
      AccountKept(g, step, id);
    }
  }

  // ---- runs ----

  /** The second chain without its first world continues the first. */
  lemma ChainConcat(a: seq<World>, s: seq<Step>, b: seq<World>, t: seq<Step>)
    requires Chain(a, s) && Chain(b, t) && a[|a| - 1] == b[0]
    ensures Chain(a + b[1..], s + t) && (a + b[1..])[|s + t|] == b[|b| - 1]
  {
    var worlds, steps := a + b[1..], s + t;
    forall i | 0 <= i < |steps| ensures Follows(worlds[i], steps[i], worlds[i + 1]) {
      if i < |s| {
        assert Follows(a[i], s[i], a[i + 1]);
      } else {
        assert Follows(b[i - |s|], t[i - |s|], b[i - |s| + 1]);
        assert worlds[i] == b[i - |s|] && worlds[i + 1] == b[i - |s| + 1];
      }
    }
  }

  /** Every interleaving keeps the invariant: sound untainted rows, their exact accounts, disjoint locks. */
  lemma {:induction false} RunKeepsInv(worlds: seq<World>, steps: seq<Step>, i: nat)
    requires IsRun(worlds, steps) && i < |worlds|
    ensures Inv(worlds[i])
  {
    if i > 0 {
      RunKeepsInv(worlds, steps, i - 1);
      assert Follows(worlds[i - 1], steps[i - 1], worlds[i]);
      StepKeepsInv(worlds[i - 1], steps[i - 1]);
    }
  }

  lemma PairApart(g: World, v: nat, w: nat)
    requires Inv(g) && v < |g.workers| && w < |g.workers|
    ensures v == w || Apart(g.tainted, g.workers[v], g.workers[w])
  {
  }
}
