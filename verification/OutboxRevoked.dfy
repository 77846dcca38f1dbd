/** Two runs that a rejected token makes possible: a message sent twice without any crash, and a row stranded. */
module OutboxRevoked {
  import opened Outbox
  import opened OutboxProtocol
  import opened OutboxInvariant
  import opened OutboxLaws

  /** Two due rows; the token of the first one's business has been revoked. */
  predicate BothDue(r0: Row, r1: Row, now: int) {
    Pickable(r0) && Pickable(r1) && r0.attempts >= 0 && r1.attempts >= 0 && r0.scheduledAt <= r1.scheduledAt <= now
  }

  // ---- up to the commit inside the send path ----

  function Table(rows: seq<Row>, workers: seq<Session>): World {
    World(rows, workers, rows, seq(|rows|, _ => 0), seq(|rows|, _ => 0), {}, {})
  }

  function Picked(r0: Row, r1: Row): Session {
    Busy([0, 1], 0, false, false, {0, 1}, [r0, r1], map[], {})
  }

  function InSend(r0: Row, r1: Row): World {
    World([r0, r1],
          [Busy([0, 1], 0, true, false, {0, 1}, [r0, r1], map[0 := Attempted(r0)], {0}), Idle],
          [r0, r1], [1, 0], [0, 0], {}, {})
  }

  function Halfway(r0: Row, r1: Row): World {
    World([Attempted(r0), r1],
          [Busy([0, 1], 0, true, true, {}, [Attempted(r0), r1], map[], {}), Idle],
          [r0, r1], [1, 0], [0, 0], {}, {0, 1})
  }

  lemma NothingLocked(s: Session)
    requires Held(s) == {}
    ensures Locked([s, Idle]) == {}
  {
    assert Locked([s]) == Locked([s][..0]) + Held(s);
    assert [s, Idle][..1] == [s];
  }

  lemma PickBoth(r0: Row, r1: Row, now: int)
    requires BothDue(r0, r1, now)
    ensures Follows(Table([r0, r1], [Idle, Idle]), Pick(0, now, [0, 1]), Table([r0, r1], [Picked(r0, r1), Idle]))
  {
    var workers := [Idle, Idle];
    NothingLocked(Idle);
    assert IsPick([r0, r1], {}, now, [0, 1]);
    assert Ids([0, 1]) == {0, 1};
    assert workers[0 := Picked(r0, r1)] == [Picked(r0, r1), Idle];
  }

  lemma AttemptFirst(r0: Row, r1: Row)
    ensures Follows(Table([r0, r1], [Picked(r0, r1), Idle]), Attempt(0), InSend(r0, r1))
  {
    var g := Table([r0, r1], [Picked(r0, r1), Idle]);
    assert Flushed(g.workers[0]) == {0};
    assert Unheld(g.workers, 0, {0});
    assert g.sends[0 := g.sends[0] + 1] == [1, 0];
    assert g.aborted == [0, 0];
    assert {0, 1} + {0} == {0, 1} && {} + {0} == {0};
    assert Next(g, Attempt(0)).workers == InSend(r0, r1).workers;
  }

  lemma RevokeFirst(r0: Row, r1: Row)
    ensures Follows(InSend(r0, r1), Revoke(0), Halfway(r0, r1))
  {
    var g := InSend(r0, r1);
    MergedOwn(r0, Attempted(r0));
    assert Written(g.rows, g.workers[0]) == [Attempted(r0), r1];
    assert Remembered(g.workers[0]) == [Attempted(r0), r1];
    assert {} + Ids([0, 1]) == {0, 1};
    assert Next(g, Revoke(0)).workers == Halfway(r0, r1).workers;
  }

  function Opening(r0: Row, r1: Row, now: int): seq<Step> {
    [Insert(r0), Insert(r1), Pick(0, now, [0, 1]), Attempt(0), Revoke(0)]
  }

  function OpeningWorlds(r0: Row, r1: Row): seq<World> {
    [Table([], [Idle, Idle]), Table([r0], [Idle, Idle]), Table([r0, r1], [Idle, Idle]),
     Table([r0, r1], [Picked(r0, r1), Idle]), InSend(r0, r1), Halfway(r0, r1)]
  }

  lemma InsertNext(rows: seq<Row>, r: Row)
    requires Insertable(r)
    ensures Follows(Table(rows, [Idle, Idle]), Insert(r), Table(rows + [r], [Idle, Idle]))
  {
    var g := Table(rows, [Idle, Idle]);
    assert g.sends + [0] == seq(|rows + [r]|, _ => 0);
    assert g.aborted + [0] == seq(|rows + [r]|, _ => 0);
  }

  lemma InsertBoth(r0: Row, r1: Row)
    requires Insertable(r0) && Insertable(r1)
    ensures Follows(Table([], [Idle, Idle]), Insert(r0), Table([r0], [Idle, Idle]))
    ensures Follows(Table([r0], [Idle, Idle]), Insert(r1), Table([r0, r1], [Idle, Idle]))
  {
    InsertNext([], r0);
    assert [] + [r0] == [r0];
    InsertNext([r0], r1);
    assert [r0] + [r1] == [r0, r1];
  }

  lemma OpeningRun(r0: Row, r1: Row, now: int)
    requires BothDue(r0, r1, now)
    ensures IsRun(OpeningWorlds(r0, r1), Opening(r0, r1, now))
  {
    InsertBoth(r0, r1);
    PickBoth(r0, r1, now);
    AttemptFirst(r0, r1);
    RevokeFirst(r0, r1);
  }

  // ---- the second worker sends the second row ----

  /** How the first worker stands after the commit. */
  function Lapsed(r0: Row, r1: Row): Session {
    Busy([0, 1], 0, true, true, {}, [Attempted(r0), r1], map[], {})
  }

  function SentBy(r1: Row, id: string, at: int): Row {
    Settled(Attempted(r1), Delivered(id), at)
  }

  function Other(r0: Row, r1: Row, done: nat, sending: bool, local: map<nat, Row>, sent: set<nat>): Session {
    Busy([1], done, sending, false, {1}, [Attempted(r0), r1], local, sent)
  }

  function Shared(r0: Row, r1: Row): World {
    Halfway(r0, r1).(workers := [Lapsed(r0, r1), Other(r0, r1, 0, false, map[], {})])
  }

  function SharedSend(r0: Row, r1: Row): World {
    Halfway(r0, r1).(workers := [Lapsed(r0, r1), Other(r0, r1, 0, true, map[1 := Attempted(r1)], {1})], sends := [1, 1])
  }

  function SharedSent(r0: Row, r1: Row, id: string, at: int): World {
    Halfway(r0, r1).(
      workers := [Lapsed(r0, r1), Other(r0, r1, 1, false, map[1 := SentBy(r1, id, at)], {1})], sends := [1, 1])
  }

  function SentOnce(r0: Row, r1: Row, id: string, at: int): World {
    Halfway(r0, r1).(rows := [Attempted(r0), SentBy(r1, id, at)], sends := [1, 1])
  }

  lemma PickSecond(r0: Row, r1: Row, now: int)
    requires BothDue(r0, r1, now)
    ensures Follows(Halfway(r0, r1), Pick(1, now, [1]), Shared(r0, r1))
  {
    var g := Halfway(r0, r1);
    NothingLocked(Lapsed(r0, r1));
    assert g.workers == [Lapsed(r0, r1), Idle];
    assert IsPick(g.rows, {}, now, [1]);
    assert Ids([1]) == {1};
    assert Next(g, Pick(1, now, [1])).workers == Shared(r0, r1).workers;
  }

  lemma AttemptSecond(r0: Row, r1: Row)
    ensures Follows(Shared(r0, r1), Attempt(1), SharedSend(r0, r1))
  {
    var g := Shared(r0, r1);
    assert Flushed(g.workers[1]) == {1} && {1} + {1} == {1} && {} + {1} == {1};
    assert Unheld(g.workers, 1, {1});
    assert Next(g, Attempt(1)).workers == SharedSend(r0, r1).workers;
  }

  lemma DeliverSecond(r0: Row, r1: Row, id: string, at: int)
    ensures Follows(SharedSend(r0, r1), Deliver(1, Delivered(id), at), SharedSent(r0, r1, id, at))
  {
    var g, step := SharedSend(r0, r1), Deliver(1, Delivered(id), at);
    assert g.workers[1].local[1 := SentBy(r1, id, at)] == map[1 := SentBy(r1, id, at)];
    assert Next(g, step).workers == SharedSent(r0, r1, id, at).workers;
  }

  lemma CommitSecond(r0: Row, r1: Row, id: string, at: int)
    ensures Follows(SharedSent(r0, r1, id, at), Commit(1), SentOnce(r0, r1, id, at))
  {
    var g := SharedSent(r0, r1, id, at);
    MergedOwn(r1, SentBy(r1, id, at));
    assert Unheld(g.workers, 1, g.workers[1].local.Keys);
    assert Written(g.rows, g.workers[1]) == [Attempted(r0), SentBy(r1, id, at)];
    assert Next(g, Commit(1)).workers == SentOnce(r0, r1, id, at).workers;
  }

  // ---- the first worker goes on ----

  function Refusal(r0: Row, error: string, at: int): Row {
    Settled(Attempted(r0), Permanent(error), at)
  }

  function GoesOn(r0: Row, r1: Row, done: nat, sending: bool, held: set<nat>, local: map<nat, Row>, sent: set<nat>): Session {
    Busy([0, 1], done, sending, false, held, [Attempted(r0), r1], local, sent)
  }

  function Resumed(r0: Row, r1: Row, id: string, at: int, error: string): World {
    SentOnce(r0, r1, id, at).(
      workers := [GoesOn(r0, r1, 1, false, {}, map[0 := Refusal(r0, error, at)], {}), Idle])
  }

  function Resent(r0: Row, r1: Row, id: string, at: int, error: string): World {
    SentOnce(r0, r1, id, at).(
      workers := [GoesOn(r0, r1, 1, true, {0, 1}, map[0 := Refusal(r0, error, at), 1 := Attempted(r1)], {1}), Idle],
      sends := [1, 2])
  }

  function Answered(r0: Row, r1: Row, id: string, at: int, error: string, second: SendResult): World {
    SentOnce(r0, r1, id, at).(
      workers := [GoesOn(r0, r1, 2, false, {0, 1},
                         map[0 := Refusal(r0, error, at), 1 := Settled(Attempted(r1), second, at)], {1}), Idle],
      sends := [1, 2])
  }

  function Overwritten(r0: Row, r1: Row, id: string, at: int, error: string, second: SendResult): World {
    SentOnce(r0, r1, id, at).(
      rows := [Merged(Attempted(r0), Refusal(r0, error, at), Attempted(r0)),
               Merged(r1, Settled(Attempted(r1), second, at), SentBy(r1, id, at))],
      workers := [Idle, Idle], sends := [1, 2])
  }

  lemma Resume(r0: Row, r1: Row, id: string, at: int, error: string)
    ensures Follows(SentOnce(r0, r1, id, at), Deliver(0, Permanent(error), at), Resumed(r0, r1, id, at, error))
  {
    var g, step := SentOnce(r0, r1, id, at), Deliver(0, Permanent(error), at);
    assert Next(g, step).workers == Resumed(r0, r1, id, at, error).workers;
  }

  lemma Resend(r0: Row, r1: Row, id: string, at: int, error: string)
    ensures Follows(Resumed(r0, r1, id, at, error), Attempt(0), Resent(r0, r1, id, at, error))
  {
    var g := Resumed(r0, r1, id, at, error);
    assert Flushed(g.workers[0]) == {0, 1} && {} + {0, 1} == {0, 1} && {} + {1} == {1};
    assert Unheld(g.workers, 0, {0, 1});
    assert Next(g, Attempt(0)).workers == Resent(r0, r1, id, at, error).workers;
  }

  lemma AnswerAgain(r0: Row, r1: Row, id: string, at: int, error: string, second: SendResult)
    ensures Follows(Resent(r0, r1, id, at, error), Deliver(0, second, at), Answered(r0, r1, id, at, error, second))
  {
    var g, step := Resent(r0, r1, id, at, error), Deliver(0, second, at);
    var mine := Settled(Attempted(r1), second, at);
    assert g.workers[0].local[1 := mine] == map[0 := Refusal(r0, error, at), 1 := mine];
    assert Next(g, step).workers == Answered(r0, r1, id, at, error, second).workers;
  }

  lemma CommitOver(r0: Row, r1: Row, id: string, at: int, error: string, second: SendResult)
    ensures Follows(Answered(r0, r1, id, at, error, second), Commit(0), Overwritten(r0, r1, id, at, error, second))
  {
    var g := Answered(r0, r1, id, at, error, second);
    assert Unheld(g.workers, 0, g.workers[0].local.Keys);
    assert Written(g.rows, g.workers[0]) == Overwritten(r0, r1, id, at, error, second).rows;
    assert Next(g, Commit(0)).workers == [Idle, Idle];
  }

  function SecondSteps(now: int, id: string, at: int): seq<Step> {
    [Pick(1, now, [1]), Attempt(1), Deliver(1, Delivered(id), at), Commit(1)]
  }

  function SecondWorlds(r0: Row, r1: Row, id: string, at: int): seq<World> {
    [Shared(r0, r1), SharedSend(r0, r1), SharedSent(r0, r1, id, at), SentOnce(r0, r1, id, at)]
  }

  lemma SecondRun(r0: Row, r1: Row, now: int, id: string, at: int)
    requires BothDue(r0, r1, now)
    ensures Chain([Halfway(r0, r1)] + SecondWorlds(r0, r1, id, at), SecondSteps(now, id, at))
  {
    PickSecond(r0, r1, now);
    AttemptSecond(r0, r1);
    DeliverSecond(r0, r1, id, at);
    CommitSecond(r0, r1, id, at);
  }

  function LastSteps(at: int, error: string, second: SendResult): seq<Step> {
    [Deliver(0, Permanent(error), at), Attempt(0), Deliver(0, second, at), Commit(0)]
  }

  function LastWorlds(r0: Row, r1: Row, id: string, at: int, error: string, second: SendResult): seq<World> {
    [Resumed(r0, r1, id, at, error), Resent(r0, r1, id, at, error), Answered(r0, r1, id, at, error, second),
     Overwritten(r0, r1, id, at, error, second)]
  }

  lemma LastRun(r0: Row, r1: Row, id: string, at: int, error: string, second: SendResult)
    ensures Chain([SentOnce(r0, r1, id, at)] + LastWorlds(r0, r1, id, at, error, second), LastSteps(at, error, second))
  {
    Resume(r0, r1, id, at, error);
    Resend(r0, r1, id, at, error);
    AnswerAgain(r0, r1, id, at, error, second);
    CommitOver(r0, r1, id, at, error, second);
  }

  function DoubleSteps(r0: Row, r1: Row, now: int, id: string, at: int, error: string, second: SendResult): seq<Step> {
    Opening(r0, r1, now) + SecondSteps(now, id, at) + LastSteps(at, error, second)
  }

  function DoubleWorlds(r0: Row, r1: Row, id: string, at: int, error: string, second: SendResult): seq<World> {
    OpeningWorlds(r0, r1) + SecondWorlds(r0, r1, id, at) + LastWorlds(r0, r1, id, at, error, second)
  }

  lemma DoubleRun(r0: Row, r1: Row, now: int, id: string, at: int, error: string, second: SendResult)
    requires BothDue(r0, r1, now)
    ensures IsRun(DoubleWorlds(r0, r1, id, at, error, second), DoubleSteps(r0, r1, now, id, at, error, second))
  {
    OpeningRun(r0, r1, now);
    SecondRun(r0, r1, now, id, at);
    LastRun(r0, r1, id, at, error, second);
    ChainConcat(OpeningWorlds(r0, r1), Opening(r0, r1, now),
                [Halfway(r0, r1)] + SecondWorlds(r0, r1, id, at), SecondSteps(now, id, at));
    ChainConcat(OpeningWorlds(r0, r1) + SecondWorlds(r0, r1, id, at), Opening(r0, r1, now) + SecondSteps(now, id, at),
                [SentOnce(r0, r1, id, at)] + LastWorlds(r0, r1, id, at, error, second), LastSteps(at, error, second));
  }

  /**
   * For any two due rows there is a run without a crash in which a rejected token of the first one's
   * business makes the second one be in two batches at once, be sent again after it was committed as sent,
   * be overwritten with the second answer, and be sent twice for one counted attempt.
   */
  lemma SentTwice(r0: Row, r1: Row, now: int, id: string, at: int, error: string, second: SendResult)
    returns (worlds: seq<World>, steps: seq<Step>)
    requires BothDue(r0, r1, now)
    ensures IsRun(worlds, steps) && |worlds| == 14 && forall j :: 0 <= j < |steps| ==> !steps[j].Abort?
    ensures BusyAt(worlds[6], 0) && BusyAt(worlds[6], 1)
            && 1 in worlds[6].workers[0].batch && 1 in worlds[6].workers[1].batch
    ensures |worlds[9].rows| == |worlds[13].rows| == |worlds[13].inserted| == 2
    ensures worlds[9].rows[1].status == SENT && worlds[9].sends == [1, 1]
    ensures var g := worlds[13];
            && g.workers == [Idle, Idle] && g.sends == [1, 2] && g.aborted == [0, 0]
            && g.rows[1].attempts == g.inserted[1].attempts + 1
            && g.rows[1].status == Settled(Attempted(r1), second, at).status
  {
    worlds, steps := DoubleWorlds(r0, r1, id, at, error, second), DoubleSteps(r0, r1, now, id, at, error, second);
    DoubleRun(r0, r1, now, id, at, error, second);
  }

  // ---- the stranded row ----

  function Stranded(r0: Row, r1: Row): World {
    Halfway(r0, r1).(workers := [Idle, Idle])
  }

  /** If the worker dies after the commit inside the send path, its current row is stranded as SENDING. */
  lemma LeftSending(r0: Row, r1: Row, now: int) returns (worlds: seq<World>, steps: seq<Step>)
    requires BothDue(r0, r1, now)
    ensures IsRun(worlds, steps) && |worlds| == 7
    ensures IsSending(worlds[6], 0) && Abandoned(worlds[6], 0)
  {
    OpeningRun(r0, r1, now);
    var g := Halfway(r0, r1);
    assert Lost(g.aborted, g.workers[0]) == [0, 0];
    assert Next(g, Abort(0)).workers == [Idle, Idle];
    assert Follows(g, Abort(0), Stranded(r0, r1));
    worlds, steps := OpeningWorlds(r0, r1) + [Stranded(r0, r1)], Opening(r0, r1, now) + [Abort(0)];
    ChainConcat(OpeningWorlds(r0, r1), Opening(r0, r1, now), [g] + [Stranded(r0, r1)], [Abort(0)]);
  }

  /** So is a new message whose immediate attempt was committed half-way and whose inserter then dies. */
  lemma InsertLeftSending(row: Row, workers: seq<Session>) returns (worlds: seq<World>, steps: seq<Step>)
    requires row.status == SENDING && row.attempts == 0 && forall w :: 0 <= w < |workers| ==> workers[w] == Idle
    ensures IsRun(worlds, steps) && |worlds| == 3
    ensures IsSending(worlds[2], 0) && Abandoned(worlds[2], 0)
  {
    var g := World([], workers, [], [], [], {}, {});
    var h := Next(g, InsertHalf(row));
    steps := [InsertHalf(row), LoseInsert(0)];
    worlds := [g, h, Next(h, LoseInsert(0))];
    assert Follows(g, InsertHalf(row), h);
    assert Follows(h, LoseInsert(0), worlds[2]);
  }
}
