/** What requests to pause or cancel a running job come to: which flags they raise, and how its run is stored. */
module DeliveryRequests {
  import opened Wrappers
  import opened NewestRelease
  import opened DeliveryJobs
  import opened DeliveryMachine
  import opened DeliverySafety
  import opened DeliveryTheorems
  import opened DeliveryControl
  import DeliveryOutcomes

  // Which flags are raised.

  /** A request that found a control acts on it. */
  predicate AsksFor(d: Desk, move: Move, k: nat, kind: Kind) {
    move.Act? && move.request < |d.requests|
    && d.requests[move.request].found == Some(k) && d.requests[move.request].kind == kind
  }

  ghost predicate IsAsked(d: Desk, moves: seq<Move>, k: nat, kind: Kind)
    requires CanMoveAll(d, moves)
    decreases |moves|
  {
    moves != [] && (AsksFor(d, moves[0], k, kind) || IsAsked(Moved(d, moves[0]), moves[1..], k, kind))
  }

  lemma {:induction false} MoveRaisesIff(d: Desk, move: Move, k: nat)
    requires CanMove(d, move) && k < |d.controls|
    ensures k < |Moved(d, move).controls|
    ensures var before, now := d.controls[k], Moved(d, move).controls[k];
      && now.job == before.job
      && (now.pause <==> before.pause || AsksFor(d, move, k, Pausing))
      && (now.cancel <==> before.cancel || AsksFor(d, move, k, Cancelling))
  {
    hide Next, Enabled;
  }

  /** Over any moves a control's flag is raised exactly if it was, or a request of its kind that found it has acted. */
  lemma {:induction false} FlagsAreRaisedIff(d: Desk, moves: seq<Move>, k: nat)
    requires CanMoveAll(d, moves) && k < |d.controls|
    ensures k < |After(d, moves).controls|
    ensures var before, now := d.controls[k], After(d, moves).controls[k];
      && now.job == before.job
      && (now.pause <==> before.pause || IsAsked(d, moves, k, Pausing))
      && (now.cancel <==> before.cancel || IsAsked(d, moves, k, Cancelling))
    decreases |moves|
  {
    if moves != [] {
      hide Moved, CanMove, AsksFor;
      MoveRaisesIff(d, moves[0], k);
      FlagsAreRaisedIff(Moved(d, moves[0]), moves[1..], k);
    }
  }

  /** Whether the worker took a job and has neither dropped its control nor stopped with the launcher since. */
  predicate HasTaken(moves: seq<Move>, taken: bool) {
    if moves == [] then taken
    else
      HasTaken(moves[1..], moves[0].TakeJob? || (taken && !moves[0].DropControl? && moves[0] != Do(Restart)))
  }

  /** Over any moves a control is at hand exactly then. */
  lemma {:induction false} ControlIsAtHandIff(d: Desk, moves: seq<Move>)
    requires CanMoveAll(d, moves)
    ensures After(d, moves).running.Some? <==> HasTaken(moves, d.running.Some?)
    decreases |moves|
  {
    hide Next, Enabled;
    if moves != [] {
      ControlIsAtHandIff(Moved(d, moves[0]), moves[1..]);
    }
  }

  /** What a request found is a control of its own job, the one at hand when it looked. */
  ghost predicate FindTheirOwn(d: Desk) {
    && (d.running.Some? ==> d.running.value < |d.controls|)
    && forall i | 0 <= i < |d.requests| && d.requests[i].found.Some? ::
      d.requests[i].found.value < |d.controls| && d.controls[d.requests[i].found.value].job == d.requests[i].job
  }

  lemma {:induction false} MoveFindsItsOwn(d: Desk, move: Move)
    requires FindTheirOwn(d) && CanMove(d, move)
    ensures FindTheirOwn(Moved(d, move))
    ensures move.Look? ==>
              var found := Moved(d, move).requests[|d.requests|].found;
              found == if d.running.Some? && d.controls[d.running.value].job == move.job then d.running else None
  {
    hide Next, Enabled;
  }

  lemma {:induction false} MovesFindTheirOwn(d: Desk, moves: seq<Move>)
    requires FindTheirOwn(d) && CanMoveAll(d, moves)
    ensures FindTheirOwn(After(d, moves))
    decreases |moves|
  {
    if moves != [] {
      MoveFindsItsOwn(d, moves[0]);
      hide FindTheirOwn, Moved, CanMove;
      MovesFindTheirOwn(Moved(d, moves[0]), moves[1..]);
    }
  }

  /** Over whole runs no request ever reaches the control of another job. */
  lemma {:induction false} RequestsFindTheirOwn(moves: seq<Move>, i: nat)
    requires CanMoveAll(IDLE, moves)
    requires i < |After(IDLE, moves).requests| && After(IDLE, moves).requests[i].found.Some?
    ensures var d := After(IDLE, moves); var k := d.requests[i].found.value;
      k < |d.controls| && d.controls[k].job == d.requests[i].job
  {
    MovesFindTheirOwn(IDLE, moves);
    hide After, CanMoveAll;
  }

  // How the run is stored.

  /** A step of the run that looks at its control. */
  predicate Looks(e: Event) {
    e.FetchArchive? || e.EnterInstalling?
  }

  /** Where such a step is due. */
  predicate IsAboutToLook(pc: Pc) {
    pc.Fetch? || pc.BeginInstall?
  }

  lemma {:induction false} LookStops(d: Desk, e: Event)
    requires DeskOk(d) && CanMove(d, Do(e)) && Looks(e)
    ensures d.running.Some? && d.running.value < |d.controls| && d.m.run.Some?
    ensures var control := d.controls[d.running.value];
      control.pause || control.cancel ==>
        DeliveryOutcomes.StopsWith(d.m, e, if control.cancel then CancelledError else PausedError)
  {
    hide Next, Inv;
  }

  /**
   A run that looks at its control when a flag is raised ends there, whatever calls come
   in between: its job is cancelled if it is the cancellation's, and else paused, and
   nothing else about it has changed.
   */
  lemma {:induction false} RaisedFlagEndsTheRun(d: Desk, e: Event, calls: seq<Event>, more: seq<Event>, after: Machine)
    requires DeskOk(d) && CanMove(d, Do(e)) && Looks(e) && DeliveryOutcomes.Ends(d.m, e, calls, more, after)
    requires d.running.Some? && d.running.value < |d.controls|
    requires d.controls[d.running.value].pause || d.controls[d.running.value].cancel
    ensures d.m.run.Some? && var id := d.m.run.value.job.id;
      && after.run.None? && id in d.m.jobs && id in after.jobs
      && after.jobs[id] == d.m.jobs[id].(status := if d.controls[d.running.value].cancel then Cancelled else Paused)
  {
    var control := d.controls[d.running.value];
    LookStops(d, e);
    var error := if control.cancel then CancelledError else PausedError;
    DeliveryOutcomes.StoppedRunIsStored(d.m, e, error, calls, more, after);
    DeliveryOutcomes.RunningHasNoProblem(d.m);
    hide Inv, Next, Enabled;
  }

  /** The look of a run at its control. */
  function LookOf(pc: Pc, error: DeliveryError): Event {
    if pc.Fetch? then FetchArchive(Some(error), None) else EnterInstalling(Some(error))
  }

  /** The moves of a request that is heard: it looks, acts, and the run ends at its next look. */
  function Heard(d: Desk, kind: Kind, discarded: bool): seq<Move>
    requires d.m.run.Some? && Current(d).Some?
  {
    var error := if kind.Cancelling? || Current(d).value.cancel then CancelledError else PausedError;
    [Look(d.m.run.value.job.id, kind), Act(|d.requests|, discarded), Do(LookOf(d.m.run.value.pc, error)),
      Do(ConcludeRun), Do(SaveRunEnd), DropControl]
  }

  lemma {:induction false} LookFindsAndRaises(d: Desk, kind: Kind, discarded: bool)
    requires DeskOk(d) && d.m.run.Some?
    ensures var look, act := Look(d.m.run.value.job.id, kind), Act(|d.requests|, discarded);
      && CanMove(d, look) && CanMove(Moved(d, look), act)
      && var acted := Moved(Moved(d, look), act);
        && DeskOk(acted) && acted.m == d.m && acted.running == d.running
        && d.running.value < |d.controls| == |acted.controls|
        && var before, now := d.controls[d.running.value], acted.controls[d.running.value];
          now.pause == (before.pause || kind.Pausing?) && now.cancel == (before.cancel || kind.Cancelling?)
  {
    var look := Look(d.m.run.value.job.id, kind);
    MoveKeepsDesk(d, look);
    MoveKeepsDesk(Moved(d, look), Act(|d.requests|, discarded));
    hide Inv, Next, Enabled;
  }

  lemma {:induction false} RunEndsAtItsLook(d: Desk)
    requires DeskOk(d) && d.m.run.Some? && IsAboutToLook(d.m.run.value.pc)
    requires Current(d).Some? && (Current(d).value.pause || Current(d).value.cancel)
    ensures var job := d.m.run.value.job;
      var look := Do(LookOf(d.m.run.value.pc, if Current(d).value.cancel then CancelledError else PausedError));
      && CanMove(d, look) && CanMove(Moved(d, look), Do(ConcludeRun))
      && CanMove(Moved(Moved(d, look), Do(ConcludeRun)), Do(SaveRunEnd))
      && var after := Moved(Moved(Moved(d, look), Do(ConcludeRun)), Do(SaveRunEnd));
        && CanMove(after, DropControl) && after.m.used == d.m.used && after.m.run.None?
        && after.m.jobs == d.m.jobs[job.id := job.(status := if Current(d).value.cancel then Cancelled else Paused)]
  {
    assert RunOk(d.m, d.m.run.value);
    hide Completed, FetchFrom, WithPaths, AfterQueue, AfterReconcile, Inv, RunOk;
  }

  lemma {:induction false} SixMoves(d: Desk, moves: seq<Move>)
    requires |moves| == 6 && CanMove(d, moves[0]) && CanMove(Moved(d, moves[0]), moves[1])
    requires CanMoveAll(Moved(Moved(d, moves[0]), moves[1]), moves[2..])
    ensures CanMoveAll(d, moves) && After(d, moves) == After(Moved(Moved(d, moves[0]), moves[1]), moves[2..])
  {
    hide CanMove, Moved;
    assert moves[1..][1..] == moves[2..];
    assert moves[1..][0] == moves[1];
  }

  lemma {:induction false} FourMoves(d: Desk, a: Move, b: Move, c: Move, e: Move)
    requires CanMove(d, a) && CanMove(Moved(d, a), b) && CanMove(Moved(Moved(d, a), b), c)
    requires CanMove(Moved(Moved(Moved(d, a), b), c), e)
    ensures CanMoveAll(d, [a, b, c, e])
    ensures After(d, [a, b, c, e]) == Moved(Moved(Moved(Moved(d, a), b), c), e)
  {
    ThreeMoves(Moved(d, a), b, c, e);
    FirstMove(d, a, [b, c, e]);
    hide CanMove, Moved;
    assert [a, b, c, e] == [a] + [b, c, e];
  }

  /**
   A request for a job whose run is between archives, or before its installation, goes
   through: it finds the control and acts, and the run ends at its next look. The job
   is then paused, or cancelled if this or an earlier request asked for that; no other job
   has changed, and the worker is free.
   */
  lemma {:induction false} RequestGoesThrough(d: Desk, kind: Kind, discarded: bool)
    requires DeskOk(d) && d.m.run.Some? && IsAboutToLook(d.m.run.value.pc)
    ensures d.running.Some? && d.running.value < |d.controls| && Current(d) == Some(d.controls[d.running.value])
    ensures var moves := Heard(d, kind, discarded); var id := d.m.run.value.job.id;
      && CanMoveAll(d, moves) && id in d.m.jobs
      && var after := After(d, moves);
        && after.m.run.None? && after.running.None?
        && after.m.jobs == d.m.jobs[id := d.m.jobs[id].(status :=
             if kind.Cancelling? || d.controls[d.running.value].cancel then Cancelled else Paused)]
  {
    var moves := Heard(d, kind, discarded);
    RunIsStored(d);
    LookFindsAndRaises(d, kind, discarded);
    var acted := Moved(Moved(d, moves[0]), moves[1]);
    assert Current(acted) == Some(acted.controls[d.running.value]);
    RunEndsAtItsLook(acted);
    hide DeskOk, Inv, Next, Enabled;
    var saved := Moved(Moved(Moved(acted, moves[2]), moves[3]), moves[4]);
    assert Moved(saved, DropControl) == saved.(running := None);
    hide Moved, CanMove;
    FourMoves(acted, moves[2], moves[3], moves[4], moves[5]);
    assert moves[2..] == [moves[2], moves[3], moves[4], moves[5]];
    SixMoves(d, moves);
  }

  lemma {:induction false} RunIsStored(d: Desk)
    requires DeskOk(d) && d.m.run.Some? && IsAboutToLook(d.m.run.value.pc)
    ensures var job := d.m.run.value.job; job.id in d.m.jobs && d.m.jobs[job.id] == job
  {
    assert RunOk(d.m, d.m.run.value);
  }
}
