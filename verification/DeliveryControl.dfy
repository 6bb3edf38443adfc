/**
 Pausing and cancelling while the worker runs jobs. A request looks for the control
 of the running job and then, in a second step, raises its flag or calls the
 service; the worker sets the running control before a run and drops it after.
 Both act on the delivery machine's store, a step at a time.
 */
module DeliveryControl {
  import opened Wrappers
  import opened NewestRelease
  import opened DeliveryJobs
  import opened DeliveryMachine
  import opened DeliverySafety
  import opened DeliveryTheorems

  datatype Kind = Pausing | Cancelling

  /** The flags a run is controlled by; a cancellation goes before a pause. */
  datatype Control = Control(job: JobId, pause: bool, cancel: bool) {
    function Check(): Option<DeliveryError> {
      if cancel then Some(CancelledError) else if pause then Some(PausedError) else None
    }

    function Raise(kind: Kind): Control {
      if kind.Pausing? then this.(pause := true) else this.(cancel := true)
    }
  }

  /** A request with the control it found, if its job was the running one. */
  datatype Request = Request(job: JobId, kind: Kind, found: Option<nat>)

  /**
   The machine, every control there has been, the running one and whether its run has
   begun, and the requests between their two steps.
   */
  datatype Desk = Desk(m: Machine, controls: seq<Control>, running: Option<nat>, begun: bool, requests: seq<Request>)

  const IDLE := Desk(EMPTY, [], None, false, [])

  datatype Move =
    | TakeJob(job: JobId)
    | Do(e: Event)
    | DropControl
    | Look(job: JobId, kind: Kind)
    | Act(request: nat, discarded: bool)

  function Current(d: Desk): Option<Control> {
    if d.running.Some? && d.running.value < |d.controls| then Some(d.controls[d.running.value]) else None
  }

  /** A run is started once for the job of the running control, and checks that control. */
  predicate Controlled(d: Desk, e: Event) {
    match e
    case StartRun(id) => Current(d).Some? && Current(d).value.job == id && !d.begun
    case FetchArchive(check, _) => Current(d).Some? && check == Current(d).value.Check()
    case EnterInstalling(check) => Current(d).Some? && check == Current(d).value.Check()
    case _ => !e.PauseJob? && !e.CancelJob?
  }

  ghost predicate CanMove(d: Desk, move: Move) {
    match move
    case TakeJob(job) => d.running.None? && d.m.run.None? && job in d.m.used
    case Do(e) => Enabled(d.m, e) && Controlled(d, e)
    case DropControl => d.m.run.None?
    case Look(_, _) => true
    case Act(request, _) => request < |d.requests|
  }

  function Found(d: Desk, job: JobId): Option<nat> {
    if Current(d).Some? && Current(d).value.job == job then d.running else None
  }

  function Acted(d: Desk, r: Request, discarded: bool): Desk {
    match r.found
    case Some(k) => if k < |d.controls| then d.(controls := d.controls[k := d.controls[k].Raise(r.kind)]) else d
    case None =>
      d.(m := d.m.(jobs := if r.kind.Pausing? then AfterPause(d.m.jobs, r.job)
        else AfterCancel(d.m.jobs, r.job, discarded)))
  }

  function Moved(d: Desk, move: Move): Desk
    requires CanMove(d, move)
  {
    match move
    case TakeJob(job) =>
      d.(controls := d.controls + [Control(job, false, false)], running := Some(|d.controls|), begun := false)
    case Do(e) =>
      d.(m := Next(d.m, e), running := if e.Restart? then None else d.running, begun := d.begun || e.StartRun?)
    case DropControl => d.(running := None)
    case Look(job, kind) => d.(requests := d.requests + [Request(job, kind, Found(d, job))])
    case Act(request, discarded) => Acted(d, d.requests[request], discarded)
  }

  ghost predicate CanMoveAll(d: Desk, moves: seq<Move>)
    decreases |moves|
  {
    moves == [] || (CanMove(d, moves[0]) && CanMoveAll(Moved(d, moves[0]), moves[1..]))
  }

  ghost function After(d: Desk, moves: seq<Move>): Desk
    requires CanMoveAll(d, moves)
    decreases |moves|
  {
    if moves == [] then d else After(Moved(d, moves[0]), moves[1..])
  }

  /** A run under way has its own control at hand. */
  ghost predicate DeskOk(d: Desk) {
    && Inv(d.m)
    && (d.m.run.Some? ==> Current(d).Some? && Current(d).value.job == d.m.run.value.job.id && d.begun)
    && (d.running.Some? ==> d.running.value < |d.controls| && d.controls[d.running.value].job in d.m.used)
  }

  /** The runner's job stays the same until it is gone. */
  lemma {:induction false} RunKeepsItsJob(m: Machine, e: Event)
    requires Inv(m) && Enabled(m, e) && Next(m, e).run.Some?
    ensures if e.StartRun? then Next(m, e).run.value.job.id == e.id
            else m.run.Some? && Next(m, e).run.value.job.id == m.run.value.job.id
    ensures !e.Restart?
  {
    hide Completed, FetchFrom, WithPaths, AfterQueue, AfterReconcile, AllLocated;
    assert e.StartRun? && e.id in m.jobs ==> m.jobs[e.id].id == e.id;
  }

  lemma {:induction false} EventKeepsDesk(d: Desk, e: Event)
    requires DeskOk(d) && CanMove(d, Do(e))
    ensures DeskOk(Moved(d, Do(e)))
  {
    hide Inv, Next, Enabled;
    StepKeepsInv(d.m, e);
    StepComesAndGoes(d.m, e);
    if Next(d.m, e).run.Some? {
      RunKeepsItsJob(d.m, e);
    }
  }

  lemma {:induction false} ActingKeepsDesk(d: Desk, r: Request, discarded: bool)
    requires DeskOk(d)
    ensures DeskOk(Acted(d, r, discarded))
  {
    hide Inv, AfterPause, AfterCancel;
    PauseKeepsInv(d.m, r.job);
    CancelKeepsInv(d.m, r.job, discarded);
  }

  lemma {:induction false} MoveKeepsDesk(d: Desk, move: Move)
    requires DeskOk(d) && CanMove(d, move)
    ensures DeskOk(Moved(d, move))
  {
    match move {
      case Do(e) => EventKeepsDesk(d, e);
      case Act(request, discarded) => ActingKeepsDesk(d, d.requests[request], discarded);
      case _ =>
        hide Inv, Next, Enabled;
    }
  }

  lemma {:induction false} IdleDeskIsOk()
    ensures DeskOk(IDLE)
  {
  }

  lemma {:induction false} MovesKeepDesk(d: Desk, moves: seq<Move>)
    requires DeskOk(d) && CanMoveAll(d, moves)
    ensures DeskOk(After(d, moves))
    decreases |moves|
  {
    if moves != [] {
      hide DeskOk, Moved, CanMove;
      MoveKeepsDesk(d, moves[0]);
      MovesKeepDesk(Moved(d, moves[0]), moves[1..]);
    }
  }

  /** From the start on, a run under way is the one of the running control, which no other run can take. */
  lemma {:induction false} RunHasItsControl(moves: seq<Move>)
    requires CanMoveAll(IDLE, moves)
    ensures var d := After(IDLE, moves);
      d.m.run.Some? ==>
        && Current(d).Some? && Current(d).value.job == d.m.run.value.job.id
        && forall job :: !CanMove(d, TakeJob(job)) && !CanMove(d, Do(StartRun(job)))
  {
    IdleDeskIsOk();
    MovesKeepDesk(IDLE, moves);
    hide Inv, After, CanMoveAll;
  }

  // Requests that find the control.

  /** While a control is the running one, no archive is fetched and the installation is not entered. */
  ghost predicate Stopped(d: Desk, moves: seq<Move>, k: nat)
    requires CanMoveAll(d, moves)
    decreases |moves|
  {
    moves == []
    || ((moves[0].Do? && d.running == Some(k) ==>
           Fetches(d.m, moves[0].e).None? && !(moves[0].e.EnterInstalling? && moves[0].e.check.None?))
        && Stopped(Moved(d, moves[0]), moves[1..], k))
  }

  predicate IsRaised(d: Desk, k: nat) {
    k < |d.controls| && d.controls[k].Check().Some?
  }

  lemma {:induction false} MoveKeepsRaised(d: Desk, move: Move, k: nat)
    requires CanMove(d, move) && IsRaised(d, k)
    ensures IsRaised(Moved(d, move), k)
    ensures move.Do? && d.running == Some(k) ==>
              Fetches(d.m, move.e).None? && !(move.e.EnterInstalling? && move.e.check.None?)
  {
    hide Next, Enabled;
  }

  lemma {:induction false} RaisedFlagStopsTheRun(d: Desk, moves: seq<Move>, k: nat)
    requires CanMoveAll(d, moves) && IsRaised(d, k)
    ensures Stopped(d, moves, k)
    decreases |moves|
  {
    if moves != [] {
      hide Moved, CanMove, IsRaised;
      MoveKeepsRaised(d, moves[0], k);
      RaisedFlagStopsTheRun(Moved(d, moves[0]), moves[1..], k);
    }
  }

  /** A request that found the control and acted stops the run it was made for, whatever comes after. */
  lemma {:induction false} HeardRequestStopsTheRun(d: Desk, request: nat, discarded: bool, moves: seq<Move>)
    requires CanMove(d, Act(request, discarded)) && CanMoveAll(Moved(d, Act(request, discarded)), moves)
    requires d.requests[request].found.Some? && d.requests[request].found.value < |d.controls|
    ensures Stopped(Moved(d, Act(request, discarded)), moves, d.requests[request].found.value)
  {
    RaisedFlagStopsTheRun(Moved(d, Act(request, discarded)), moves, d.requests[request].found.value);
  }

  /** A step of the run is given the control, and looks at its flags. */
  predicate Consults(d: Desk, move: Move, k: nat) {
    move.Do? && d.running == Some(k)
    && (move.e.LocateArchives? || move.e.FetchArchive? || move.e.EnterInstalling? || move.e.InstallArchives?)
  }

  ghost predicate IsConsulted(d: Desk, moves: seq<Move>, k: nat)
    requires CanMoveAll(d, moves)
    decreases |moves|
  {
    moves != [] && (Consults(d, moves[0], k) || IsConsulted(Moved(d, moves[0]), moves[1..], k))
  }

  predicate Listens(pc: Pc) {
    pc.Locate? || pc.Fetch? || pc.BeginInstall? || pc.CallInstaller?
  }

  /** The run of a control has not come to its end, or has not begun and its job can still be run. */
  predicate CanBeHeard(d: Desk, k: nat) {
    d.running == Some(k) && k < |d.controls|
    && if d.m.run.Some? then Listens(d.m.run.value.pc)
       else var job := d.controls[k].job; !d.begun && job in d.m.jobs && !IsDone(d.m.jobs[job])
  }

  lemma {:induction false} ListeningOnlyStops(m: Machine, e: Event)
    requires Inv(m) && Enabled(m, e) && m.run.Some? && !Listens(m.run.value.pc) && Next(m, e).run.Some?
    ensures !Listens(Next(m, e).run.value.pc)
    ensures !e.LocateArchives? && !e.FetchArchive? && !e.EnterInstalling? && !e.InstallArchives? && !e.StartRun?
  {
    hide Completed, FetchFrom, WithPaths, AfterQueue, AfterReconcile, AllLocated;
  }

  /** A job that was done, or gone, does not come back to be run. */
  lemma {:induction false} DoneIsNotRun(m: Machine, e: Event, job: JobId)
    requires Inv(m) && Enabled(m, e) && m.run.None? && job in m.used && (job in m.jobs ==> IsDone(m.jobs[job]))
    ensures job in Next(m, e).jobs ==> IsDone(Next(m, e).jobs[job])
    ensures e == StartRun(job) ==> Next(m, e).run.None?
  {
    StepComesAndGoes(m, e);
    if job in m.jobs {
      DoneStaysInStep(m, e, job);
    }
  }

  lemma {:induction false} EventKeepsUnheard(d: Desk, e: Event, k: nat)
    requires DeskOk(d) && CanMove(d, Do(e)) && d.running == Some(k) && !CanBeHeard(d, k)
    ensures !CanBeHeard(Moved(d, Do(e)), k) && !Consults(d, Do(e), k)
  {
    hide Inv, Next;
    if d.m.run.Some? {
      if Next(d.m, e).run.Some? {
        ListeningOnlyStops(d.m, e);
      } else {
        NothingListens(d.m, e);
      }
    } else {
      if Next(d.m, e).run.Some? {
        RunKeepsItsJob(d.m, e);
      }
      if !d.begun {
        DoneIsNotRun(d.m, e, d.controls[k].job);
      }
    }
  }

  lemma {:induction false} NothingListens(m: Machine, e: Event)
    requires Enabled(m, e) && m.run.Some? && !Listens(m.run.value.pc)
    ensures !e.LocateArchives? && !e.FetchArchive? && !e.EnterInstalling? && !e.InstallArchives?
  {
  }

  lemma {:induction false} ActingKeepsUnheard(d: Desk, r: Request, discarded: bool, k: nat)
    requires DeskOk(d) && k < |d.controls|
    ensures CanBeHeard(Acted(d, r, discarded), k) ==> CanBeHeard(d, k)
  {
  }

  lemma {:induction false} MoveKeepsUnheard(d: Desk, move: Move, k: nat)
    requires DeskOk(d) && CanMove(d, move) && k < |d.controls| && !CanBeHeard(d, k)
    ensures !CanBeHeard(Moved(d, move), k) && !Consults(d, move, k)
  {
    match move {
      case Do(e) =>
        if d.running == Some(k) {
          EventKeepsUnheard(d, e, k);
        } else {
          hide Inv, Next;
        }
      case Act(request, discarded) => ActingKeepsUnheard(d, d.requests[request], discarded, k);
      case _ =>
        hide Inv, Next;
    }
  }

  lemma {:induction false} UnheardStays(d: Desk, moves: seq<Move>, k: nat)
    requires DeskOk(d) && CanMoveAll(d, moves) && k < |d.controls| && !CanBeHeard(d, k)
    ensures !IsConsulted(d, moves, k)
    decreases |moves|
  {
    if moves != [] {
      MoveKeepsDesk(d, moves[0]);
      MoveKeepsUnheard(d, moves[0], k);
      MoveKeepsControls(d, moves[0]);
      hide Moved, CanMove, CanBeHeard, DeskOk, Consults;
      UnheardStays(Moved(d, moves[0]), moves[1..], k);
    }
  }

  lemma {:induction false} MoveKeepsControls(d: Desk, move: Move)
    requires CanMove(d, move)
    ensures |d.controls| <= |Moved(d, move).controls|
  {
    hide Next, Enabled;
  }

  /** The step of a run that consults its control next. */
  function Listening(d: Desk): Event {
    if d.m.run.None? || Current(d).None? then ConcludeRun
    else
      match d.m.run.value.pc
      case Locate => LocateArchives(Err(PausedError))
      case Fetch(_) => FetchArchive(Current(d).value.Check(), None)
      case BeginInstall => EnterInstalling(Current(d).value.Check())
      case _ => InstallArchives(Err(PausedError))
  }

  lemma {:induction false} RunListens(d: Desk, k: nat)
    requires DeskOk(d) && d.running == Some(k) && d.m.run.Some? && Listens(d.m.run.value.pc)
    ensures CanMove(d, Do(Listening(d))) && Consults(d, Do(Listening(d)), k)
  {
    assert RunOk(d.m, d.m.run.value);
    hide Inv, RunOk;
  }

  /** A queued job begins to run, and its run listens. */
  lemma {:induction false} QueuedJobListens(d: Desk, k: nat)
    requires DeskOk(d) && d.running == Some(k) && d.m.run.None? && !d.begun
    requires var job := d.controls[k].job; job in d.m.jobs && d.m.jobs[job].status.Queued?
    ensures var start := Do(StartRun(d.controls[k].job));
      CanMove(d, start) && Moved(d, start).m.run.Some? && Listens(Moved(d, start).m.run.value.pc)
  {
    var job := d.controls[k].job;
    FetchFromIsLater(d.m.jobs[job].archives, 0);
    hide Completed, FetchFrom, AllLocated, Inv;
  }

  /** A job that is not done is queued, or can be queued again, while none runs. */
  lemma {:induction false} JobCanBeQueued(d: Desk, job: JobId)
    requires DeskOk(d) && d.m.run.None? && job in d.m.jobs && !IsDone(d.m.jobs[job]) && !d.m.jobs[job].status.Queued?
    ensures var resume := Do(ResumeJob(job));
      CanMove(d, resume) && var after := Moved(d, resume);
        after == d.(m := after.m) && after.m.run.None? && job in after.m.jobs && after.m.jobs[job].status.Queued?
  {
  }

  lemma {:induction false} LaterIsConsulted(d: Desk, move: Move, moves: seq<Move>, k: nat)
    requires CanMove(d, move) && CanMoveAll(Moved(d, move), moves)
    requires Consults(d, move, k) || IsConsulted(Moved(d, move), moves, k)
    ensures CanMoveAll(d, [move] + moves) && IsConsulted(d, [move] + moves, k)
  {
    hide CanMove, Moved;
    assert ([move] + moves)[1..] == moves;
  }

  lemma {:induction false} HeardOnceQueued(d: Desk, k: nat) returns (moves: seq<Move>)
    requires DeskOk(d) && d.running == Some(k) && d.m.run.None? && !d.begun
    requires var job := d.controls[k].job; job in d.m.jobs && d.m.jobs[job].status.Queued?
    ensures CanMoveAll(d, moves) && IsConsulted(d, moves, k)
  {
    var start := Do(StartRun(d.controls[k].job));
    QueuedJobListens(d, k);
    MoveKeepsDesk(d, start);
    var running := Moved(d, start);
    assert running.running == Some(k);
    hide *;
    RunListens(running, k);
    NoMoves(Moved(running, Do(Listening(running))));
    LaterIsConsulted(running, Do(Listening(running)), [], k);
    LaterIsConsulted(d, start, [Do(Listening(running))] + [], k);
    moves := [start] + ([Do(Listening(running))] + []);
  }

  lemma {:induction false} NoMoves(d: Desk)
    ensures CanMoveAll(d, [])
  {
  }

  /** What can be heard has a way to be heard. */
  lemma {:induction false} HeardInSomeWay(d: Desk, k: nat) returns (moves: seq<Move>)
    requires DeskOk(d) && CanBeHeard(d, k)
    ensures CanMoveAll(d, moves) && IsConsulted(d, moves, k)
  {
    if d.m.run.Some? {
      RunListens(d, k);
      NoMoves(Moved(d, Do(Listening(d))));
      LaterIsConsulted(d, Do(Listening(d)), [], k);
      moves := [Do(Listening(d))] + [];
    } else if d.m.jobs[d.controls[k].job].status.Queued? {
      moves := HeardOnceQueued(d, k);
    } else {
      var resume := Do(ResumeJob(d.controls[k].job));
      JobCanBeQueued(d, d.controls[k].job);
      MoveKeepsDesk(d, resume);
      hide Moved, Consults, IsConsulted, CanMoveAll, CanMove, DeskOk;
      var rest := HeardOnceQueued(Moved(d, resume), k);
      LaterIsConsulted(d, resume, rest, k);
      moves := [resume] + rest;
    }
  }

  /** Some run of moves leads to a look at a control. */
  ghost predicate MayBeConsulted(d: Desk, k: nat) {
    exists moves :: CanMoveAll(d, moves) && IsConsulted(d, moves, k)
  }

  /**
   A request that found a control: it changes no job, and the flag it raises is ever
   looked at only if, and then it may be, the run it was found with is not at its end,
   or has not begun and its job can still be run. Otherwise it is lost.
   */
  lemma {:induction false} FoundRequestIsLostIff(d: Desk, r: Request, k: nat, discarded: bool)
    requires DeskOk(d) && r.found == Some(k) && k < |d.controls|
    ensures Acted(d, r, discarded).m == d.m && IsRaised(Acted(d, r, discarded), k)
    ensures !MayBeConsulted(Acted(d, r, discarded), k) <==> !CanBeHeard(d, k)
  {
    var after := Acted(d, r, discarded);
    ActingKeepsDesk(d, r, discarded);
    assert CanBeHeard(after, k) <==> CanBeHeard(d, k);
    hide Acted, CanBeHeard, DeskOk;
    if CanBeHeard(after, k) {
      var moves := HeardInSomeWay(after, k);
    } else {
      forall moves | CanMoveAll(after, moves)
        ensures !IsConsulted(after, moves, k)
      {
        UnheardStays(after, moves, k);
      }
    }
  }

  lemma {:induction false} FirstMove(d: Desk, move: Move, moves: seq<Move>)
    requires CanMove(d, move) && CanMoveAll(Moved(d, move), moves)
    ensures CanMoveAll(d, [move] + moves) && After(d, [move] + moves) == After(Moved(d, move), moves)
  {
    hide CanMove, Moved;
    assert ([move] + moves)[1..] == moves;
  }

  lemma {:induction false} TwoMoves(d: Desk, a: Move, b: Move)
    requires CanMove(d, a) && CanMove(Moved(d, a), b)
    ensures CanMoveAll(d, [a, b]) && After(d, [a, b]) == Moved(Moved(d, a), b)
  {
    FirstMove(Moved(d, a), b, []);
    FirstMove(d, a, [b] + []);
    hide CanMove, Moved;
    assert [a, b] == [a] + ([b] + []);
  }

  /** Any run can lose one so: the request finds its control, and acts when its end has been saved. */
  lemma {:induction false} FoundRequestCanBeLost(d: Desk, kind: Kind, discarded: bool)
    requires DeskOk(d) && d.m.run.Some? && d.m.run.value.pc.SaveEnd?
    ensures var moves := [Look(d.m.run.value.job.id, kind), Do(SaveRunEnd)];
      CanMoveAll(d, moves)
      && var at := After(d, moves); var act := Act(|d.requests|, discarded);
         && d.running.Some? && CanMove(at, act) && Moved(at, act).m == at.m
         && !MayBeConsulted(Moved(at, act), d.running.value)
  {
    var look := Look(d.m.run.value.job.id, kind);
    var looked := Moved(d, look);
    MoveKeepsDesk(d, look);
    MoveKeepsDesk(looked, Do(SaveRunEnd));
    TwoMoves(d, look, Do(SaveRunEnd));
    var at := Moved(looked, Do(SaveRunEnd));
    assert at.requests[|d.requests|].found == d.running && at.running == d.running;
    assert !CanBeHeard(at, d.running.value) && |at.controls| == |d.controls|;
    hide Inv, Next, Enabled, CanBeHeard, MayBeConsulted, Acted;
    FoundRequestIsLostIff(at, at.requests[|d.requests|], d.running.value, discarded);
  }

  // Requests that find none.

  /** Whether a run of the job got under way. */
  ghost predicate Starts(d: Desk, moves: seq<Move>, job: JobId)
    requires CanMoveAll(d, moves)
    decreases |moves|
  {
    moves != []
    && ((moves[0] == Do(StartRun(job)) && job in d.m.jobs && d.m.jobs[job].status.Queued?)
        || Starts(Moved(d, moves[0]), moves[1..], job))
  }

  predicate IsUnderWay(jobs: Store, job: JobId) {
    job in jobs && jobs[job].status.IsRunning()
  }

  lemma {:induction false} OnlyStartingRuns(m: Machine, e: Event, job: JobId)
    requires Inv(m) && Enabled(m, e) && IsUnderWay(Next(m, e).jobs, job) && !IsUnderWay(m.jobs, job)
    ensures e == StartRun(job) && job in m.jobs && m.jobs[job].status.Queued?
  {
    hide Completed, FetchFrom, WithPaths, AllLocated;
  }

  lemma {:induction false} MoveStartsJob(d: Desk, move: Move, job: JobId)
    requires DeskOk(d) && CanMove(d, move) && IsUnderWay(Moved(d, move).m.jobs, job) && !IsUnderWay(d.m.jobs, job)
    ensures move == Do(StartRun(job)) && job in d.m.jobs && d.m.jobs[job].status.Queued?
  {
    if move.Do? {
      OnlyStartingRuns(d.m, move.e, job);
    }
    hide Next, Enabled, Inv;
  }

  lemma {:induction false} UnderWayWasStarted(d: Desk, moves: seq<Move>, job: JobId)
    requires DeskOk(d) && CanMoveAll(d, moves) && !IsUnderWay(d.m.jobs, job) && IsUnderWay(After(d, moves).m.jobs, job)
    ensures Starts(d, moves, job)
    decreases |moves|
  {
    if moves != [] {
      hide DeskOk, Moved, CanMove, IsUnderWay;
      MoveKeepsDesk(d, moves[0]);
      if IsUnderWay(Moved(d, moves[0]).m.jobs, job) {
        MoveStartsJob(d, moves[0], job);
      } else {
        UnderWayWasStarted(Moved(d, moves[0]), moves[1..], job);
      }
    }
  }

  /** A request takes effect by leaving its job paused or cancelled. */
  predicate TakesEffect(before: Store, after: Store, r: Request) {
    r.job in before && after != before
    && after == before[r.job := before[r.job].(status := if r.kind.Pausing? then Paused else Cancelled)]
  }

  /**
   A request that found no control and acts after other moves: it takes effect exactly
   if its job waits, and for a cancellation also if it is paused or has failed and its
   folder can be deleted. It is lost, leaving a run of its job to go on unaware,
   exactly if the job is under way by then; and then that run was started between its
   two steps.
   */
  lemma {:induction false} RequestIsLostIff(d: Desk, r: Request, moves: seq<Move>, discarded: bool)
    requires DeskOk(d) && Found(d, r.job).None? && r.found.None? && CanMoveAll(d, moves)
    requires r.job in After(d, moves).m.jobs
    ensures var at := After(d, moves); var after := Acted(at, r, discarded); var status := at.m.jobs[r.job].status;
      && (TakesEffect(at.m.jobs, after.m.jobs, r) <==>
            if r.kind.Pausing? then status.Queued?
            else discarded && (status.Queued? || status.Paused? || status.Failed?))
      && (after == at && at.m.run.Some? && at.m.run.value.job.id == r.job <==> status.IsRunning())
      && (status.IsRunning() ==> Starts(d, moves, r.job))
  {
    MovesKeepDesk(d, moves);
    var at := After(d, moves);
    assert !IsUnderWay(d.m.jobs, r.job);
    if IsUnderWay(at.m.jobs, r.job) {
      UnderWayWasStarted(d, moves, r.job);
    }
    ActingChanges(at, r, discarded);
    hide After, CanMoveAll;
    assert at.m.run.Some? ==> RunOk(at.m, at.m.run.value);
  }

  lemma {:induction false} ActingChanges(at: Desk, r: Request, discarded: bool)
    requires r.found.None? && r.job in at.m.jobs
    ensures var after := Acted(at, r, discarded); var status := at.m.jobs[r.job].status;
      var effect := if r.kind.Pausing? then status.Queued?
                    else discarded && (status.Queued? || status.Paused? || status.Failed?);
      && (effect <==> TakesEffect(at.m.jobs, after.m.jobs, r)) && (effect <==> after != at)
  {
    var after := Acted(at, r, discarded);
    assert after.m.jobs != at.m.jobs ==> after.m.jobs[r.job] != at.m.jobs[r.job];
  }

  lemma {:induction false} ThreeMoves(d: Desk, a: Move, b: Move, c: Move)
    requires CanMove(d, a) && CanMove(Moved(d, a), b) && CanMove(Moved(Moved(d, a), b), c)
    ensures CanMoveAll(d, [a, b, c]) && After(d, [a, b, c]) == Moved(Moved(Moved(d, a), b), c)
  {
    FirstMove(Moved(Moved(d, a), b), c, []);
    FirstMove(Moved(d, a), b, [c] + []);
    FirstMove(d, a, [b] + ([c] + []));
    hide CanMove, Moved;
    assert [a, b, c] == [a] + ([b] + ([c] + []));
  }

  /** Any waiting job can lose a request so: the worker takes it and starts between the two steps. */
  lemma {:induction false} RequestCanBeLost(d: Desk, job: JobId, kind: Kind, discarded: bool)
    requires DeskOk(d) && d.running.None? && d.m.run.None? && job in d.m.jobs && d.m.jobs[job].status.Queued?
    ensures var moves := [Look(job, kind), TakeJob(job), Do(StartRun(job))];
      CanMoveAll(d, moves)
      && var at := After(d, moves); var act := Act(|d.requests|, discarded);
         && CanMove(at, act) && Moved(at, act) == at
         && IsUnderWay(at.m.jobs, job) && Current(at).Some? && Current(at).value.Check().None?
  {
    var looked := Moved(d, Look(job, kind));
    var taken := Moved(looked, TakeJob(job));
    assert d.m.jobs[job].id == job;
    hide Inv, FetchFrom, Completed, AllLocated;
    assert taken.controls[|d.controls|] == Control(job, false, false);
    assert CanMove(taken, Do(StartRun(job)));
    ThreeMoves(d, Look(job, kind), TakeJob(job), Do(StartRun(job)));
  }
}
