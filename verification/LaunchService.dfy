/**
 The launch service and its process monitors as they are written: each saves to
 the store, changes the active map and starts, waits for and stops processes one
 statement after another. Run by themselves, their methods take exactly the
 steps of the launch supervisor's machine, which lets other threads act between
 any two of them. What a save, the executor or a process answers is left open.
 */
module LaunchService {
  import opened Wrappers
  import opened LaunchSupervisor
  import opened LaunchSteps

  lemma {:induction false} StartCallStep(w: World, a: ActivityId, installation: InstallationId) returns (es: seq<Event>)
    requires a !in w.records && a !in w.calls
    ensures Reaches(w, es, w.(calls := w.calls[a := NewCall(installation)]))
  {
    es := More(w, [], w, StartCall(a, installation));
  }

  lemma {:induction false} PutAndTake(active: map<ActivityId, ProcessId>, a: ActivityId, id: ProcessId)
    requires a !in active
    ensures active[a := id] - {a} == active
  {
  }

  lemma {:induction false} PutTwice(records: map<ActivityId, Record>, a: ActivityId, first: Record, second: Record)
    ensures records[a := first][a := second] == records[a := second]
  {
  }

  /** No process that was started meanwhile is left alive. */
  predicate NewOnesAreGone(before: map<Handle, Process>, after: map<Handle, Process>) {
    forall h | h in after && h !in before :: after[h].state != Live
  }

  /** The activity is recorded as failed, with its process number, or nothing could be saved. */
  predicate FailureRecorded(before: map<ActivityId, Record>, after: map<ActivityId, Record>, a: ActivityId,
                            installation: InstallationId, id: ProcessId) {
    after == before || after == before[a := Record(installation, Failed, Some(id))]
  }

  lemma {:induction false} Stay(w: World) returns (es: seq<Event>)
    ensures Reaches(w, es, w)
  {
    es := [];
  }

  class Supervisor {
    var records: map<ActivityId, Record>
    var active: map<ActivityId, ProcessId>
    var poisoned: bool
    var processes: map<Handle, Process>
    var requests: map<RequestId, Request>
    /** Where each launch call and its monitor are, with their channels. */
    var calls: map<ActivityId, Call>

    ghost function State(): World
      reads this
    {
      World(records, calls, active, processes, requests, poisoned)
    }

    constructor ()
      ensures State() == EMPTY
    {
      records, active, poisoned, processes, requests, calls := map[], map[], false, map[], map[], map[];
    }

    method TerminateAndReap() returns (outcome: ReapOutcome)
    {
      var terminated: bool := *;
      if !terminated {
        return CannotTerminate;
      }
      var waited: bool := *;
      outcome := if waited then ReapDone else CannotWait;
    }

    /** Ends a launch whose process is already started: the process goes, and the activity is recorded as failed. */
    method RecordFailure(a: ActivityId, p: Handle, ghost m: World, ghost before: seq<Event>)
      returns (saved: bool, ghost es: seq<Event>)
      requires a in calls && calls[a].launch == Reap(p) && p in processes && Reaches(m, before, State())
      modifies this
      ensures Reaches(m, es, State()) && a in calls && calls[a].launch == Returned(false)
      ensures p in processes && processes == old(processes)[p := processes[p]] && processes[p].state != Live
      ensures active == old(active)
      ensures records == if saved then old(records)[a :=
            Record(old(calls)[a].installation, Failed, Some(processes[p].id))]
                         else old(records)
      ensures FailureRecorded(old(records), records, a, old(calls)[a].installation, processes[p].id)
    {
      hide Next, Enabled, Reaches;
      es := before;
      var outcome := TerminateAndReap();
      ReapStep(State(), a, outcome);
      es := More(m, es, State(), ReapAfterFailure(a, outcome));
      processes := processes[p := processes[p].(state := AfterReap(outcome))];
      calls := calls[a := calls[a].(launch := SaveFailure(p))];
      saved := *;
      FailureStep(State(), a, saved);
      es := More(m, es, State(), SaveFailedStatus(a, saved));
      if saved {
        records := records[a := Record(calls[a].installation, Failed, Some(processes[p].id))];
      }
      calls := calls[a := calls[a].(launch := Returned(false))];
    }

    /** A launch that cannot be planned only records its failure. */
    method Refuse(a: ActivityId, installation: InstallationId) returns (ok: bool, ghost es: seq<Event>)
      requires a !in records && a !in calls
      modifies this`records, this`calls
      ensures Reaches(old(State()), es, State()) && !ok && a in calls && calls[a].launch == Returned(false)
    {
      ghost var m := State();
      var saved: bool := *;
      es := More(m, [], m, Event.Refuse(a, installation, saved));
      if saved {
        records := records[a := Record(installation, Failed, None)];
      }
      calls := calls[a := NewCall(installation).(launch := Returned(false))];
      ok := false;
    }

    method FailExecution(a: ActivityId, ghost m: World, ghost before: seq<Event>) returns (ghost es: seq<Event>)
      requires a in calls && calls[a].launch.Execute? && Reaches(m, before, State())
      modifies this`records, this`calls
      ensures Reaches(m, es, State()) && a in calls && calls[a].launch == Returned(false)
    {
      hide Next, Enabled, Reaches, HasActive, Answer, EndStatus, AfterReap, Unregistered, Disconnect;
      NothingStartedStep(State(), a);
      es := More(m, before, State(), ExecutePlan(a, None));
      calls := calls[a := calls[a].(launch := SaveExecutionFailure)];
      var saved: bool := *;
      ExecutionFailedStep(State(), a, saved);
      es := More(m, es, State(), SaveExecutionFailed(a, saved));
      if saved {
        records := records[a := Record(calls[a].installation, Failed, None)];
      }
      calls := calls[a := calls[a].(launch := Returned(false))];
    }

    /** Takes an activity out of the active map, if it is there with this process number and the lock is sound. */
    method Unregister(a: ActivityId, p: Handle)
      requires p in processes
      modifies this`active
      ensures active == Put(old(active), a, Unregistered(old(State()), a, p))
      ensures active == if !poisoned && a in old(active) && old(active)[a] == processes[p].id
        then old(active) - {a} else old(active)
    {
      PutLookup(active, a);
      if !poisoned && a in active && active[a] == processes[p].id {
        active := active - {a};
      }
    }

    method StartMonitor(a: ActivityId, p: Handle, ghost m: World, ghost before: seq<Event>)
      returns (spawned: bool, ghost es: seq<Event>)
      requires a in calls && Reaches(m, before, State()) && calls[a].launch == LaunchPc.Spawn(p)
      modifies this`calls
      ensures Reaches(m, es, State())
      ensures calls == old(calls)[a := if spawned
            then old(calls)[a].(launch := LaunchPc.Register(p), monitor := AwaitStart)
                                       else old(calls)[a].(launch := Reap(p))]
    {
      hide Next, Enabled, Reaches;
      spawned := *;
      SpawnStep(State(), a, spawned);
      es := More(m, before, State(), SpawnMonitor(a, spawned));
      calls := calls[a := if spawned then calls[a].(launch := LaunchPc.Register(p), monitor := AwaitStart)
                          else calls[a].(launch := Reap(p))];
    }

    /** Puts the launch in the active map, unless its lock is poisoned. */
    method Register(a: ActivityId, p: Handle, ghost m: World, ghost before: seq<Event>)
      returns (registered: bool, ghost es: seq<Event>)
      requires a in calls && p in processes && Reaches(m, before, State()) && calls[a].launch == LaunchPc.Register(p)
      modifies this`calls, this`active
      ensures Reaches(m, es, State()) && registered == !poisoned
      ensures calls == old(calls)[a := old(calls)[a].(launch := if registered then LaunchPc.Send(p) else Reap(p))]
      ensures active == if registered then old(active)[a := processes[p].id] else old(active)
    {
      hide Next, Enabled, Reaches;
      RegisterStep(State(), a);
      es := More(m, before, State(), RegisterActive(a));
      registered := !poisoned;
      calls := calls[a := calls[a].(launch := if registered then LaunchPc.Send(p) else Reap(p))];
      if registered {
        active := active[a := processes[p].id];
      }
    }

    /** Starts the monitor, registers it and hands the process over, or fails the launch. */
    method Supervise(a: ActivityId, p: Handle, ghost m: World, ghost before: seq<Event>)
      returns (ok: bool, ghost es: seq<Event>)
      requires a in calls && p in processes && a !in active && Reaches(m, before, State())
      requires calls[a].launch == LaunchPc.Spawn(p) && calls[a].monitor.NotSpawned? && calls[a].inbox == []
      modifies this
      ensures Reaches(m, es, State()) && a in calls && calls[a].launch == Returned(ok) && p in processes
      ensures ok ==> calls[a].monitor == Poll(p) && records == old(records) && processes == old(processes)
                     && active == old(active)[a := processes[p].id]
      ensures !ok ==> processes == old(processes)[p := processes[p]] && processes[p].state != Live
      ensures !ok ==> active == old(active)
      ensures !ok ==> FailureRecorded(old(records), records, a, old(calls)[a].installation, processes[p].id)
    {
      hide Next, Enabled, Reaches, FailureRecorded, HasActive, Answer, EndStatus, AfterReap;
      var spawned;
      spawned, es := StartMonitor(a, p, m, before);
      if !spawned {
        var saved;
        saved, es := RecordFailure(a, p, m, es);
        return false, es;
      }
      ok, es := RegisterAndSend(a, p, m, es);
    }

    method RegisterAndSend(a: ActivityId, p: Handle, ghost m: World, ghost before: seq<Event>)
      returns (ok: bool, ghost es: seq<Event>)
      requires a in calls && p in processes && a !in active && Reaches(m, before, State())
      requires calls[a].launch == LaunchPc.Register(p) && calls[a].monitor.AwaitStart? && calls[a].inbox == []
      modifies this
      ensures Reaches(m, es, State()) && a in calls && calls[a].launch == Returned(ok) && p in processes
      ensures ok ==> calls[a].monitor == Poll(p) && records == old(records) && processes == old(processes)
                     && active == old(active)[a := processes[p].id]
      ensures !ok ==> processes == old(processes)[p := processes[p]] && processes[p].state != Live
      ensures !ok ==> active == old(active)
      ensures !ok ==> FailureRecorded(old(records), records, a, old(calls)[a].installation, processes[p].id)
    {
      hide Next, Enabled, Reaches, FailureRecorded, HasActive, Answer, EndStatus, AfterReap;
      var registered;
      registered, es := Register(a, p, m, before);
      if !registered {
        var saved;
        saved, es := RecordFailure(a, p, m, es);
        return false, es;
      }
      SendStep(State(), a);
      es := More(m, es, State(), SendProcess(a));
      calls := calls[a := calls[a].(launch := Sending, handover := Some(p))];
      ok, es := HandOver(a, p, m, es);
      PutAndTake(old(active), a, processes[p].id);
    }

    method HandOver(a: ActivityId, p: Handle, ghost m: World, ghost before: seq<Event>)
      returns (ok: bool, ghost es: seq<Event>)
      requires a in calls && p in processes && !poisoned && a in active && active[a] == processes[p].id
      requires calls[a].launch == Sending && calls[a].handover == Some(p) && calls[a].monitor.AwaitStart?
            && calls[a].inbox == []
      requires Reaches(m, before, State())
      modifies this
      ensures Reaches(m, es, State()) && a in calls && calls[a].launch == Returned(ok) && p in processes
      ensures ok ==> calls[a].monitor == Poll(p) && records == old(records) && processes == old(processes)
      ensures ok ==> active == old(active)
      ensures !ok ==> processes == old(processes)[p := processes[p]] && processes[p].state != Live
      ensures !ok ==> active == old(active) - {a}
      ensures !ok ==> FailureRecorded(old(records), records, a, old(calls)[a].installation, processes[p].id)
    {
      hide Next, Enabled, Reaches, FailureRecorded, HasActive, Answer, EndStatus, AfterReap;
      ok := *;
      if ok {
        ReceiveStep(State(), a);
        es := More(m, before, State(), ReceiveProcess(a));
        calls := calls[a := calls[a].(launch := Returned(true), handover := None, monitor := Poll(p))];
      } else {
        GoneStep(State(), a);
        NobodyToDisconnect(requests);
        es := More(m, before, State(), MonitorGone(a));
        calls := calls[a := calls[a].(monitor := Ended)];
        SendFailsStep(State(), a);
        es := More(m, es, State(), SendFails(a));
        Unregister(a, p);
        calls := calls[a := calls[a].(launch := Reap(p), handover := None)];
        var saved;
        saved, es := RecordFailure(a, p, m, es);
      }
    }

    /**
     Launches an installation; `started` is the process the executor starts, if
     it starts one. A launch that succeeds leaves a running, registered and
     monitored process behind, and one that fails leaves none it started alive.
     */
    method Launch(a: ActivityId, installation: InstallationId, started: Option<(Handle, ProcessId)>)
      returns (ok: bool, ghost es: seq<Event>)
      requires a !in records && a !in calls && a !in active && (started.Some? ==> started.value.0 !in processes)
      modifies this
      ensures Reaches(old(State()), es, State()) && a in calls && calls[a].launch == Returned(ok)
      ensures ok ==> started.Some? && var (p, id) := started.value;
                && !HasActive(old(records), installation)
                && records == old(records)[a := Record(installation, Running, Some(id))]
                && active == old(active)[a := id] && calls[a].monitor == Poll(p)
                && processes == old(processes)[p := Process(a, id, Live)]
      ensures !ok ==> active == old(active) && NewOnesAreGone(old(processes), processes)
    {
      hide Next, Enabled, Reaches;
      ghost var m := State();
      var planned: bool := *;
      if !planned {
        ok, es := Refuse(a, installation);
        return;
      }
      var begun;
      begun, es := Begin(a, installation);
      if !begun {
        return false, es;
      }
      ok, es := Execute(a, installation, started, m, es);
      if ok {
        PutTwice(old(records), a, Record(installation, Starting, None),
          Record(installation, Running, Some(started.value.1)));
      }
    }

    /** Stores a starting activity, unless the installation has an active one already. */
    method Begin(a: ActivityId, installation: InstallationId) returns (begun: bool, ghost es: seq<Event>)
      requires a !in records && a !in calls
      modifies this`records, this`calls
      ensures Reaches(old(State()), es, State()) && a in calls
      ensures begun ==> !HasActive(old(records), installation)
                        && records == old(records)[a := Record(installation, Starting, None)]
                        && calls[a] == NewCall(installation).(launch := LaunchPc.Execute)
      ensures !begun ==> records == old(records) && calls[a].launch == Returned(false)
    {
      hide Next, Enabled, Reaches;
      ghost var m := State();
      es := StartCallStep(m, a, installation);
      calls := calls[a := NewCall(installation)];
      var saved: bool := *;
      BeginStep(State(), a, saved);
      es := More(m, es, State(), BeginActivity(a, saved));
      begun := !HasActive(records, installation) && saved;
      if begun {
        records := records[a := Record(installation, Starting, None)];
        calls := calls[a := calls[a].(launch := LaunchPc.Execute)];
      } else {
        calls := calls[a := calls[a].(launch := Returned(false))];
      }
    }

    method Execute(a: ActivityId, installation: InstallationId, started: Option<(Handle, ProcessId)>,
                   ghost m: World, ghost before: seq<Event>)
      returns (ok: bool, ghost es: seq<Event>)
      requires a in calls && calls[a] == NewCall(installation).(launch := LaunchPc.Execute)
      requires a !in active && (started.Some? ==> started.value.0 !in processes) && Reaches(m, before, State())
      modifies this
      ensures Reaches(m, es, State()) && a in calls && calls[a].launch == Returned(ok)
      ensures ok ==> started.Some? && var (p, id) := started.value;
                && records == old(records)[a := Record(installation, Running, Some(id))]
                && active == old(active)[a := id] && calls[a].monitor == Poll(p)
                && processes == old(processes)[p := Process(a, id, Live)]
      ensures !ok ==> active == old(active) && NewOnesAreGone(old(processes), processes)
    {
      hide Next, Enabled, Reaches, FailureRecorded, HasActive, Answer, EndStatus, AfterReap, Unregistered;
      match started {
        case None =>
          es := FailExecution(a, m, before);
          ok := false;
        case Some((p, id)) =>
          StartedStep(State(), a, p, id);
          es := More(m, before, State(), ExecutePlan(a, started));
          processes := processes[p := Process(a, id, Live)];
          calls := calls[a := calls[a].(launch := SaveRunning(p))];
          var stored: bool := *;
          RunningStep(State(), a, stored);
          es := More(m, es, State(), SaveRunningStatus(a, stored));
          if stored {
            records := records[a := Record(installation, Running, Some(id))];
            calls := calls[a := calls[a].(launch := LaunchPc.Spawn(p))];
            ok, es := Supervise(a, p, m, es);
          } else {
            calls := calls[a := calls[a].(launch := Reap(p))];
            var saved;
            saved, es := RecordFailure(a, p, m, es);
            ok := false;
          }
      }
    }

    // The process monitor.

    /** Saves an activity's end, trying three times. */
    method PersistTerminalActivity(a: ActivityId, p: Handle, end: Status, ghost m: World, ghost before: seq<Event>)
      returns (stored: bool, ghost es: seq<Event>)
      requires a in calls && p in processes && calls[a].monitor == Persist(p, end, 1) && Reaches(m, before, State())
      modifies this`records, this`calls
      ensures Reaches(m, es, State()) && a in calls
      ensures calls[a] == old(calls)[a].(monitor := Remove(p), gaveUp := calls[a].gaveUp)
      ensures stored ==> records == old(records)[a := Record(old(calls)[a].installation, end, Some(processes[p].id))]
      ensures !stored ==> calls[a].gaveUp && records == old(records)
    {
      hide Next, Enabled, Reaches;
      es := before;
      for attempt := 1 to 4
        invariant a in calls && calls[a] == (
                    if attempt < 4 then old(calls)[a].(monitor := Persist(p, end, attempt))
                    else old(calls)[a].(monitor := Remove(p), gaveUp := true))
        invariant records == old(records) && Reaches(m, es, State())
      {
        var saved: bool := *;
        PersistStep(State(), a, saved);
        es := More(m, es, State(), PersistEnd(a, saved));
        if saved {
          records := records[a := Record(calls[a].installation, end, Some(processes[p].id))];
          calls := calls[a := calls[a].(monitor := Remove(p))];
          return true, es;
        }
        calls := calls[a := if attempt < 3 then calls[a].(monitor := Persist(p, end, attempt + 1))
                            else calls[a].(monitor := Remove(p), gaveUp := true)];
      }
      stored := false;
    }

    /**
     Answers one stop request, if one waits: the process is told to end, and the request
     hears whether that was recorded.
     */
    method PollStop(a: ActivityId, p: Handle, ghost m: World, ghost before: seq<Event>) returns (ghost es: seq<Event>)
      requires a in calls && p in processes && calls[a].monitor == Poll(p) && Reaches(m, before, State())
      modifies this`records, this`calls, this`requests
      ensures Reaches(m, es, State()) && a in calls && calls[a].monitor == TryWait(p)
      ensures calls[a].installation == old(calls)[a].installation && calls[a].gaveUp == old(calls)[a].gaveUp
      ensures old(calls)[a].inbox == [] ==>
            records == old(records) && calls[a].stopRequested == old(calls)[a].stopRequested
    {
      hide Next, Enabled, Reaches, Answer;
      if calls[a].inbox == [] {
        PollStep(State(), a, true);
        es := More(m, before, State(), PollCommands(a, true));
        calls := calls[a := calls[a].(monitor := TryWait(p))];
      } else {
        es := ServeStop(a, p, m, before);
      }
    }

    method ServeStop(a: ActivityId, p: Handle, ghost m: World, ghost before: seq<Event>) returns (ghost es: seq<Event>)
      requires a in calls && p in processes && calls[a].monitor == Poll(p) && calls[a].inbox != []
            && Reaches(m, before, State())
      modifies this`records, this`calls, this`requests
      ensures Reaches(m, es, State()) && a in calls && calls[a].monitor == TryWait(p)
      ensures calls[a].installation == old(calls)[a].installation && calls[a].gaveUp == old(calls)[a].gaveUp
      ensures calls[a].inbox == old(calls)[a].inbox[1..]
    {
      hide Next, Enabled, Reaches, Answer;
      var request := calls[a].inbox[0];
      var terminated: bool := *;
      PollStep(State(), a, terminated);
      es := More(m, before, State(), PollCommands(a, terminated));
      if terminated {
        calls := calls[a := calls[a].(monitor := AnswerStop(p, request), inbox := calls[a].inbox[1..],
          stopRequested := true)];
        es := AnswerWithStop(a, p, request, m, es);
      } else {
        requests := Answer(requests, Some((request, false)));
        calls := calls[a := calls[a].(monitor := TryWait(p), inbox := calls[a].inbox[1..])];
      }
    }

    /** Records that a process was told to end, and answers who asked. */
    method AnswerWithStop(a: ActivityId, p: Handle, request: RequestId, ghost m: World, ghost before: seq<Event>)
      returns (ghost es: seq<Event>)
      requires a in calls && p in processes && calls[a].monitor == AnswerStop(p, request) && Reaches(m, before, State())
      modifies this`records, this`calls, this`requests
      ensures Reaches(m, es, State()) && a in calls && calls[a] == old(calls)[a].(monitor := TryWait(p))
      ensures requests.Keys == old(requests).Keys && forall q | q in requests && q != request ::
            requests[q] == old(requests)[q]
      ensures request in requests ==> requests[request].state.Answered?
      ensures request in requests ==>
                records == if requests[request].state == Answered(true)
                           then old(records)[a := Record(calls[a].installation, Stopping, Some(processes[p].id))]
                           else old(records)
    {
      hide Next, Enabled, Reaches;
      var saved: bool := *;
      StoppingStep(State(), a, saved);
      es := More(m, before, State(), SaveStopping(a, saved));
      if saved {
        records := records[a := Record(calls[a].installation, Stopping, Some(processes[p].id))];
      }
      requests := Answer(requests, Some((request, saved)));
      calls := calls[a := calls[a].(monitor := TryWait(p))];
    }

    /** Looks at a process once; if it has ended, or looking fails, this gives the status to record. */
    method LookAtProcess(a: ActivityId, p: Handle, look: WaitOutcome, ghost m: World, ghost before: seq<Event>)
      returns (end: Option<Status>, ghost es: seq<Event>)
      requires a in calls && p in processes && calls[a].monitor == TryWait(p) && Reaches(m, before, State())
      modifies this`calls, this`processes
      ensures Reaches(m, es, State()) && a in calls && processes == old(processes)[p := Looked(old(processes)[p], look)]
      ensures end == match look
        case StillRunning => None
        case Exit(code) => Some(EndStatus(old(calls)[a].stopRequested, code))
        case WaitError(_) => Some(Failed)
      ensures calls[a].monitor == if end.Some? then Persist(p, end.value, 1) else Poll(p)
    {
      hide Next, Enabled, Reaches;
      WaitStep(State(), a, look);
      es := More(m, before, State(), TryWaiting(a, look));
      processes := processes[p := Looked(processes[p], look)];
      match look {
        case StillRunning =>
          end := None;
          calls := calls[a := calls[a].(monitor := Poll(p))];
        case Exit(code) =>
          end := Some(EndStatus(calls[a].stopRequested, code));
          calls := calls[a := calls[a].(monitor := Persist(p, end.value, 1))];
        case WaitError(_) =>
          end := Some(Failed);
          calls := calls[a := calls[a].(monitor := Persist(p, Failed, 1), waitFailed := true)];
      }
    }

    /**
     The end of a monitored process: recorded if it can be, unregistered, and nobody is
     left waiting for an answer.
     */
    method EndMonitor(a: ActivityId, p: Handle, end: Status, ghost m: World, ghost before: seq<Event>)
      returns (stored: bool, ghost es: seq<Event>)
      requires a in calls && p in processes && calls[a].monitor == Persist(p, end, 1) && Reaches(m, before, State())
      modifies this`records, this`calls, this`active, this`requests
      ensures Reaches(m, es, State()) && a in calls && calls[a].monitor.Ended?
      ensures stored ==> a in records && records[a] == Record(old(calls)[a].installation, end, Some(processes[p].id))
      ensures !stored ==> calls[a].gaveUp && records == old(records)
      ensures !poisoned ==> !(a in active && active[a] == processes[p].id)
      ensures forall q | q in requests && q in old(calls)[a].inbox :: requests[q].state == Disconnected
    {
      hide Next, Enabled, Reaches;
      stored, es := PersistTerminalActivity(a, p, end, m, before);
      RemoveStep(State(), a);
      es := More(m, es, State(), RemoveActive(a));
      requests := Disconnect(requests, calls[a].inbox);
      Unregister(a, p);
      calls := calls[a := calls[a].(monitor := Ended, inbox := [])];
    }

    /**
     Watches a process: before each look at it one stop request is served, and
     when it has ended, or looking fails, that is recorded and the monitor ends.
     `looks` is what looking at the process gives, time after time.
     */
    method MonitorProcess(a: ActivityId, p: Handle, looks: seq<WaitOutcome>) returns (ended: bool, ghost es: seq<Event>)
      requires a in calls && p in processes && calls[a].monitor == Poll(p)
      modifies this
      ensures Reaches(old(State()), es, State()) && a in calls && p in processes
      ensures ended <==> exists i | 0 <= i < |looks| :: !looks[i].StillRunning?
      ensures ended ==> calls[a].monitor.Ended? && (!poisoned ==> !(a in active && active[a] == processes[p].id))
      ensures ended && old(processes)[p].state.Live? ==> !processes[p].state.Live?
      ensures ended && !calls[a].gaveUp ==> a in records && !records[a].status.IsActive()
      ensures !ended ==> calls[a].monitor == Poll(p)
    {
      hide Next, Enabled, Reaches, Runnable, Run;
      ghost var m := State();
      es := Stay(m);
      for n := 0 to |looks|
        invariant a in calls && p in processes && calls[a].monitor == Poll(p) && Reaches(m, es, State())
        invariant forall i | 0 <= i < n :: looks[i].StillRunning?
      {
        es := PollStop(a, p, m, es);
        var end;
        end, es := LookAtProcess(a, p, looks[n], m, es);
        if end.Some? {
          var stored;
          stored, es := EndMonitor(a, p, end.value, m, es);
          return true, es;
        }
      }
      ended := false;
    }
  }
}
