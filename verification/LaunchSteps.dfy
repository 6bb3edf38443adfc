/** What each step of a launch call and of its monitor makes of the world, field by field. */
module LaunchSteps {
  import opened Wrappers
  import opened LaunchSupervisor

  lemma {:induction false} PutLookup<K, V>(m: map<K, V>, k: K)
    ensures Put(m, k, Lookup(m, k)) == m
  {
  }

  /** An event that leaves process, requests and channel alone. */
  lemma {:induction false} PlainStep(w: World, a: ActivityId, f: Effect)
    requires a in w.calls && f.process.None? && f.answer.None? && !f.disconnect
    ensures Install(w, a, f).calls == w.calls[a := f.call] && Install(w, a, f).processes == w.processes
    ensures Install(w, a, f).requests == w.requests && Install(w, a, f).poisoned == w.poisoned
    ensures f.record == Lookup(w.records, a) ==> Install(w, a, f).records == w.records
    ensures f.registration == Lookup(w.active, a) ==> Install(w, a, f).active == w.active
    ensures f.record.Some? ==> Install(w, a, f).records == w.records[a := f.record.value]
    ensures f.registration.Some? ==> Install(w, a, f).active == w.active[a := f.registration.value]
  {
    PutLookup(w.records, a);
    PutLookup(w.active, a);
  }

  lemma {:induction false} BeginStep(w: World, a: ActivityId, saved: bool)
    requires a in w.calls && w.calls[a].launch.Begin?
    ensures var c := w.calls[a]; var e := BeginActivity(a, saved);
      Enabled(w, e) && Next(w, e) ==
        if HasActive(w.records, c.installation) || !saved then w.(calls := w.calls[a := c.(launch := Returned(false))])
        else w.(calls := w.calls[a := c.(launch := LaunchPc.Execute)],
          records := w.records[a := Record(c.installation, Starting, None)])
  {
    PlainStep(w, a, CallEffect(w, a, w.calls[a], BeginActivity(a, saved)));
  }

  lemma {:induction false} NothingStartedStep(w: World, a: ActivityId)
    requires a in w.calls && w.calls[a].launch.Execute?
    ensures var e := ExecutePlan(a, None);
      Enabled(w, e) && Next(w, e) == w.(calls := w.calls[a := w.calls[a].(launch := SaveExecutionFailure)])
  {
    PlainStep(w, a, CallEffect(w, a, w.calls[a], ExecutePlan(a, None)));
  }

  lemma {:induction false} StartedStep(w: World, a: ActivityId, p: Handle, id: ProcessId)
    requires a in w.calls && w.calls[a].launch.Execute? && p !in w.processes
    ensures var e := ExecutePlan(a, Some((p, id)));
      Enabled(w, e) && Next(w, e) == w.(calls := w.calls[a := w.calls[a].(launch := SaveRunning(p))],
                                         processes := w.processes[p := Process(a, id, Live)])
  {
    PutLookup(w.records, a);
    PutLookup(w.active, a);
  }

  lemma {:induction false} ExecutionFailedStep(w: World, a: ActivityId, saved: bool)
    requires a in w.calls && w.calls[a].launch.SaveExecutionFailure?
    ensures var e := SaveExecutionFailed(a, saved); var c := w.calls[a];
      Enabled(w, e) && Next(w, e) == w.(
        calls := w.calls[a := c.(launch := Returned(false))],
        records := if saved then w.records[a := Record(c.installation, Failed, None)] else w.records)
  {
    PlainStep(w, a, CallEffect(w, a, w.calls[a], SaveExecutionFailed(a, saved)));
  }

  lemma {:induction false} RunningStep(w: World, a: ActivityId, saved: bool)
    requires a in w.calls && w.calls[a].launch.SaveRunning? && w.calls[a].launch.p in w.processes
    ensures var e := SaveRunningStatus(a, saved); var c := w.calls[a]; var p := c.launch.p;
      Enabled(w, e) && Next(w, e) ==
        if saved then w.(calls := w.calls[a := c.(launch := LaunchPc.Spawn(p))],
                         records := w.records[a := Record(c.installation, Running, Some(w.processes[p].id))])
        else w.(calls := w.calls[a := c.(launch := Reap(p))])
  {
    PlainStep(w, a, CallEffect(w, a, w.calls[a], SaveRunningStatus(a, saved)));
  }

  lemma {:induction false} ReapStep(w: World, a: ActivityId, outcome: ReapOutcome)
    requires a in w.calls && w.calls[a].launch.Reap? && w.calls[a].launch.p in w.processes
    ensures var e := ReapAfterFailure(a, outcome); var p := w.calls[a].launch.p;
      Enabled(w, e) && Next(w, e) == w.(calls := w.calls[a := w.calls[a].(launch := SaveFailure(p))],
                                         processes := w.processes[p := w.processes[p].(state := AfterReap(outcome))])
  {
    PutLookup(w.records, a);
    PutLookup(w.active, a);
  }

  lemma {:induction false} FailureStep(w: World, a: ActivityId, saved: bool)
    requires a in w.calls && w.calls[a].launch.SaveFailure? && w.calls[a].launch.p in w.processes
    ensures var e := SaveFailedStatus(a, saved); var c := w.calls[a];
      Enabled(w, e) && Next(w, e) == w.(
        calls := w.calls[a := c.(launch := Returned(false))],
        records := if saved then w.records[a := Record(c.installation, Failed, Some(w.processes[c.launch.p].id))]
          else w.records)
  {
    PlainStep(w, a, CallEffect(w, a, w.calls[a], SaveFailedStatus(a, saved)));
  }

  lemma {:induction false} SpawnStep(w: World, a: ActivityId, ok: bool)
    requires a in w.calls && w.calls[a].launch.Spawn?
    ensures var e := SpawnMonitor(a, ok); var c := w.calls[a]; var p := c.launch.p;
      Enabled(w, e) && Next(w, e) == w.(calls := w.calls[a :=
        if ok then c.(launch := LaunchPc.Register(p), monitor := AwaitStart) else c.(launch := Reap(p))])
  {
    PlainStep(w, a, CallEffect(w, a, w.calls[a], SpawnMonitor(a, ok)));
  }

  lemma {:induction false} RegisterStep(w: World, a: ActivityId)
    requires a in w.calls && w.calls[a].launch.Register? && w.calls[a].launch.p in w.processes
    ensures var e := RegisterActive(a); var c := w.calls[a]; var p := c.launch.p;
      Enabled(w, e) && Next(w, e) ==
        if w.poisoned then w.(calls := w.calls[a := c.(launch := Reap(p))])
        else w.(calls := w.calls[a := c.(launch := LaunchPc.Send(p))], active := w.active[a := w.processes[p].id])
  {
    PlainStep(w, a, CallEffect(w, a, w.calls[a], RegisterActive(a)));
  }

  lemma {:induction false} SendStep(w: World, a: ActivityId)
    requires a in w.calls && w.calls[a].launch.Send?
    ensures var e := SendProcess(a); var c := w.calls[a];
      Enabled(w, e) && Next(w, e) == w.(calls := w.calls[a := c.(launch := Sending, handover := Some(c.launch.p))])
  {
    PlainStep(w, a, CallEffect(w, a, w.calls[a], SendProcess(a)));
  }

  lemma {:induction false} ReceiveStep(w: World, a: ActivityId)
    requires a in w.calls && w.calls[a].launch.Sending? && w.calls[a].handover.Some? && w.calls[a].monitor.AwaitStart?
    ensures var e := ReceiveProcess(a); var c := w.calls[a];
      Enabled(w, e) && Next(w, e) ==
        w.(calls := w.calls[a := c.(launch := Returned(true), handover := None, monitor := Poll(c.handover.value))])
  {
    PlainStep(w, a, CallEffect(w, a, w.calls[a], ReceiveProcess(a)));
  }

  lemma {:induction false} NobodyToDisconnect(requests: map<RequestId, Request>)
    ensures Disconnect(requests, []) == requests
  {
  }

  lemma {:induction false} GoneStep(w: World, a: ActivityId)
    requires a in w.calls && w.calls[a].monitor.AwaitStart?
    ensures var e := MonitorGone(a); var c := w.calls[a];
      Enabled(w, e) && Next(w, e) == w.(calls := w.calls[a := c.(monitor := Ended, inbox := [])],
                                         requests := Disconnect(w.requests, c.inbox))
  {
    PutLookup(w.records, a);
    PutLookup(w.active, a);
  }

  lemma {:induction false} SendFailsStep(w: World, a: ActivityId)
    requires a in w.calls && w.calls[a].launch.Sending? && w.calls[a].handover.Some? && w.calls[a].monitor.Ended?
    requires w.calls[a].handover.value in w.processes
    ensures var e := SendFails(a); var c := w.calls[a]; var p := c.handover.value;
      Enabled(w, e) && Next(w, e) == w.(calls := w.calls[a := c.(launch := Reap(p), handover := None)],
                                         active := Put(w.active, a, Unregistered(w, a, p)))
  {
    PutLookup(w.records, a);
  }

  // The monitor.

  lemma {:induction false} PollStep(w: World, a: ActivityId, terminated: bool)
    requires a in w.calls && w.calls[a].monitor.Poll?
    ensures var e := PollCommands(a, terminated); var c := w.calls[a]; var p := c.monitor.p;
      Enabled(w, e) && Next(w, e) ==
        if c.inbox == [] then w.(calls := w.calls[a := c.(monitor := TryWait(p))])
        else if terminated
        then w.(calls := w.calls[a := c.(monitor := AnswerStop(p, c.inbox[0]), inbox := c.inbox[1..],
          stopRequested := true)])
        else w.(calls := w.calls[a := c.(monitor := TryWait(p), inbox := c.inbox[1..])],
                requests := Answer(w.requests, Some((c.inbox[0], false))))
  {
    PutLookup(w.records, a);
    PutLookup(w.active, a);
  }

  lemma {:induction false} StoppingStep(w: World, a: ActivityId, saved: bool)
    requires a in w.calls && w.calls[a].monitor.AnswerStop? && w.calls[a].monitor.p in w.processes
    ensures var e := SaveStopping(a, saved); var c := w.calls[a]; var p := c.monitor.p;
      Enabled(w, e) && Next(w, e) == w.(
        calls := w.calls[a := c.(monitor := TryWait(p))],
        requests := Answer(w.requests, Some((c.monitor.request, saved))),
        records := if saved then w.records[a := Record(c.installation, Stopping, Some(w.processes[p].id))]
          else w.records)
  {
    PutLookup(w.records, a);
    PutLookup(w.active, a);
  }

  /** What a look at the process makes of its state. */
  function Looked(process: Process, wait: WaitOutcome): Process {
    match wait
    case StillRunning => process
    case Exit(_) => process.(state := Reaped)
    case WaitError(reap) => process.(state := AfterReap(reap))
  }

  lemma {:induction false} WaitStep(w: World, a: ActivityId, wait: WaitOutcome)
    requires a in w.calls && w.calls[a].monitor.TryWait? && w.calls[a].monitor.p in w.processes
    ensures var e := TryWaiting(a, wait); var c := w.calls[a]; var p := c.monitor.p;
      Enabled(w, e) && Next(w, e) == w.(
        calls := w.calls[a := match wait
          case StillRunning => c.(monitor := Poll(p))
          case Exit(code) => c.(monitor := Persist(p, EndStatus(c.stopRequested, code), 1))
          case WaitError(_) => c.(monitor := Persist(p, Failed, 1), waitFailed := true)],
        processes := w.processes[p := Looked(w.processes[p], wait)])
  {
    PutLookup(w.records, a);
    PutLookup(w.active, a);
    if wait.StillRunning? {
      assert w.processes == w.processes[w.calls[a].monitor.p := w.processes[w.calls[a].monitor.p]];
    }
  }

  lemma {:induction false} PersistStep(w: World, a: ActivityId, saved: bool)
    requires a in w.calls && w.calls[a].monitor.Persist? && w.calls[a].monitor.p in w.processes
    ensures var e := PersistEnd(a, saved); var c := w.calls[a]; var Persist(p, end, attempt) := c.monitor;
      Enabled(w, e) && Next(w, e) ==
        if saved then w.(calls := w.calls[a := c.(monitor := Remove(p))],
                         records := w.records[a := Record(c.installation, end, Some(w.processes[p].id))])
        else if attempt < 3 then w.(calls := w.calls[a := c.(monitor := Persist(p, end, attempt + 1))])
        else w.(calls := w.calls[a := c.(monitor := Remove(p), gaveUp := true)])
  {
    PutLookup(w.records, a);
    PutLookup(w.active, a);
  }

  lemma {:induction false} RemoveStep(w: World, a: ActivityId)
    requires a in w.calls && w.calls[a].monitor.Remove? && w.calls[a].monitor.p in w.processes
    ensures var e := RemoveActive(a); var c := w.calls[a];
      Enabled(w, e) && Next(w, e) == w.(
        calls := w.calls[a := c.(monitor := Ended, inbox := [])],
        active := Put(w.active, a, Unregistered(w, a, c.monitor.p)),
        requests := Disconnect(w.requests, c.inbox))
  {
    PutLookup(w.records, a);
  }

  // Runs of one thread.

  /** The world gets from one state to another by these events. */
  predicate Reaches(w: World, es: seq<Event>, after: World) {
    Runnable(w, es) && Run(w, es) == after
  }

  lemma {:induction false} RunOneMore(w: World, es: seq<Event>, e: Event)
    requires Runnable(w, es) && Enabled(Run(w, es), e)
    ensures Runnable(w, es + [e]) && Run(w, es + [e]) == Next(Run(w, es), e)
    decreases |es|
  {
    hide Next, Enabled;
    if es == [] {
      assert [e][1..] == [];
      assert es + [e] == [e];
    } else {
      RunOneMore(Next(w, es[0]), es[1..], e);
      assert (es + [e])[1..] == es[1..] + [e];
    }
  }

  lemma {:induction false} More(w: World, es: seq<Event>, at: World, e: Event) returns (more: seq<Event>)
    requires Reaches(w, es, at) && Enabled(at, e)
    ensures Reaches(w, more, Next(at, e)) && more == es + [e]
  {
    RunOneMore(w, es, e);
    more := es + [e];
  }
}
