/**
 What launches and stops come to: an unhindered launch is supervised, a stop of a
 supervised activity is carried out, and what exactly hinders them.
 */
module LaunchProgress {
  import opened Wrappers
  import opened LaunchSupervisor
  import opened LaunchSafety
  import opened LaunchTheorems

  // Launching.

  /** A world but for one activity. */
  function With(w: World, a: ActivityId, c: Call, record: Option<Record>, registration: Option<ProcessId>,
      processes: map<Handle, Process>): World {
    w.(calls := w.calls[a := c], records := Put(w.records, a, record), active := Put(w.active, a, registration),
       processes := processes)
  }

  /** The steps of a launch in which nothing fails. */
  function LaunchSteps(a: ActivityId, installation: InstallationId, h: Handle, p: ProcessId): seq<Event> {
    [StartCall(a, installation), BeginActivity(a, true), ExecutePlan(a, Some((h, p))), SaveRunningStatus(a, true),
     SpawnMonitor(a, true), RegisterActive(a), SendProcess(a), ReceiveProcess(a)]
  }

  lemma {:induction false} EventWith(w: World, a: ActivityId, c: Call, record: Option<Record>,
      registration: Option<ProcessId>, processes: map<Handle, Process>, e: Event)
    requires var at := With(w, a, c, record, registration, processes);
      IsCallEvent(e) && e.a == a && Enabled(at, e) && !CallEffect(at, a, c, e).disconnect
      && CallEffect(at, a, c, e).answer.None?
    ensures var at := With(w, a, c, record, registration, processes); var f := CallEffect(at, a, c, e);
      Next(at, e) == With(w, a, f.call, f.record, f.registration,
        if f.process.Some? then processes[f.process.value.0 := f.process.value.1] else processes)
  {
    hide CallEffect, CallEnabled;
  }

  /** Where each of these steps leads. */
  lemma {:induction false} BeginningGoesOn(w: World, a: ActivityId, installation: InstallationId)
    requires a !in w.records && a !in w.active && !HasActive(w.records, installation)
    ensures var c := NewCall(installation);
      var at, e := With(w, a, c, None, None, w.processes), BeginActivity(a, true);
      Enabled(at, e) && Next(at, e) == With(w, a, c.(launch := LaunchPc.Execute),
        Some(Record(installation, Starting, None)), None, w.processes)
  {
    var c := NewCall(installation);
    assert With(w, a, c, None, None, w.processes).records == w.records;
    EventWith(w, a, c, None, None, w.processes, BeginActivity(a, true));
    hide With, HasActive;
  }

  lemma {:induction false} ExecutingGoesOn(w: World, a: ActivityId, installation: InstallationId, h: Handle,
      p: ProcessId)
    requires h !in w.processes
    ensures var c, r := NewCall(installation), Some(Record(installation, Starting, None));
      var at, e := With(w, a, c.(launch := LaunchPc.Execute), r, None, w.processes), ExecutePlan(a, Some((h, p)));
      Enabled(at, e) && Next(at, e)
        == With(w, a, c.(launch := SaveRunning(h)), r, None, w.processes[h := Process(a, p, Live)])
  {
    var c, r := NewCall(installation), Some(Record(installation, Starting, None));
    EventWith(w, a, c.(launch := LaunchPc.Execute), r, None, w.processes, ExecutePlan(a, Some((h, p))));
  }

  lemma {:induction false} SavingGoesOn(w: World, a: ActivityId, installation: InstallationId, h: Handle, p: ProcessId)
    ensures var c, ps := NewCall(installation), w.processes[h := Process(a, p, Live)];
      var at := With(w, a, c.(launch := SaveRunning(h)), Some(Record(installation, Starting, None)), None, ps);
      var e := SaveRunningStatus(a, true);
      Enabled(at, e) && Next(at, e)
        == With(w, a, c.(launch := LaunchPc.Spawn(h)), Some(Record(installation, Running, Some(p))), None, ps)
  {
    var c, ps := NewCall(installation), w.processes[h := Process(a, p, Live)];
    EventWith(w, a, c.(launch := SaveRunning(h)), Some(Record(installation, Starting, None)), None, ps,
              SaveRunningStatus(a, true));
  }

  lemma {:induction false} SpawningGoesOn(w: World, a: ActivityId, installation: InstallationId, h: Handle,
      r: Option<Record>, ps: map<Handle, Process>)
    ensures var c := NewCall(installation);
      var at, e := With(w, a, c.(launch := LaunchPc.Spawn(h)), r, None, ps), SpawnMonitor(a, true);
      Enabled(at, e) && Next(at, e) == With(w, a, c.(launch := Register(h), monitor := AwaitStart), r, None, ps)
  {
    EventWith(w, a, NewCall(installation).(launch := LaunchPc.Spawn(h)), r, None, ps, SpawnMonitor(a, true));
  }

  lemma {:induction false} RegisteringGoesOn(w: World, a: ActivityId, installation: InstallationId, h: Handle,
      p: ProcessId, r: Option<Record>, ps: map<Handle, Process>)
    requires !w.poisoned && h in ps && ps[h].id == p
    ensures var c := NewCall(installation).(monitor := AwaitStart);
      var at, e := With(w, a, c.(launch := Register(h)), r, None, ps), RegisterActive(a);
      Enabled(at, e) && Next(at, e) == With(w, a, c.(launch := Send(h)), r, Some(p), ps)
  {
    EventWith(w, a, NewCall(installation).(launch := Register(h), monitor := AwaitStart), r, None, ps,
              RegisterActive(a));
  }

  lemma {:induction false} HandingOverGoesOn(w: World, a: ActivityId, installation: InstallationId, h: Handle,
      p: ProcessId, r: Option<Record>, ps: map<Handle, Process>)
    ensures var c := NewCall(installation).(monitor := AwaitStart);
      var at := With(w, a, c.(launch := Send(h)), r, Some(p), ps);
      var sent := With(w, a, c.(launch := Sending, handover := Some(h)), r, Some(p), ps);
      && Enabled(at, SendProcess(a)) && Next(at, SendProcess(a)) == sent
      && Enabled(sent, ReceiveProcess(a)) && Next(sent, ReceiveProcess(a))
        == With(w, a, c.(launch := Returned(true), monitor := Poll(h)), r, Some(p), ps)
  {
    var c := NewCall(installation).(monitor := AwaitStart);
    EventWith(w, a, c.(launch := Send(h)), r, Some(p), ps, SendProcess(a));
    EventWith(w, a, c.(launch := Sending, handover := Some(h)), r, Some(p), ps, ReceiveProcess(a));
  }

  lemma {:induction false} StartIsWith(w: World, a: ActivityId, installation: InstallationId)
    requires a !in w.records && a !in w.calls && a !in w.active
    ensures Enabled(w, StartCall(a, installation))
    ensures Next(w, StartCall(a, installation)) == With(w, a, NewCall(installation), None, None, w.processes)
  {
  }

  lemma {:induction false} Prepend(w: World, e: Event, next: World, es: seq<Event>, last: World)
    requires Enabled(w, e) && Next(w, e) == next && Runnable(next, es) && Run(next, es) == last
    ensures Runnable(w, [e] + es) && Run(w, [e] + es) == last
  {
    hide Enabled, Next;
    assert ([e] + es)[1..] == es;
  }

  lemma {:induction false} NothingMore(w: World)
    ensures Runnable(w, []) && Run(w, []) == w
  {
  }

  function SupervisionSteps(a: ActivityId): seq<Event> {
    [SpawnMonitor(a, true), RegisterActive(a), SendProcess(a), ReceiveProcess(a)]
  }

  /** A started process is supervised. */
  lemma {:induction false} SupervisionGoesThrough(w: World, a: ActivityId, installation: InstallationId, h: Handle,
      p: ProcessId)
    requires !w.poisoned
    ensures var r, ps := Some(Record(installation, Running, Some(p))), w.processes[h := Process(a, p, Live)];
      var c := NewCall(installation); var at := With(w, a, c.(launch := LaunchPc.Spawn(h)), r, None, ps);
      && Runnable(at, SupervisionSteps(a)) && Run(at, SupervisionSteps(a))
        == With(w, a, c.(launch := Returned(true), monitor := Poll(h)), r, Some(p), ps)
  {
    var r, ps := Some(Record(installation, Running, Some(p))), w.processes[h := Process(a, p, Live)];
    var c := NewCall(installation);
    SpawningGoesOn(w, a, installation, h, r, ps);
    RegisteringGoesOn(w, a, installation, h, p, r, ps);
    HandingOverGoesOn(w, a, installation, h, p, r, ps);
    var at5 := With(w, a, c.(launch := Register(h), monitor := AwaitStart), r, None, ps);
    var at6 := With(w, a, c.(launch := Send(h), monitor := AwaitStart), r, Some(p), ps);
    var at7 := With(w, a, c.(launch := Sending, handover := Some(h), monitor := AwaitStart), r, Some(p), ps);
    var last := With(w, a, c.(launch := Returned(true), monitor := Poll(h)), r, Some(p), ps);
    hide *;
    NothingMore(last);
    Prepend(at7, ReceiveProcess(a), last, [], last);
    Prepend(at6, SendProcess(a), at7, [ReceiveProcess(a)] + [], last);
    Prepend(at5, RegisterActive(a), at6, [SendProcess(a)] + ([ReceiveProcess(a)] + []), last);
    Prepend(With(w, a, c.(launch := LaunchPc.Spawn(h)), r, None, ps), SpawnMonitor(a, true), at5,
            [RegisterActive(a)] + ([SendProcess(a)] + ([ReceiveProcess(a)] + [])), last);
    SupervisionInOrder(a);
  }

  lemma {:induction false} SupervisionInOrder(a: ActivityId)
    ensures SupervisionSteps(a) == [SpawnMonitor(a, true)]
         + ([RegisterActive(a)] + ([SendProcess(a)] + ([ReceiveProcess(a)] + [])))
  {
  }

  /**
   A launch of an installation that has no active activity, in which nothing fails,
   leaves its process alive, recorded as running, registered with its number and
   watched by its monitor, and everything else as it was.
   */
  lemma {:induction false} LaunchGoesThrough(w: World, a: ActivityId, installation: InstallationId, h: Handle,
      p: ProcessId)
    requires Inv(w) && a !in w.records && a !in w.calls && h !in w.processes && !w.poisoned
    requires forall b | b in w.records && w.records[b].installation == installation :: !w.records[b].status.IsActive()
    ensures Runnable(w, LaunchSteps(a, installation, h, p))
    ensures var after := Run(w, LaunchSteps(a, installation, h, p));
      && after.records == w.records[a := Record(installation, Running, Some(p))]
      && after.active == w.active[a := p] && after.processes == w.processes[h := Process(a, p, Live)]
      && a in after.calls && after.calls == w.calls[a := after.calls[a]]
      && after.calls[a].launch == Returned(true) && after.calls[a].monitor == Poll(h) && after.calls[a].inbox == []
      && after.requests == w.requests && !after.poisoned
  {
    var r, ps := Some(Record(installation, Running, Some(p))), w.processes[h := Process(a, p, Live)];
    var c := NewCall(installation);
    assert !HasActive(w.records, installation) && a !in w.active;
    SupervisionGoesThrough(w, a, installation, h, p);
    EndIsWith(w, a, c.(launch := Returned(true), monitor := Poll(h)), Record(installation, Running, Some(p)), p, ps);
    hide *;
    StartIsWith(w, a, installation);
    BeginningGoesOn(w, a, installation);
    ExecutingGoesOn(w, a, installation, h, p);
    SavingGoesOn(w, a, installation, h, p);
    var at1 := With(w, a, c, None, None, w.processes);
    var at2 := With(w, a, c.(launch := LaunchPc.Execute), Some(Record(installation, Starting, None)), None,
      w.processes);
    var at3 := With(w, a, c.(launch := SaveRunning(h)), Some(Record(installation, Starting, None)), None, ps);
    var at4 := With(w, a, c.(launch := LaunchPc.Spawn(h)), r, None, ps);
    var last := With(w, a, c.(launch := Returned(true), monitor := Poll(h)), r, Some(p), ps);
    Prepend(at3, SaveRunningStatus(a, true), at4, SupervisionSteps(a), last);
    Prepend(at2, ExecutePlan(a, Some((h, p))), at3, [SaveRunningStatus(a, true)] + SupervisionSteps(a), last);
    Prepend(at1, BeginActivity(a, true), at2,
            [ExecutePlan(a, Some((h, p)))] + ([SaveRunningStatus(a, true)] + SupervisionSteps(a)), last);
    Prepend(w, StartCall(a, installation), at1, [BeginActivity(a, true)]
            + ([ExecutePlan(a, Some((h, p)))] + ([SaveRunningStatus(a, true)] + SupervisionSteps(a))), last);
    StepsInOrder(a, installation, h, p);
  }

  lemma {:induction false} StepsInOrder(a: ActivityId, installation: InstallationId, h: Handle, p: ProcessId)
    ensures LaunchSteps(a, installation, h, p) == [StartCall(a, installation)] + ([BeginActivity(a, true)]
      + ([ExecutePlan(a, Some((h, p)))] + ([SaveRunningStatus(a, true)] + SupervisionSteps(a))))
  {
  }

  lemma {:induction false} EndIsWith(w: World, a: ActivityId, c: Call, record: Record, p: ProcessId,
      ps: map<Handle, Process>)
    ensures var last := With(w, a, c, Some(record), Some(p), ps);
      && last.records == w.records[a := record] && last.active == w.active[a := p] && last.processes == ps
      && last.calls == w.calls[a := c] && last.requests == w.requests && last.poisoned == w.poisoned
  {
  }

  // Stopping.

  /** The monitor of an activity is about to look at its commands. */
  predicate Polls(w: World, a: ActivityId) {
    a in w.calls && w.calls[a].monitor.Poll? && w.calls[a].monitor.p in w.processes
  }

  /** It takes the first request in its channel and terminates the process, which succeeds. */
  lemma {:induction false} FirstIsTaken(w: World, a: ActivityId)
    requires Polls(w, a) && w.calls[a].inbox != []
    ensures var c := w.calls[a]; var e := PollCommands(a, true);
      Enabled(w, e) && Next(w, e) == w.(calls := w.calls[a :=
        c.(monitor := AnswerStop(c.monitor.p, c.inbox[0]), inbox := c.inbox[1..], stopRequested := true)])
  {
    EventInPlace(w, a, PollCommands(a, true));
  }

  /** An event of one call that changes its call and its record, and may answer a request. */
  lemma {:induction false} EventInPlace(w: World, a: ActivityId, e: Event)
    requires a in w.calls && IsCallEvent(e) && e.a == a && Enabled(w, e)
    requires var f := CallEffect(w, a, w.calls[a], e);
      f.process.None? && f.registration == Lookup(w.active, a) && !f.disconnect
    ensures var f := CallEffect(w, a, w.calls[a], e);
      Next(w, e) == w.(calls := w.calls[a := f.call], records := Put(w.records, a, f.record),
        requests := Answer(w.requests, f.answer))
    ensures Put(w.records, a, Lookup(w.records, a)) == w.records
  {
    hide CallEffect, CallEnabled, Answer;
    assert Put(w.active, a, Lookup(w.active, a)) == w.active;
  }

  /** That is saved and answered with Ok. */
  lemma {:induction false} ItIsAnswered(w: World, a: ActivityId)
    requires a in w.calls && w.calls[a].monitor.AnswerStop? && w.calls[a].monitor.p in w.processes
    requires w.calls[a].monitor.request in w.requests && w.requests[w.calls[a].monitor.request].activity == a
    ensures var c := w.calls[a]; var e := SaveStopping(a, true);
      Enabled(w, e) && Next(w, e) == w.(calls := w.calls[a := c.(monitor := TryWait(c.monitor.p))],
        records := w.records[a := Record(c.installation, Stopping, Some(w.processes[c.monitor.p].id))],
        requests := w.requests[c.monitor.request := Request(a, Answered(true))])
  {
    EventInPlace(w, a, SaveStopping(a, true));
  }

  lemma {:induction false} ItRunsOn(w: World, a: ActivityId)
    requires a in w.calls && w.calls[a].monitor.TryWait? && w.calls[a].monitor.p in w.processes
    ensures var c := w.calls[a]; var e := TryWaiting(a, StillRunning);
      Enabled(w, e) && Next(w, e) == w.(calls := w.calls[a := c.(monitor := Poll(c.monitor.p))])
  {
    EventInPlace(w, a, TryWaiting(a, StillRunning));
  }

  /** The process exits, with whatever code, and the end of a stopped activity is recorded. */
  lemma {:induction false} ItEnds(w: World, a: ActivityId, code: Option<int>)
    requires a in w.calls && w.calls[a].monitor.TryWait? && w.calls[a].monitor.p in w.processes
    requires w.calls[a].stopRequested
    ensures var h := w.calls[a].monitor.p; var e := TryWaiting(a, Exit(code)); var stop := PersistEnd(a, true);
      && Enabled(w, e) && Enabled(Next(w, e), stop) && var after := Next(Next(w, e), stop);
        && a in after.records && after.requests == w.requests
        && after.records[a] == Record(w.calls[a].installation, Stopped, Some(w.processes[h].id))
        && h in after.processes && after.processes[h].state == Reaped
  {
    var c, h := w.calls[a], w.calls[a].monitor.p;
    var next := Next(w, TryWaiting(a, Exit(code)));
    assert next.calls[a] == c.(monitor := Persist(h, Stopped, 1)) && h in next.processes;
    assert next.processes[h] == w.processes[h].(state := Reaped) && next.requests == w.requests;
    EventInPlace(next, a, PersistEnd(a, true));
    hide Answer, Unregistered;
  }

  /** The world after the first request has been carried out and answered. */
  function Answering(w: World, a: ActivityId): World
    requires Polls(w, a) && w.calls[a].inbox != []
  {
    var c := w.calls[a];
    w.(calls := w.calls[a := c.(monitor := TryWait(c.monitor.p), inbox := c.inbox[1..], stopRequested := true)],
       records := w.records[a := Record(c.installation, Stopping, Some(w.processes[c.monitor.p].id))],
       requests := w.requests[c.inbox[0] := Request(a, Answered(true))])
  }

  lemma {:induction false} FirstIsAnswered(w: World, a: ActivityId)
    requires Inv(w) && Polls(w, a) && w.calls[a].inbox != []
    ensures var e1, e2 := PollCommands(a, true), SaveStopping(a, true);
      && Enabled(w, e1) && Enabled(Next(w, e1), e2) && Next(Next(w, e1), e2) == Answering(w, a)
      && Inv(Answering(w, a))
  {
    hide Inv, Next, Enabled;
    var e1, e2 := PollCommands(a, true), SaveStopping(a, true);
    FirstWasSent(w, a);
    FirstIsTaken(w, a);
    ItIsAnswered(Next(w, e1), a);
    StepKeepsInv(w, e1);
    StepKeepsInv(Next(w, e1), e2);
    assert Next(Next(w, e1), e2) == Answering(w, a);
  }

  lemma {:induction false} FirstWasSent(w: World, a: ActivityId)
    requires Inv(w) && a in w.calls && w.calls[a].inbox != []
    ensures var q := w.calls[a].inbox[0]; q in w.requests && w.requests[q] == Request(a, Sent)
  {
    assert Pending(w.calls[a], w.calls[a].inbox[0]);
    hide View.LaunchOk, View.MonitorOk, ProcessesOk, ActiveOk, RecordsOk;
  }

  /** What a carried out stop leaves: its answer, the recorded end and a reaped process. */
  ghost predicate IsStopped(w: World, w': World, a: ActivityId, q: RequestId)
    requires a in w.calls && w.calls[a].monitor.Poll? && w.calls[a].monitor.p in w.processes
  {
    && q in w'.requests && w'.requests[q] == Request(a, Answered(true))
    && a in w'.records && w'.records[a] == Record(w.calls[a].installation, Stopped,
                                                  Some(w.processes[w.calls[a].monitor.p].id))
    && w.calls[a].monitor.p in w'.processes && w'.processes[w.calls[a].monitor.p].state == Reaped
  }

  /** A request in the channel is answered after those before it, and the process is then seen to exit. */
  lemma {:induction false} StopIsCarriedOut(w: World, a: ActivityId, q: RequestId, code: Option<int>)
        returns (es: seq<Event>)
    requires Inv(w) && Polls(w, a) && q in w.calls[a].inbox
    ensures Runnable(w, es) && IsStopped(w, Run(w, es), a, q)
    decreases |w.calls[a].inbox|
  {
    var e1, e2 := PollCommands(a, true), SaveStopping(a, true);
    var answered := Answering(w, a);
    FirstIsAnswered(w, a);
    AnsweringIs(w, a);
    hide Inv, Next, Enabled, Answering;
    var rest: seq<Event>;
    if w.calls[a].inbox[0] == q {
      var e3, e4 := TryWaiting(a, Exit(code)), PersistEnd(a, true);
      ItEnds(answered, a, code);
      var last := Next(Next(answered, e3), e4);
      NothingMore(last);
      Prepend(Next(answered, e3), e4, last, [], last);
      Prepend(answered, e3, Next(answered, e3), [e4] + [], last);
      rest := [e3] + ([e4] + []);
    } else {
      var e3 := TryWaiting(a, StillRunning);
      ItRunsOn(answered, a);
      StepKeepsInv(answered, e3);
      var again := Next(answered, e3);
      assert Polls(again, a) && q in again.calls[a].inbox;
      var more := StopIsCarriedOut(again, a, q, code);
      Prepend(answered, e3, again, more, Run(again, more));
      rest := [e3] + more;
    }
    Prepend(Next(w, e1), e2, answered, rest, Run(answered, rest));
    Prepend(w, e1, Next(w, e1), [e2] + rest, Run(answered, rest));
    es := [e1] + ([e2] + rest);
  }

  lemma {:induction false} AnsweringIs(w: World, a: ActivityId)
    requires Polls(w, a) && w.calls[a].inbox != []
    ensures var after, c := Answering(w, a), w.calls[a];
      && a in after.calls && after.processes == w.processes
      && after.calls[a] == c.(monitor := TryWait(c.monitor.p), inbox := c.inbox[1..], stopRequested := true)
      && c.inbox[0] in after.requests && after.requests[c.inbox[0]] == Request(a, Answered(true))
  {
  }

  lemma {:induction false} StopIsSent(w: World, a: ActivityId, q: RequestId)
    requires !w.poisoned && a in w.active && q !in w.requests && a in w.calls && !w.calls[a].monitor.Ended?
    ensures var e1, e2 := LookUpStop(q, a), SendStop(q);
      && Enabled(w, e1) && Enabled(Next(w, e1), e2)
      && Next(Next(w, e1), e2) == w.(calls := w.calls[a := w.calls[a].(inbox := w.calls[a].inbox + [q])],
        requests := w.requests[q := Request(a, Sent)])
  {
  }

  /**
   A stop of an activity that is registered and watched finds it: whatever requests wait
   before it, it can be answered with Ok, its process seen to exit and the activity
   recorded as stopped.
   */
  lemma {:induction false} StopGoesThrough(w: World, a: ActivityId, q: RequestId, code: Option<int>)
        returns (es: seq<Event>)
    requires Inv(w) && !w.poisoned && a in w.active && q !in w.requests
    requires Polls(w, a)
    ensures Runnable(w, [LookUpStop(q, a), SendStop(q)] + es)
    ensures IsStopped(w, Run(w, [LookUpStop(q, a), SendStop(q)] + es), a, q)
  {
    hide Inv, Next, Enabled;
    var e1, e2 := LookUpStop(q, a), SendStop(q);
    StopIsSent(w, a, q);
    StepKeepsInv(w, e1);
    var found := Next(w, e1);
    StepKeepsInv(found, e2);
    var sent := Next(found, e2);
    assert Polls(sent, a) && q in sent.calls[a].inbox;
    es := StopIsCarriedOut(sent, a, q, code);
    Prepend(found, e2, sent, es, Run(sent, es));
    Prepend(w, e1, found, [e2] + es, Run(sent, es));
    assert [e1, e2] + es == [e1] + ([e2] + es);
  }

  lemma {:induction false} TwoEvents(w: World, e1: Event, e2: Event)
    requires Enabled(w, e1) && Enabled(Next(w, e1), e2)
    ensures Runnable(w, [e1, e2]) && Run(w, [e1, e2]) == Next(Next(w, e1), e2)
  {
    hide Next, Enabled;
    var last := Next(Next(w, e1), e2);
    NothingMore(last);
    Prepend(Next(w, e1), e2, last, [], last);
    Prepend(w, e1, Next(w, e1), [e2] + [], last);
    assert [e1, e2] == [e1] + ([e2] + []);
  }

  lemma {:induction false} FirstFails(w: World, a: ActivityId)
    requires Inv(w) && Polls(w, a) && w.calls[a].inbox != []
    ensures var c := w.calls[a]; var e := PollCommands(a, false);
      Enabled(w, e) && Next(w, e) == w.(
        calls := w.calls[a := c.(monitor := TryWait(c.monitor.p), inbox := c.inbox[1..])],
        requests := w.requests[c.inbox[0] := Request(a, Answered(false))])
  {
    hide Inv;
    FirstWasSent(w, a);
    EventInPlace(w, a, PollCommands(a, false));
  }

  /** A process that cannot be terminated leaves its request answered with an error, and is watched on. */
  lemma {:induction false} FailedStopIsAnswered(w: World, a: ActivityId)
    requires Inv(w) && Polls(w, a) && w.calls[a].inbox != []
    ensures var c := w.calls[a]; var es := [PollCommands(a, false), TryWaiting(a, StillRunning)];
      Runnable(w, es) && Run(w, es) == w.(calls := w.calls[a := c.(inbox := c.inbox[1..])],
        requests := w.requests[c.inbox[0] := Request(a, Answered(false))])
  {
    hide Inv, Next, Enabled;
    var c := w.calls[a];
    FirstFails(w, a);
    var failed := Next(w, PollCommands(a, false));
    ItRunsOn(failed, a);
    TwoEvents(w, PollCommands(a, false), TryWaiting(a, StillRunning));
    assert c.(monitor := TryWait(c.monitor.p), inbox := c.inbox[1..]).(monitor := Poll(c.monitor.p))
        == c.(inbox := c.inbox[1..]);
  }

  /** A monitor without requests looks at its process, and goes on as long as that runs. */
  lemma {:induction false} NothingToDo(w: World, a: ActivityId)
    requires Polls(w, a) && w.calls[a].inbox == []
    ensures var c := w.calls[a]; var e := PollCommands(a, true);
      Enabled(w, e) && Next(w, e) == w.(calls := w.calls[a := c.(monitor := TryWait(c.monitor.p))])
  {
    EventInPlace(w, a, PollCommands(a, true));
  }

  // When a stop is refused.

  /** A look-up finds no registration, or the monitor has dropped its channel when the request is sent. */
  predicate Refuses(w: World, e: Event, q: RequestId, a: ActivityId) {
    || (e == LookUpStop(q, a) && (w.poisoned || a !in w.active))
    || (e == SendStop(q) && a in w.calls && w.calls[a].monitor.Ended?)
  }

  predicate IsRefused(w: World, q: RequestId) {
    q in w.requests && w.requests[q].state.Refused?
  }

  lemma {:induction false} CallStepRefusesNone(w: World, a: ActivityId, f: Effect, m: RequestMove, q: RequestId)
    requires PendingWasSent(w) && a in w.calls && RequestsMove(w, a, f, m) && q in w.requests
    ensures q in Install(w, a, f).requests && Install(w, a, f).requests[q].activity == w.requests[q].activity
    ensures IsRefused(Install(w, a, f), q) <==> IsRefused(w, q)
  {
    var c := w.calls[a];
    assert c.inbox != [] ==> Pending(c, c.inbox[0]);
    assert InHand(c).Some? ==> Pending(c, InHand(c).value);
  }

  lemma {:induction false} NextIs(w: World, e: Event)
    requires Enabled(w, e)
    ensures if IsCallEvent(e)
      then e.a in w.calls && CallEnabled(w, w.calls[e.a], e)
        && Next(w, e) == Install(w, e.a, CallEffect(w, e.a, w.calls[e.a], e))
      else SharedEnabled(w, e) && Next(w, e) == SharedNext(w, e)
  {
    hide CallEffect, Install, CallEnabled, SharedEnabled, SharedNext;
  }

  lemma {:induction false} CallEventRefusesNone(w: World, e: Event, q: RequestId)
    requires IsCallEvent(e)
    ensures forall a :: !Refuses(w, e, q, a)
  {
  }

  lemma {:induction false} EventMoves(w: World, e: Event)
    requires Inv(w) && Enabled(w, e)
    ensures PendingWasSent(w) && SentIsPending(w)
    ensures IsCallEvent(e) ==> RequestsMove(w, e.a, CallEffect(w, e.a, w.calls[e.a], e), MoveOf(w.calls[e.a], e))
  {
    hide CallEffect, RequestsMove, MoveOf, RecordsOk, ProcessesOk, ActiveOk, AtMostOneActive;
    if IsCallEvent(e) {
      CallEventMovesRequests(w, e);
    }
  }

  lemma {:induction false} SharedStepRefuses(w: World, e: Event, q: RequestId)
    requires SentIsPending(w) && !IsCallEvent(e) && SharedEnabled(w, e) && q in w.requests
    ensures var after := SharedNext(w, e);
      && q in after.requests && after.requests[q].activity == w.requests[q].activity
      && (IsRefused(after, q) <==> IsRefused(w, q) || Refuses(w, e, q, w.requests[q].activity))
  {
    assert RequestOk(w, w.requests[q], q);
  }

  /** A request that is known keeps its activity and is refused by exactly such an event. */
  lemma {:induction false} StepRefusesIff(w: World, e: Event, q: RequestId)
    requires Inv(w) && Enabled(w, e) && q in w.requests
    ensures q in Next(w, e).requests && Next(w, e).requests[q].activity == w.requests[q].activity
    ensures IsRefused(Next(w, e), q) <==> IsRefused(w, q) || Refuses(w, e, q, w.requests[q].activity)
  {
    hide Inv, Next, Enabled, CallEffect, CallEnabled, Install, RequestsMove, MoveOf, PendingWasSent, SentIsPending,
      SharedNext, SharedEnabled, Refuses, IsRefused;
    EventMoves(w, e);
    NextIs(w, e);
    if IsCallEvent(e) {
      CallStepRefusesNone(w, e.a, CallEffect(w, e.a, w.calls[e.a], e), MoveOf(w.calls[e.a], e), q);
      CallEventRefusesNone(w, e, q);
    } else {
      SharedStepRefuses(w, e, q);
    }
  }

  lemma {:induction false} OnlyALookUpIsNew(w: World, e: Event, q: RequestId)
    requires Inv(w) && Enabled(w, e) && q !in w.requests
    ensures q in Next(w, e).requests <==> e.LookUpStop? && e.q == q
    ensures e.LookUpStop? && e.q == q ==>
              Next(w, e).requests[q].activity == e.a && (IsRefused(Next(w, e), q) <==> Refuses(w, e, q, e.a))
  {
    EventMoves(w, e);
    hide CallEffect, CallEnabled, Install, RequestsMove, Inv, MoveOf, PendingWasSent, SentIsPending;
    if IsCallEvent(e) {
      CallStepBringsNone(w, e.a, CallEffect(w, e.a, w.calls[e.a], e), MoveOf(w.calls[e.a], e), q);
    }
  }

  lemma {:induction false} CallStepBringsNone(w: World, a: ActivityId, f: Effect, m: RequestMove, q: RequestId)
    requires a in w.calls && RequestsMove(w, a, f, m) && q !in w.requests
    ensures q !in Install(w, a, f).requests
  {
  }

  predicate RefusedOn(w: World, es: seq<Event>, q: RequestId, a: ActivityId)
    requires Runnable(w, es)
    decreases |es|
  {
    es != [] && (Refuses(w, es[0], q, a) || RefusedOn(Next(w, es[0]), es[1..], q, a))
  }

  lemma {:induction false} KnownIsRefusedIff(w: World, es: seq<Event>, q: RequestId)
    requires Inv(w) && Runnable(w, es) && q in w.requests
    ensures var a := w.requests[q].activity; var after := Run(w, es);
      && q in after.requests && after.requests[q].activity == a && LookUpStop(q, a) !in es
      && (IsRefused(after, q) <==> IsRefused(w, q) || RefusedOn(w, es, q, a))
    ensures forall b :: LookUpStop(q, b) !in es
    decreases |es|
  {
    if es != [] {
      StepKeepsInv(w, es[0]);
      StepRefusesIff(w, es[0], q);
      LookUpIsOnce(w, es[0], q);
      hide Next, Enabled, Inv, Refuses, IsRefused;
      KnownIsRefusedIff(Next(w, es[0]), es[1..], q);
    }
  }

  lemma {:induction false} LookUpIsOnce(w: World, e: Event, q: RequestId)
    requires Enabled(w, e) && q in w.requests
    ensures forall b :: e != LookUpStop(q, b)
  {
  }

  /**
   Over whole runs: a stop of an activity is refused exactly if, when it was looked up,
   the lock was poisoned or the activity was not registered, or its monitor had ended
   when it was sent.
   */
  lemma {:induction false} StopIsRefusedIff(w: World, es: seq<Event>, q: RequestId, a: ActivityId)
    requires Inv(w) && Runnable(w, es) && q !in w.requests && LookUpStop(q, a) in es
    ensures var after := Run(w, es);
      && q in after.requests && after.requests[q].activity == a
      && (after.requests[q].state.Refused? <==> RefusedOn(w, es, q, a))
    decreases |es|
  {
    StepKeepsInv(w, es[0]);
    OnlyALookUpIsNew(w, es[0], q);
    if es[0].LookUpStop? && es[0].q == q {
      KnownIsRefusedIff(Next(w, es[0]), es[1..], q);
      hide Next, Enabled, Inv, RefusedOn, Run;
      assert es == [es[0]] + es[1..];
    } else {
      hide Next, Enabled, Inv;
      StopIsRefusedIff(Next(w, es[0]), es[1..], q, a);
      assert !Refuses(w, es[0], q, a);
    }
  }

  /** Whether the lock was poisoned, and the launcher not restarted since. */
  predicate IsPoisonedIn(es: seq<Event>, poisoned: bool) {
    if es == [] then poisoned
    else IsPoisonedIn(es[1..], es[0].PoisonLock? || (poisoned && !es[0].Restart?))
  }

  lemma {:induction false} StepPoisonsIff(w: World, e: Event)
    requires Enabled(w, e)
    ensures Next(w, e).poisoned <==> e.PoisonLock? || (w.poisoned && !e.Restart?)
  {
    hide CallEffect, CallEnabled;
  }

  lemma {:induction false} LockIsPoisonedIff(w: World, es: seq<Event>)
    requires Runnable(w, es)
    ensures Run(w, es).poisoned <==> IsPoisonedIn(es, w.poisoned)
    decreases |es|
  {
    if es != [] {
      StepPoisonsIff(w, es[0]);
      hide Next, Enabled;
      LockIsPoisonedIff(Next(w, es[0]), es[1..]);
    }
  }

  /** A thread may poison the lock at any time, and a stop looked up from then on is refused. */
  lemma {:induction false} PoisonedLockRefusesStops(w: World, q: RequestId, a: ActivityId)
    requires q !in w.requests
    ensures var es := [PoisonLock, LookUpStop(q, a)];
      Runnable(w, es) && q in Run(w, es).requests && Run(w, es).requests[q].state.Refused?
  {
    var poisoned := Next(w, PoisonLock);
    var look := LookUpStop(q, a);
    var refused := Next(poisoned, look);
    assert refused.requests == w.requests[q := Request(a, Refused)];
    hide Next, Enabled;
    assert [look][1..] == [] && [PoisonLock, look][1..] == [look];
    assert Runnable(refused, []) && Run(refused, []) == refused;
    assert Runnable(poisoned, [look]) && Run(poisoned, [look]) == refused;
  }

  // The order of answers.

  predicate IsSettled(w: World, q: RequestId) {
    q in w.requests && w.requests[q].state.Settled()
  }

  /** A request that was sent first is settled, or still comes before the other. */
  ghost predicate IsAhead(w: World, a: ActivityId, first: RequestId, second: RequestId) {
    IsSettled(w, first) || (
      && a in w.calls && Pending(w.calls[a], first)
      && (second in w.requests ==> !w.requests[second].state.Answered?)
      && InHand(w.calls[a]) != Some(second)
      && (InHand(w.calls[a]) != Some(first) ==> IsInOrder(w.calls[a].inbox, first, second)))
  }

  ghost predicate IsInOrder(inbox: seq<RequestId>, first: RequestId, second: RequestId) {
    forall i, j | 0 <= i < |inbox| && 0 <= j < |inbox| && inbox[i] == first && inbox[j] == second :: i < j
  }

  lemma {:induction false} CallStepKeepsOrder(w: World, a: ActivityId, f: Effect, m: RequestMove,
      first: RequestId, second: RequestId)
    requires PendingWasSent(w) && a in w.calls && RequestsMove(w, a, f, m) && IsAhead(w, a, first, second)
    requires !IsSettled(w, first) && first != second
    ensures IsAhead(Install(w, a, f), a, first, second)
  {
    var c := w.calls[a];
    assert first in c.inbox ==> exists i | 0 <= i < |c.inbox| :: c.inbox[i] == first;
    assert c.inbox != [] ==> Pending(c, c.inbox[0]);
    assert Pending(c, first);
  }

  lemma {:induction false} OtherCallKeepsOrder(w: World, b: ActivityId, f: Effect, m: RequestMove, a: ActivityId,
      first: RequestId, second: RequestId)
    requires PendingWasSent(w) && b in w.calls && RequestsMove(w, b, f, m) && IsAhead(w, a, first, second) && a != b
    requires !IsSettled(w, first) && second in w.requests ==> w.requests[second].activity == a
    ensures IsAhead(Install(w, b, f), a, first, second) || IsSettled(w, first)
  {
    var c := w.calls[b];
    assert c.inbox != [] ==> Pending(c, c.inbox[0]);
    assert InHand(c).Some? ==> Pending(c, InHand(c).value);
  }

  lemma {:induction false} OneMoreInOrder(inbox: seq<RequestId>, q: RequestId, first: RequestId, second: RequestId)
    requires q != first && IsInOrder(inbox, first, second)
    ensures IsInOrder(inbox + [q], first, second)
  {
  }

  lemma {:induction false} AheadOfNew(w: World, w': World, q: RequestId, a: ActivityId, first: RequestId,
      second: RequestId)
    requires IsAhead(w, a, first, second) && !IsSettled(w, first) && q != first && a in w'.calls
    requires !Pending(w.calls[a], q)
    requires w'.calls[a] == w.calls[a] || w'.calls[a] == w.calls[a].(inbox := w.calls[a].inbox + [q])
    requires second in w'.requests && w'.requests[second].state.Answered? ==>
               second in w.requests && w.requests[second].state.Answered?
    ensures IsAhead(w', a, first, second)
  {
    hide IsInOrder;
    if IsInOrder(w.calls[a].inbox, first, second) {
      OneMoreInOrder(w.calls[a].inbox, q, first, second);
    }
  }

  lemma {:induction false} SendingKeepsOrder(w: World, q: RequestId, a: ActivityId, first: RequestId,
      second: RequestId)
    requires PendingWasSent(w) && q in w.requests && w.requests[q].state.LookedUp? && IsAhead(w, a, first, second)
    requires !IsSettled(w, first) && first != second
    ensures IsAhead(StopSent(w, q), a, first, second)
  {
    assert Pending(w.calls[a], first) && q != first;
    assert !Pending(w.calls[a], q);
    hide PendingWasSent, IsInOrder, IsAhead, Pending;
    AheadOfNew(w, StopSent(w, q), q, a, first, second);
  }

  lemma {:induction false} SharedStepKeepsOrder(w: World, e: Event, a: ActivityId, first: RequestId, second: RequestId)
    requires PendingWasSent(w) && !IsCallEvent(e) && SharedEnabled(w, e) && IsAhead(w, a, first, second)
    requires !IsSettled(w, first) && first != second
    ensures IsAhead(SharedNext(w, e), a, first, second)
  {
    assert Pending(w.calls[a], first);
    if e.SendStop? {
      SendingKeepsOrder(w, e.q, a, first, second);
    } else {
      hide PendingWasSent, IsInOrder;
    }
  }

  lemma {:induction false} StepKeepsOrder(w: World, e: Event, a: ActivityId, first: RequestId, second: RequestId)
    requires Inv(w) && Enabled(w, e) && IsAhead(w, a, first, second) && first != second
    requires second in w.requests && w.requests[second].activity == a
    ensures IsAhead(Next(w, e), a, first, second)
    ensures second in Next(w, e).requests && Next(w, e).requests[second].activity == a
  {
    StepRefusesIff(w, e, second);
    EventMoves(w, e);
    hide CallEffect, CallEnabled, Install, RequestsMove, Inv, PendingWasSent, SentIsPending, SharedNext, SharedEnabled,
      MoveOf, IsAhead;
    if IsSettled(w, first) {
      StepKeepsAnswers(w, e, first);
      SettledIsAhead(Next(w, e), a, first, second);
    } else if !IsCallEvent(e) {
      SharedStepKeepsOrder(w, e, a, first, second);
    } else if e.a == a {
      CallStepKeepsOrder(w, a, CallEffect(w, a, w.calls[a], e), MoveOf(w.calls[a], e), first, second);
    } else {
      OtherCallKeepsOrder(w, e.a, CallEffect(w, e.a, w.calls[e.a], e), MoveOf(w.calls[e.a], e), a, first, second);
    }
  }

  lemma {:induction false} SettledIsAhead(w: World, a: ActivityId, first: RequestId, second: RequestId)
    requires IsSettled(w, first)
    ensures IsAhead(w, a, first, second)
  {
  }

  /** The state after one request of an activity has been sent and before another is. */
  predicate IsSentFirst(w: World, a: ActivityId, first: RequestId, second: RequestId) {
    && first in w.requests && w.requests[first] == Request(a, Sent)
    && second in w.requests && w.requests[second] == Request(a, LookedUp)
  }

  /**
   Of two stops of one activity the one that was sent first is settled first: while the
   other is not sent yet, and in every later world, the other is not answered before it.
   */
  lemma {:induction false} StopsAreAnsweredInOrder(w: World, es: seq<Event>, a: ActivityId, first: RequestId,
      second: RequestId)
    requires Inv(w) && Runnable(w, es) && IsSentFirst(w, a, first, second)
    ensures var after := Run(w, es);
      && first in after.requests && second in after.requests
      && (after.requests[second].state.Answered? ==> after.requests[first].state.Settled())
  {
    SentFirstIsAhead(w, a, first, second);
    hide Inv, IsAhead;
    OrderIsKept(w, es, a, first, second);
    KnownIsRefusedIff(w, es, first);
    AheadMeansSettled(Run(w, es), a, first, second);
  }

  lemma {:induction false} OrderIsKept(w: World, es: seq<Event>, a: ActivityId, first: RequestId, second: RequestId)
    requires Inv(w) && Runnable(w, es) && IsAhead(w, a, first, second) && first != second
    requires second in w.requests && w.requests[second].activity == a
    ensures IsAhead(Run(w, es), a, first, second)
    ensures second in Run(w, es).requests && Run(w, es).requests[second].activity == a
    decreases |es|
  {
    hide Inv, IsAhead, Next, Enabled;
    if es != [] {
      StepKeepsInv(w, es[0]);
      StepKeepsOrder(w, es[0], a, first, second);
      OrderIsKept(Next(w, es[0]), es[1..], a, first, second);
    }
  }

  lemma {:induction false} SentFirstIsAhead(w: World, a: ActivityId, first: RequestId, second: RequestId)
    requires Inv(w) && IsSentFirst(w, a, first, second)
    ensures IsAhead(w, a, first, second) && first != second
  {
    assert RequestOk(w, w.requests[first], first);
    assert !Pending(w.calls[a], second);
    hide View.LaunchOk, View.MonitorOk, ProcessesOk, ActiveOk, RecordsOk;
  }

  lemma {:induction false} AheadMeansSettled(w: World, a: ActivityId, first: RequestId, second: RequestId)
    requires IsAhead(w, a, first, second) && first in w.requests && second in w.requests
    ensures w.requests[second].state.Answered? ==> w.requests[first].state.Settled()
  {
  }
}
