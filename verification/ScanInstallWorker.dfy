/**
 The worker that installs queued archives one after another, with any number of
 callers adding and cancelling. Every lock section and every access to the flag
 is one step. A journal beside the queue writes down which entries were accepted,
 which ones the worker became busy with and which ones a cancellation took out.
 */
module ScanInstallWorker {
  import opened Wrappers
  import opened ScanInstalls

  datatype Pc =
    // A caller adding archives; `queued` once one of them was accepted.
    | Adding(queued: bool)
    | KickFlag
    // In the work loop, holding the flag.
    | TakeNext
    | Busy(id: InstallId)
    | ReleaseFlag
    // After the loop.
    | Recheck
    | RetakeFlag
    | Done

  /**
   The entries accepted so far, the identifiers the worker became busy with and those
   a cancellation took out of the queue, all in order; and for each of these, and for
   each entry in the queue, the number under which it was accepted.
   */
  datatype Journal = Journal(accepted: seq<Entry>, started: seq<InstallId>, removed: seq<InstallId>,
                             taken: seq<nat>, withdrawn: seq<nat>, waiting: seq<nat>)
  {
    function Accept(entry: Entry): Journal {
      this.(accepted := accepted + [entry], waiting := waiting + [|accepted|])
    }

    function Remove(id: InstallId, p: nat): Journal
      requires p < |waiting|
    {
      this.(removed := removed + [id], withdrawn := withdrawn + [waiting[p]],
            waiting := waiting[..p] + waiting[p + 1..])
    }

    function Start(id: InstallId): Journal
      requires waiting != []
    {
      this.(started := started + [id], taken := taken + [waiting[0]], waiting := waiting[1..])
    }

    /**
     The numbers tell true: each identifier written down, and each entry in the queue, was accepted
     under its number.
     */
    ghost predicate IsTrue(queue: seq<Entry>) {
      && |taken| == |started| && |withdrawn| == |removed| && |waiting| == |queue|
      && (forall i | 0 <= i < |taken| :: taken[i] < |accepted| && accepted[taken[i]].id == started[i])
      && (forall i | 0 <= i < |withdrawn| :: withdrawn[i] < |accepted| && accepted[withdrawn[i]].id == removed[i])
      && (forall i | 0 <= i < |waiting| :: waiting[i] < |accepted| && accepted[waiting[i]] == queue[i])
    }

    /**
     Every accepted entry was taken, withdrawn or is waiting, just one of these, and the
     taken and the waiting ones are in the order they were accepted.
     */
    ghost predicate InOrder() {
      && (forall i, j | 0 <= i < j < |taken + waiting| :: (taken + waiting)[i] < (taken + waiting)[j])
      && (forall n: nat :: n in taken + waiting <==> n < |accepted| && n !in withdrawn)
      && (forall i | 0 <= i < |withdrawn| :: withdrawn[i] < |accepted|)
      && (forall i, j | 0 <= i < j < |withdrawn| :: withdrawn[i] != withdrawn[j])
    }
  }

  datatype Worker = Worker(state: State, journal: Journal, flag: bool, threads: seq<Pc>)

  const IDLE := Worker(EMPTY, Journal([], [], [], [], [], []), false, [])

  datatype Event =
    | Begin
    | Add(t: nat, install: Install, identity: Option<string>, keep: bool)
    | EndAdding(t: nat)
    | CancelInstall(id: InstallId)
    // A step of any other thread; `status` is how an installation under way ends.
    | Step(t: nat, status: Status, detail: Option<string>)

  predicate Holds(pc: Pc) {
    pc.TakeNext? || pc.Busy? || pc.ReleaseFlag?
  }

  predicate Enabled(w: Worker, e: Event) {
    match e
    case Add(t, install, _, _) => t < |w.threads| && w.threads[t].Adding? && install.status.Queued?
    case EndAdding(t) => t < |w.threads| && w.threads[t].Adding?
    case Step(t, status, _) => t < |w.threads| && !w.threads[t].Adding? && !w.threads[t].Done? && status.IsFinal()
    case _ => true
  }

  function At(w: Worker, t: nat, pc: Pc): Worker
    requires t < |w.threads|
  {
    w.(threads := w.threads[t := pc])
  }

  function Added(w: Worker, t: nat, install: Install, identity: Option<string>, keep: bool): Worker
    requires t < |w.threads|
  {
    if IsActive(w.state.installs, install.id) then w
    else
      At(w, t, Adding(true)).(state := Enqueued(w.state, install, Entry(install.id, identity, keep)),
                              journal := w.journal.Accept(Entry(install.id, identity, keep)))
  }

  function Cancelled(w: Worker, id: InstallId): Worker {
    var after := Cancelling(w.state, id);
    var p := Position(w.state.queue, id);
    w.(state := after,
       journal := if after.queue != w.state.queue && p < |w.journal.waiting| then w.journal.Remove(id, p)
                  else w.journal)
  }

  /** Where a step leaves its thread and the flag, and whether it starts a worker thread. */
  datatype Move = Move(pc: Pc, flag: bool, spawns: bool)

  function MoveOf(pc: Pc, flag: bool, queue: seq<Entry>): Move {
    match pc
    case KickFlag => Move(Done, true, !flag)
    case TakeNext => Move(if queue == [] then ReleaseFlag else Busy(queue[0].id), flag, false)
    case Busy(_) => Move(TakeNext, flag, false)
    case ReleaseFlag => Move(Recheck, false, false)
    case Recheck => Move(if queue != [] then RetakeFlag else Done, flag, false)
    case RetakeFlag => Move(if flag then Done else TakeNext, true, false)
    case _ => Move(pc, flag, false)
  }

  function Moved(threads: seq<Pc>, t: nat, move: Move): seq<Pc>
    requires t < |threads|
  {
    threads[t := move.pc] + if move.spawns then [TakeNext] else []
  }

  function Worked(s: State, pc: Pc, status: Status, detail: Option<string>): State {
    match pc
    case TakeNext => if s.queue == [] then s else Popped(s)
    case Busy(id) => Finished(s, id, status, detail)
    case _ => s
  }

  function Stepped(w: Worker, t: nat, status: Status, detail: Option<string>): Worker
    requires t < |w.threads|
  {
    var pc := w.threads[t];
    var move := MoveOf(pc, w.flag, w.state.queue);
    Worker(Worked(w.state, pc, status, detail),
           if pc.TakeNext? && move.pc.Busy? && w.journal.waiting != [] then w.journal.Start(move.pc.id) else w.journal,
           move.flag,
           Moved(w.threads, t, move))
  }

  function Next(w: Worker, e: Event): Worker
    requires Enabled(w, e)
  {
    match e
    case Begin => w.(threads := w.threads + [Adding(false)])
    case Add(t, install, identity, keep) => Added(w, t, install, identity, keep)
    case EndAdding(t) => At(w, t, if w.threads[t].queued then KickFlag else Done)
    case CancelInstall(id) => Cancelled(w, id)
    case Step(t, status, detail) => Stepped(w, t, status, detail)
  }

  predicate Runnable(w: Worker, es: seq<Event>)
    decreases |es|
  {
    es == [] || (Enabled(w, es[0]) && Runnable(Next(w, es[0]), es[1..]))
  }

  function Run(w: Worker, es: seq<Event>): Worker
    requires Runnable(w, es)
    decreases |es|
  {
    if es == [] then w else Run(Next(w, es[0]), es[1..])
  }

  // The flag and the queue.

  ghost predicate HeldByOne(flag: bool, threads: seq<Pc>) {
    && (forall i, j | 0 <= i < j < |threads| :: !(Holds(threads[i]) && Holds(threads[j])))
    && (flag <==> exists i | 0 <= i < |threads| :: Holds(threads[i]))
  }

  predicate WillLook(pc: Pc) {
    pc == Adding(true) || pc.KickFlag? || pc.Recheck? || pc.RetakeFlag?
  }

  ghost predicate Watched(w: Worker) {
    w.state.queue != [] ==> exists i | 0 <= i < |w.threads| :: Holds(w.threads[i]) || WillLook(w.threads[i])
  }

  /** The cancel flags are those of the installations the worker is busy with. */
  ghost predicate CancelsAreBusy(cancels: map<InstallId, bool>, threads: seq<Pc>) {
    && (forall i | 0 <= i < |threads| && threads[i].Busy? :: threads[i].id in cancels)
    && (forall id | id in cancels :: Busy(id) in threads)
  }

  ghost predicate Inv(w: Worker) {
    && Agreement(w.state)
    && HeldByOne(w.flag, w.threads)
    && Watched(w)
    && CancelsAreBusy(w.state.cancels, w.threads)
    && w.journal.IsTrue(w.state.queue) && w.journal.InOrder()
  }

  lemma {:induction false} EventKeepsAgreement(w: Worker, e: Event)
    requires Inv(w) && Enabled(w, e)
    ensures Agreement(Next(w, e).state)
  {
    match e {
      case Begin =>
      case Add(t, install, identity, keep) =>
        EnqueueKeepsAgreement(w.state, install, Entry(install.id, identity, keep));
      case EndAdding(_) =>
      case CancelInstall(id) => CancelKeepsAgreement(w.state, id);
      case Step(t, status, detail) =>
        if w.threads[t].Busy? {
          FinishKeepsAgreement(w.state, w.threads[t].id, status, detail);
        } else if w.threads[t].TakeNext? && w.state.queue != [] {
          PopKeepsAgreement(w.state);
        }
    }
  }

  lemma {:induction false} MoveKeepsHeldByOne(flag: bool, threads: seq<Pc>, t: nat, queue: seq<Entry>)
    requires HeldByOne(flag, threads) && t < |threads|
    ensures HeldByOne(MoveOf(threads[t], flag, queue).flag, Moved(threads, t, MoveOf(threads[t], flag, queue)))
  {
    var move := MoveOf(threads[t], flag, queue);
    var after := Moved(threads, t, move);
    if move.flag && !flag {
      assert Holds(after[if move.spawns then |threads| else t]);
    } else if flag && move.flag {
      var i :| 0 <= i < |threads| && Holds(threads[i]);
      assert Holds(after[i]);
    }
  }

  lemma {:induction false} CallerKeepsHeldByOne(flag: bool, threads: seq<Pc>, t: nat, pc: Pc)
    requires HeldByOne(flag, threads) && t < |threads| && !Holds(threads[t]) && !Holds(pc)
    ensures HeldByOne(flag, threads[t := pc])
  {
    if flag {
      var i :| 0 <= i < |threads| && Holds(threads[i]);
      assert Holds(threads[t := pc][i]);
    }
  }

  lemma {:induction false} EventKeepsHeldByOne(w: Worker, e: Event)
    requires HeldByOne(w.flag, w.threads) && Enabled(w, e)
    ensures HeldByOne(Next(w, e).flag, Next(w, e).threads)
  {
    match e {
      case Begin =>
        if w.flag {
          var i :| 0 <= i < |w.threads| && Holds(w.threads[i]);
          assert Holds(Next(w, e).threads[i]);
        }
      case Add(t, _, _, _) => CallerKeepsHeldByOne(w.flag, w.threads, t, Adding(true));
      case EndAdding(t) => CallerKeepsHeldByOne(w.flag, w.threads, t, Next(w, e).threads[t]);
      case CancelInstall(_) =>
      case Step(t, _, _) => MoveKeepsHeldByOne(w.flag, w.threads, t, w.state.queue);
    }
  }

  lemma {:induction false} EventKeepsWatched(w: Worker, e: Event)
    requires Inv(w) && Enabled(w, e)
    ensures Watched(Next(w, e))
  {
    var after := Next(w, e);
    if after.state.queue != [] {
      if e.Add? && after != w {
        assert WillLook(after.threads[e.t]);
      } else {
        var i :| 0 <= i < |w.threads| && (Holds(w.threads[i]) || WillLook(w.threads[i]));
        EventKeepsHeldByOne(w, e);
        if !Holds(after.threads[i]) && !WillLook(after.threads[i]) {
          assert after.flag;
          var j :| 0 <= j < |after.threads| && Holds(after.threads[j]);
        }
      }
    }
  }

  /** A thread that is not busy may move anywhere else, and new threads may start. */
  lemma {:induction false} OthersKeepBusy(cancels: map<InstallId, bool>, threads: seq<Pc>, after: seq<Pc>)
    requires CancelsAreBusy(cancels, threads) && |after| >= |threads|
    requires forall i | 0 <= i < |threads| :: after[i] == threads[i] || (!threads[i].Busy? && !after[i].Busy?)
    requires forall i | |threads| <= i < |after| :: !after[i].Busy?
    ensures CancelsAreBusy(cancels, after)
  {
    forall id | id in cancels
      ensures Busy(id) in after
    {
      var i :| 0 <= i < |threads| && threads[i] == Busy(id);
      assert after[i] == Busy(id);
    }
  }

  lemma {:induction false} StepKeepsBusy(w: Worker, t: nat, status: Status, detail: Option<string>)
    requires Inv(w) && t < |w.threads|
    ensures CancelsAreBusy(Stepped(w, t, status, detail).state.cancels, Stepped(w, t, status, detail).threads)
  {
    var after := Stepped(w, t, status, detail);
    if w.threads[t].Busy? || (w.threads[t].TakeNext? && w.state.queue != []) {
      assert Holds(w.threads[t]);
      forall id | id in after.state.cancels
        ensures Busy(id) in after.threads
      {
        assert after.threads[t] == Busy(id) || Busy(id) in w.threads;
      }
    } else {
      OthersKeepBusy(w.state.cancels, w.threads, after.threads);
    }
  }

  lemma {:induction false} EventKeepsBusy(w: Worker, e: Event)
    requires Inv(w) && Enabled(w, e)
    ensures CancelsAreBusy(Next(w, e).state.cancels, Next(w, e).threads)
  {
    match e {
      case Step(t, status, detail) => StepKeepsBusy(w, t, status, detail);
      case CancelInstall(id) =>
      case _ => OthersKeepBusy(w.state.cancels, w.threads, Next(w, e).threads);
    }
  }

  lemma {:induction false} AcceptStaysTrue(journal: Journal, entry: Entry, queue: seq<Entry>)
    requires journal.IsTrue(queue)
    ensures journal.Accept(entry).IsTrue(queue + [entry])
  {
  }

  lemma {:induction false} AcceptKeepsOrder(journal: Journal, entry: Entry, queue: seq<Entry>)
    requires journal.InOrder() && journal.IsTrue(queue)
    ensures journal.Accept(entry).InOrder() && journal.Accept(entry).IsTrue(queue + [entry])
  {
    AcceptStaysTrue(journal, entry, queue);
    hide Journal.IsTrue;
    var all := journal.taken + journal.waiting;
    assert journal.Accept(entry).taken + journal.Accept(entry).waiting == all + [|journal.accepted|];
    assert forall i | 0 <= i < |all| :: all[i] in all;
  }

  lemma {:induction false} StartKeepsOrder(journal: Journal, queue: seq<Entry>)
    requires journal.InOrder() && journal.IsTrue(queue) && queue != []
    ensures journal.Start(queue[0].id).InOrder() && journal.Start(queue[0].id).IsTrue(queue[1..])
  {
    var after := journal.Start(queue[0].id);
    assert after.taken + after.waiting == journal.taken + journal.waiting;
  }

  lemma {:induction false} RemovingOne(all: seq<nat>, q: nat)
    requires q < |all| && forall i, j | 0 <= i < j < |all| :: all[i] < all[j]
    ensures var after := all[..q] + all[q + 1..];
      && (forall i, j | 0 <= i < j < |after| :: after[i] < after[j])
      && forall n: nat :: n in after <==> n in all && n != all[q]
  {
    forall n: nat
      ensures n in all[..q] + all[q + 1..] <==> n in all && n != all[q]
    {
      RemovingKeeps(all, q, n);
    }
  }

  lemma {:induction false} RemovingKeeps(all: seq<nat>, q: nat, n: nat)
    requires q < |all| && forall i, j | 0 <= i < j < |all| :: all[i] < all[j]
    ensures n in all[..q] + all[q + 1..] <==> n in all && n != all[q]
  {
    var after := all[..q] + all[q + 1..];
    if n in all && n != all[q] {
      var i :| 0 <= i < |all| && all[i] == n;
      assert after[if i < q then i else i - 1] == n;
    }
    if n in after {
      var i :| 0 <= i < |after| && after[i] == n;
      assert all[if i < q then i else i + 1] == n;
    }
  }

  lemma {:induction false} RemoveKeepsOrder(journal: Journal, id: InstallId, p: nat)
    requires journal.InOrder() && p < |journal.waiting|
    ensures journal.Remove(id, p).InOrder()
  {
    var all, q := journal.taken + journal.waiting, |journal.taken| + p;
    RemovingOne(all, q);
    assert all[q] == journal.waiting[p] && all[q] in all;
    assert forall i | 0 <= i < |journal.withdrawn| :: journal.withdrawn[i] in journal.withdrawn;
    var after := journal.Remove(id, p);
    assert after.taken + after.waiting == all[..q] + all[q + 1..];
    assert after.withdrawn == journal.withdrawn + [journal.waiting[p]];
    assert forall n :: n in after.withdrawn <==> n in journal.withdrawn || n == journal.waiting[p];
  }

  lemma {:induction false} RemoveStaysTrue(journal: Journal, id: InstallId, p: nat, queue: seq<Entry>)
    requires journal.IsTrue(queue) && p < |queue| && queue[p].id == id
    ensures journal.Remove(id, p).IsTrue(queue[..p] + queue[p + 1..])
  {
  }

  lemma {:induction false} CancelKeepsOrder(w: Worker, id: InstallId)
    requires w.journal.InOrder() && w.journal.IsTrue(w.state.queue)
    ensures Cancelled(w, id).journal.InOrder() && Cancelled(w, id).journal.IsTrue(Cancelled(w, id).state.queue)
  {
    var queue := w.state.queue;
    var p := Position(queue, id);
    PositionFinds(queue, id);
    if p < |queue| {
      assert |queue[..p] + queue[p + 1..]| != |queue|;
      RemoveKeepsOrder(w.journal, id, p);
      RemoveStaysTrue(w.journal, id, p, queue);
    }
  }

  lemma {:induction false} EventKeepsOrder(w: Worker, e: Event)
    requires Inv(w) && Enabled(w, e)
    ensures Next(w, e).journal.IsTrue(Next(w, e).state.queue) && Next(w, e).journal.InOrder()
  {
    match e {
      case Add(_, install, identity, keep) =>
        AcceptKeepsOrder(w.journal, Entry(install.id, identity, keep), w.state.queue);
      case CancelInstall(id) => CancelKeepsOrder(w, id);
      case Step(t, _, _) =>
        if w.state.queue != [] {
          StartKeepsOrder(w.journal, w.state.queue);
        }
      case _ =>
    }
  }

  lemma {:induction false} EventKeepsInv(w: Worker, e: Event)
    requires Inv(w) && Enabled(w, e)
    ensures Inv(Next(w, e))
  {
    EventKeepsAgreement(w, e);
    EventKeepsHeldByOne(w, e);
    EventKeepsWatched(w, e);
    EventKeepsBusy(w, e);
    EventKeepsOrder(w, e);
  }

  lemma {:induction false} RunKeepsInv(w: Worker, es: seq<Event>)
    requires Inv(w) && Runnable(w, es)
    ensures Inv(Run(w, es))
    decreases |es|
  {
    if es != [] {
      EventKeepsInv(w, es[0]);
      RunKeepsInv(Next(w, es[0]), es[1..]);
    }
  }

  lemma {:induction false} EmptyJournalIsTrue()
    ensures IDLE.journal.InOrder() && IDLE.journal.IsTrue([])
  {
    var all := IDLE.journal.taken + IDLE.journal.waiting;
    assert |all| == 0;
    assert forall n: nat :: n !in all;
  }

  lemma {:induction false} ReachableInv(es: seq<Event>)
    requires Runnable(IDLE, es)
    ensures Inv(Run(IDLE, es))
  {
    EmptyJournalIsTrue();
    RunKeepsInv(IDLE, es);
  }

  lemma {:induction false} AtMostOneIsBusy(w: Worker)
    requires Inv(w)
    ensures |w.state.cancels| <= 1
  {
    if |w.state.cancels| > 0 {
      var id: InstallId :| id in w.state.cancels;
      var i :| 0 <= i < |w.threads| && w.threads[i] == Busy(id);
      forall other | other in w.state.cancels
        ensures other == id
      {
        var j :| 0 <= j < |w.threads| && w.threads[j] == Busy(other);
        assert Holds(w.threads[i]) && Holds(w.threads[j]);
      }
      assert w.state.cancels.Keys == {id};
      assert |w.state.cancels| == |w.state.cancels.Keys|;
    }
  }

  /** In every reachable state list, queue and cancel flags agree, and at most one installation is under way. */
  lemma {:induction false} ListsAlwaysAgree(es: seq<Event>)
    requires Runnable(IDLE, es)
    ensures Agreement(Run(IDLE, es).state) && |Run(IDLE, es).state.cancels| <= 1
  {
    ReachableInv(es);
    AtMostOneIsBusy(Run(IDLE, es));
  }

  /** The identifiers accepted, in order, without those taken out under these numbers. */
  function Remaining(accepted: seq<Entry>, withdrawn: seq<nat>): seq<InstallId> {
    if accepted == [] then []
    else
      var n := |accepted| - 1;
      Remaining(accepted[..n], withdrawn) + if n in withdrawn then [] else [accepted[n].id]
  }

  function IdsOf(queue: seq<Entry>): seq<InstallId> {
    seq(|queue|, i requires 0 <= i < |queue| => queue[i].id)
  }

  lemma {:induction false} HoldsOne(all: seq<nat>)
    requires all != []
    ensures exists n :: n in all
  {
    assert all[0] in all;
  }

  lemma {:induction false} NumbersSpellRemaining(accepted: seq<Entry>, withdrawn: seq<nat>, all: seq<nat>,
        ids: seq<InstallId>)
    requires forall i, j | 0 <= i < j < |all| :: all[i] < all[j]
    requires forall n: nat :: n in all <==> n < |accepted| && n !in withdrawn
    requires |ids| == |all| && forall i | 0 <= i < |all| :: all[i] < |accepted| && accepted[all[i]].id == ids[i]
    ensures ids == Remaining(accepted, withdrawn)
    decreases |accepted|
  {
    if accepted == [] {
      if all != [] {
        HoldsOne(all);
        assert false;
      }
    } else {
      var n, m := |accepted| - 1, |all| - 1;
      if n in withdrawn {
        NumbersSpellRemaining(accepted[..n], withdrawn, all, ids);
      } else {
        assert n in all;
        var i :| 0 <= i < |all| && all[i] == n;
        assert i == m by {
          assert all[m] in all;
        }
        assert all == all[..m] + [n] && ids == ids[..m] + [accepted[n].id];
        forall k: nat
          ensures k in all[..m] <==> k < n && k !in withdrawn
        {
          assert k in all <==> k in all[..m] || k == n;
        }
        NumbersSpellRemaining(accepted[..n], withdrawn, all[..m], ids[..m]);
      }
    }
  }

  /**
   Entries are taken in the order they were accepted: what the worker became busy with,
   followed by what waits in the queue, is what was accepted without what cancellations
   took out, each of which was accepted once under the number it is taken out for.
   */
  lemma {:induction false} TakenInOrder(es: seq<Event>)
    requires Runnable(IDLE, es)
    ensures var w := Run(IDLE, es); var j := w.journal;
      && j.started + IdsOf(w.state.queue) == Remaining(j.accepted, j.withdrawn)
      && |j.withdrawn| == |j.removed|
      && (forall i | 0 <= i < |j.withdrawn| ::
        j.withdrawn[i] < |j.accepted| && j.accepted[j.withdrawn[i]].id == j.removed[i])
      && (forall i, k | 0 <= i < k < |j.withdrawn| :: j.withdrawn[i] != j.withdrawn[k])
  {
    ReachableInv(es);
    var w := Run(IDLE, es);
    NumbersSpellRemaining(w.journal.accepted, w.journal.withdrawn, w.journal.taken + w.journal.waiting,
                          w.journal.started + IdsOf(w.state.queue));
  }

  lemma {:induction false} NobodyBusyNoCancels(cancels: map<InstallId, bool>, threads: seq<Pc>)
    requires CancelsAreBusy(cancels, threads) && forall i | 0 <= i < |threads| :: !threads[i].Busy?
    ensures cancels == map[]
  {
    assert forall id :: Busy(id) !in threads;
    assert cancels.Keys == {};
  }

  // The flag of the installation under way.

  /** The worker takes an installation from the queue. */
  predicate Takes(w: Worker, e: Event, id: InstallId) {
    e.Step? && e.t < |w.threads| && w.threads[e.t].TakeNext? && w.state.queue != [] && w.state.queue[0].id == id
  }

  /** Whether, after an event, a cancellation of an installation was asked for since it was last taken. */
  predicate AskedBy(w: Worker, e: Event, id: InstallId, asked: bool) {
    !Takes(w, e, id) && (asked || e == CancelInstall(id))
  }

  ghost predicate AskedIn(w: Worker, es: seq<Event>, id: InstallId, asked: bool)
    requires Runnable(w, es)
    decreases |es|
  {
    if es == [] then asked else AskedIn(Next(w, es[0]), es[1..], id, AskedBy(w, es[0], id, asked))
  }

  lemma {:induction false} EventRaisesIff(w: Worker, e: Event, id: InstallId, asked: bool)
    requires Inv(w) && Enabled(w, e) && (id in w.state.cancels ==> (w.state.cancels[id] <==> asked))
    requires id in Next(w, e).state.cancels
    ensures Next(w, e).state.cancels[id] <==> AskedBy(w, e, id, asked)
  {
    match e {
      case Add(_, install, identity, keep) =>
      case CancelInstall(other) =>
        assert AgreesOn(w.state, other);
        PositionFinds(w.state.queue, other);
      case Step(t, _, _) =>
        if w.threads[t].TakeNext? && w.state.queue != [] {
          PopKeepsAgreement(w.state);
        }
      case _ =>
    }
  }

  lemma {:induction false} RunRaisesIff(w: Worker, es: seq<Event>, id: InstallId, asked: bool)
    requires Inv(w) && Runnable(w, es) && (id in w.state.cancels ==> (w.state.cancels[id] <==> asked))
    ensures id in Run(w, es).state.cancels ==> (Run(w, es).state.cancels[id] <==> AskedIn(w, es, id, asked))
    decreases |es|
  {
    if es != [] {
      EventKeepsInv(w, es[0]);
      if id in Next(w, es[0]).state.cancels {
        EventRaisesIff(w, es[0], id, asked);
      }
      hide Next, Enabled, Inv, AskedBy;
      RunRaisesIff(Next(w, es[0]), es[1..], id, AskedBy(w, es[0], id, asked));
    }
  }

  /**
   Over whole runs: the cancel flag of the installation a thread is busy with is raised
   exactly if a cancellation of it was asked for since it was taken.
   */
  lemma {:induction false} FlagIsRaisedIff(es: seq<Event>, t: nat)
    requires Runnable(IDLE, es) && t < |Run(IDLE, es).threads| && Run(IDLE, es).threads[t].Busy?
    ensures var w := Run(IDLE, es); var id := w.threads[t].id;
      id in w.state.cancels && (w.state.cancels[id] <==> AskedIn(IDLE, es, id, false))
  {
    ReachableInv(es);
    EmptyJournalIsTrue();
    RunRaisesIff(IDLE, es, Run(IDLE, es).threads[t].id, false);
    hide Run, Runnable, AskedIn;
  }

  /** No wake-up is lost: when every thread is done, the queue is empty and nothing is under way. */
  lemma {:induction false} NothingIsLeftQueued(es: seq<Event>)
    requires Runnable(IDLE, es) && forall i | 0 <= i < |Run(IDLE, es).threads| :: Run(IDLE, es).threads[i].Done?
    ensures Run(IDLE, es).state.queue == [] && Run(IDLE, es).state.cancels == map[]
    ensures forall i | 0 <= i < |Run(IDLE, es).state.installs| :: Run(IDLE, es).state.installs[i].status.IsFinal()
  {
    ReachableInv(es);
    var s := Run(IDLE, es).state;
    NobodyBusyNoCancels(s.cancels, Run(IDLE, es).threads);
    forall i | 0 <= i < |s.installs|
      ensures s.installs[i].status.IsFinal()
    {
      StatusOfListed(s.installs, i);
      assert AgreesOn(s, s.installs[i].id);
    }
  }

  // Progress.

  /** How many steps a thread can take before the next entry leaves the queue, at most. */
  function Rank(waiting: bool, pc: Pc): nat {
    match pc
    case Adding(_) => 8
    case Busy(_) => 20
    case ReleaseFlag => if waiting then 7 else 2
    case Recheck => if waiting then 6 else 1
    case RetakeFlag => if waiting then 5 else 4
    case KickFlag => if waiting then 5 else 4
    case TakeNext => if waiting then 4 else 3
    case Done => 0
  }

  function Ranks(waiting: bool, pcs: seq<Pc>): nat {
    if pcs == [] then 0 else Ranks(waiting, pcs[..|pcs| - 1]) + Rank(waiting, pcs[|pcs| - 1])
  }

  /** A bound on the steps the threads can still take: 20 for each waiting entry, and their ranks. */
  function Left(w: Worker): nat {
    20 * |w.state.queue| + Ranks(w.state.queue != [], w.threads)
  }

  lemma {:induction false} RanksUpdate(waiting: bool, pcs: seq<Pc>, t: nat, pc: Pc)
    requires t < |pcs|
    ensures Ranks(waiting, pcs[t := pc]) == Ranks(waiting, pcs) - Rank(waiting, pcs[t]) + Rank(waiting, pc)
  {
    var n := |pcs| - 1;
    if t == n {
      assert pcs[t := pc][..n] == pcs[..n];
    } else {
      RanksUpdate(waiting, pcs[..n], t, pc);
      assert pcs[t := pc][..n] == pcs[..n][t := pc];
    }
  }

  lemma {:induction false} RanksShrink(pcs: seq<Pc>)
    ensures Ranks(false, pcs) <= Ranks(true, pcs)
  {
    if pcs != [] {
      RanksShrink(pcs[..|pcs| - 1]);
    }
  }

  predicate IsArrival(e: Event) {
    e.Begin? || e.Add?
  }

  lemma {:induction false} MoveLowersRank(pc: Pc, flag: bool, queue: seq<Entry>)
    requires !pc.Adding? && !pc.Done?
    ensures var move := MoveOf(pc, flag, queue); var waiting := queue != [];
      Rank(waiting, move.pc) + (if move.spawns then Rank(waiting, TakeNext) else 0)
        < Rank(waiting, pc) + if pc.TakeNext? && waiting then 20 else 0
  {
  }

  lemma {:induction false} StepAdvances(w: Worker, t: nat, status: Status, detail: Option<string>)
    requires Inv(w) && Enabled(w, Step(t, status, detail))
    ensures Left(Stepped(w, t, status, detail)) < Left(w)
  {
    var waiting, move := w.state.queue != [], MoveOf(w.threads[t], w.flag, w.state.queue);
    MoveLowersRank(w.threads[t], w.flag, w.state.queue);
    MovedRanks(waiting, w.threads, t, move);
    RanksShrink(Moved(w.threads, t, move));
    hide MoveOf, Rank, Ranks, Moved, Inv;
  }

  /** A move puts its thread where it goes, and a new one where the loop begins. */
  lemma {:induction false} MovedRanks(waiting: bool, threads: seq<Pc>, t: nat, move: Move)
    requires t < |threads|
    ensures Ranks(waiting, Moved(threads, t, move)) == Ranks(waiting, threads) - Rank(waiting, threads[t])
              + Rank(waiting, move.pc) + if move.spawns then Rank(waiting, TakeNext) else 0
  {
    RanksUpdate(waiting, threads, t, move.pc);
    hide Rank;
    var after := Moved(threads, t, move);
    if move.spawns {
      assert after[..|threads|] == threads[t := move.pc];
    } else {
      assert after == threads[t := move.pc];
    }
  }

  /** With nothing added, each step of a thread leaves less to do, and a cancellation never more. */
  lemma {:induction false} StepsRunOut(w: Worker, e: Event)
    requires Inv(w) && Enabled(w, e) && !IsArrival(e)
    ensures Left(Next(w, e)) <= Left(w)
    ensures !e.CancelInstall? ==> Left(Next(w, e)) < Left(w)
  {
    match e {
      case EndAdding(t) => RanksUpdate(w.state.queue != [], w.threads, t, Next(w, e).threads[t]);
      case CancelInstall(id) =>
        PositionFinds(w.state.queue, id);
        RanksShrink(w.threads);
      case Step(t, status, detail) => StepAdvances(w, t, status, detail);
    }
  }

  function Cancellations(es: seq<Event>): nat {
    if es == [] then 0 else Cancellations(es[1..]) + if es[0].CancelInstall? then 1 else 0
  }

  /** Over whole runs: with nothing added, a run is no longer than its cancellations and what there was left to do. */
  lemma {:induction false} RunsEndWithoutArrivals(w: Worker, es: seq<Event>)
    requires Inv(w) && Runnable(w, es) && forall e | e in es :: !IsArrival(e)
    ensures |es| <= Cancellations(es) + Left(w)
    decreases |es|
  {
    if es != [] {
      StepsRunOut(w, es[0]);
      EventKeepsInv(w, es[0]);
      RunsEndWithoutArrivals(Next(w, es[0]), es[1..]);
    }
  }

  // What becomes of installations.

  /** A caller ends adding, or a thread steps, with this end for an installation under way. */
  predicate Proceeds(e: Event, status: Status, detail: Option<string>) {
    e.EndAdding? || (e.Step? && e.status == status && e.detail == detail)
  }

  /** An installation that had ended is as it was; another still has not, or has ended so. */
  predicate MovesTo(before: Install, now: Install, status: Status, detail: Option<string>) {
    if before.status.IsFinal() then now == before
    else
      && now == before.(status := now.status, detail := now.detail)
      && (!now.status.IsFinal() || (now.status == status && now.detail == detail))
  }

  predicate AllMoveTo(before: seq<Install>, now: seq<Install>, status: Status, detail: Option<string>) {
    |now| == |before| && forall i | 0 <= i < |now| :: MovesTo(before[i], now[i], status, detail)
  }

  lemma {:induction false} WorkMoves(before: seq<Install>, s: State, pc: Pc, status: Status, detail: Option<string>)
    requires Agreement(s) && AllMoveTo(before, s.installs, status, detail) && status.IsFinal()
    requires pc.Busy? ==> pc.id in s.cancels
    ensures AllMoveTo(before, Worked(s, pc, status, detail).installs, status, detail)
  {
    forall i | 0 <= i < |s.installs|
      ensures StatusOf(s.installs, s.installs[i].id) == Some(s.installs[i].status)
    {
      StatusOfListed(s.installs, i);
    }
    match pc {
      case TakeNext =>
        if s.queue != [] {
          assert InQueue(s.queue, s.queue[0].id) && AgreesOn(s, s.queue[0].id);
          WithStatusChangesOne(s, s.queue[0].id, Installing, None);
        }
      case Busy(id) =>
        assert AgreesOn(s, id);
        WithStatusChangesOne(s, id, status, detail);
      case _ =>
    }
  }

  lemma {:induction false} ProceedingMoves(before: seq<Install>, w: Worker, e: Event, status: Status,
      detail: Option<string>)
    requires Inv(w) && Enabled(w, e) && Proceeds(e, status, detail) && status.IsFinal()
    requires AllMoveTo(before, w.state.installs, status, detail)
    ensures AllMoveTo(before, Next(w, e).state.installs, status, detail)
    ensures Next(w, e).journal.accepted == w.journal.accepted && Next(w, e).journal.removed == w.journal.removed
  {
    if e.Step? {
      assert Agreement(w.state) && (w.threads[e.t].Busy? ==> w.threads[e.t].id in w.state.cancels);
      hide Inv, AllMoveTo;
      WorkMoves(before, w.state, w.threads[e.t], status, detail);
    }
  }

  predicate AllDone(w: Worker) {
    forall t | 0 <= t < |w.threads| :: w.threads[t].Done?
  }

  /**
   Whatever the state, the threads can go on until all are done, and then every
   installation that waited or was under way has ended, and every other one is as it was.
   */
  lemma {:induction false} WorkGoesThrough(w: Worker, status: Status, detail: Option<string>)
    returns (es: seq<Event>)
    requires Inv(w) && status.IsFinal()
    ensures Runnable(w, es) && forall e | e in es :: Proceeds(e, status, detail)
    ensures var after := Run(w, es);
      && AllDone(after) && after.state.queue == [] && after.state.cancels == map[]
      && after.journal.accepted == w.journal.accepted && after.journal.removed == w.journal.removed
      && |after.state.installs| == |w.state.installs| && forall i | 0 <= i < |w.state.installs| ::
           after.state.installs[i] == if w.state.installs[i].status.IsFinal() then w.state.installs[i]
             else w.state.installs[i].(status := status, detail := detail)
  {
    es := Onward(w.state.installs, w, status, detail);
    RunKeepsInv(w, es);
    EndedIsFinal(Run(w, es));
    hide Run, Runnable, Inv;
  }

  lemma {:induction false} EndedIsFinal(w: Worker)
    requires Inv(w) && AllDone(w)
    ensures w.state.queue == [] && w.state.cancels == map[]
    ensures forall i | 0 <= i < |w.state.installs| :: w.state.installs[i].status.IsFinal()
  {
    var s := w.state;
    NobodyBusyNoCancels(s.cancels, w.threads);
    forall i | 0 <= i < |s.installs|
      ensures s.installs[i].status.IsFinal()
    {
      StatusOfListed(s.installs, i);
      assert AgreesOn(s, s.installs[i].id);
    }
  }

  lemma {:induction false} Onward(before: seq<Install>, w: Worker, status: Status, detail: Option<string>)
    returns (es: seq<Event>)
    requires Inv(w) && status.IsFinal() && AllMoveTo(before, w.state.installs, status, detail)
    ensures Runnable(w, es) && forall e | e in es :: Proceeds(e, status, detail)
    ensures AllDone(Run(w, es)) && AllMoveTo(before, Run(w, es).state.installs, status, detail)
    ensures Run(w, es).journal.accepted == w.journal.accepted && Run(w, es).journal.removed == w.journal.removed
    decreases Left(w)
  {
    if AllDone(w) {
      es := [];
    } else {
      var t :| 0 <= t < |w.threads| && !w.threads[t].Done?;
      var e := if w.threads[t].Adding? then EndAdding(t) else Step(t, status, detail);
      assert Enabled(w, e) && !IsArrival(e) && !e.CancelInstall?;
      hide Enabled, Next, Inv, AllMoveTo, AllDone, Left;
      EventKeepsInv(w, e);
      StepsRunOut(w, e);
      ProceedingMoves(before, w, e, status, detail);
      var rest := Onward(before, Next(w, e), status, detail);
      es := [e] + rest;
      assert es[1..] == rest;
    }
  }

  /**
   An installation that is not waiting or under way can be added by a new caller, and then
   all threads can go on until it has ended, with everything that waited before it.
   */
  lemma {:induction false} InstallGoesThrough(w: Worker, install: Install, identity: Option<string>, keep: bool,
      status: Status, detail: Option<string>)
    returns (es: seq<Event>)
    requires Inv(w) && install.status.Queued? && status.IsFinal()
    requires forall i | 0 <= i < |w.state.installs| && w.state.installs[i].id == install.id ::
      w.state.installs[i].status.IsFinal()
    ensures var t := |w.threads|;
      |es| >= 3 && es[0] == Begin && es[1] == Add(t, install, identity, keep) && es[2] == EndAdding(t)
    ensures Runnable(w, es) && forall e | e in es[3..] :: Proceeds(e, status, detail)
    ensures var after := Run(w, es); var n := |after.state.installs| - 1;
      && AllDone(after) && after.state.queue == [] && after.state.cancels == map[]
      && n >= 0 && after.state.installs[n] == install.(status := status, detail := detail)
      && after.journal.accepted == w.journal.accepted + [Entry(install.id, identity, keep)]
      && after.journal.removed == w.journal.removed
  {
    var t, entry := |w.threads|, Entry(install.id, identity, keep);
    var began := Next(w, Begin);
    assert began.threads[t] == Adding(false) && !IsActive(w.state.installs, install.id);
    EventKeepsInv(w, Begin);
    var added := Next(began, Add(t, install, identity, keep));
    EventKeepsInv(began, Add(t, install, identity, keep));
    assert added.threads[t] == Adding(true) && added.journal.accepted == w.journal.accepted + [entry];
    var ready := Next(added, EndAdding(t));
    EventKeepsInv(added, EndAdding(t));
    assert ready.state == added.state && ready.journal == added.journal;
    assert added.state.installs[|added.state.installs| - 1] == install;
    assert Enabled(began, Add(t, install, identity, keep)) && Enabled(added, EndAdding(t));
    hide Enabled, Next, Inv, AllDone;
    var rest := WorkGoesThrough(ready, status, detail);
    EventFirst(added, EndAdding(t), rest);
    EventFirst(began, Add(t, install, identity, keep), [EndAdding(t)] + rest);
    EventFirst(w, Begin, [Add(t, install, identity, keep)] + ([EndAdding(t)] + rest));
    es := [Begin] + ([Add(t, install, identity, keep)] + ([EndAdding(t)] + rest));
    assert es[3..] == rest;
  }

  lemma {:induction false} EventFirst(w: Worker, e: Event, rest: seq<Event>)
    requires Enabled(w, e) && Runnable(Next(w, e), rest)
    ensures Runnable(w, [e] + rest) && Run(w, [e] + rest) == Run(Next(w, e), rest)
  {
    hide Enabled, Next;
    assert ([e] + rest)[1..] == rest;
  }

  /** A caller of whose installations none is taken on leaves nothing behind, and starts no worker thread. */
  lemma {:induction false} RefusedCallerStartsNobody(w: Worker, adds: seq<Event>)
    requires forall e | e in adds :: e.Add? && e.t == |w.threads| && e.install.status.Queued?
    requires forall e | e in adds :: exists i | 0 <= i < |w.state.installs| ::
      w.state.installs[i].id == e.install.id && !w.state.installs[i].status.IsFinal()
    ensures var es := [Begin] + adds + [EndAdding(|w.threads|)];
      Runnable(w, es) && Run(w, es) == w.(threads := w.threads + [Done])
  {
    var t := |w.threads|;
    var began := Next(w, Begin);
    assert began == w.(threads := w.threads + [Adding(false)]);
    RefusedAddsChangeNothing(began, adds);
    var es := [Begin] + adds + [EndAdding(t)];
    assert es[1..] == adds + [EndAdding(t)];
    RunThen(began, adds, EndAdding(t));
    assert (w.threads + [Adding(false)])[t := Done] == w.threads + [Done];
  }

  lemma {:induction false} RefusedAddsChangeNothing(w: Worker, adds: seq<Event>)
    requires w.threads != [] && w.threads[|w.threads| - 1].Adding?
    requires forall e | e in adds :: e.Add? && e.t == |w.threads| - 1 && e.install.status.Queued?
    requires forall e | e in adds :: exists i | 0 <= i < |w.state.installs| ::
      w.state.installs[i].id == e.install.id && !w.state.installs[i].status.IsFinal()
    ensures Runnable(w, adds) && Run(w, adds) == w
    decreases |adds|
  {
    if adds != [] {
      assert adds[0] in adds && IsActive(w.state.installs, adds[0].install.id);
      assert Enabled(w, adds[0]) && Next(w, adds[0]) == w;
      RefusedAddsChangeNothing(w, adds[1..]);
    }
  }

  lemma {:induction false} RunThen(w: Worker, es: seq<Event>, e: Event)
    requires Runnable(w, es) && Enabled(Run(w, es), e)
    ensures Runnable(w, es + [e]) && Run(w, es + [e]) == Next(Run(w, es), e)
    decreases |es|
  {
    hide Enabled, Next;
    if es == [] {
      assert es + [e] == [e] && [e][1..] == [];
    } else {
      RunThen(Next(w, es[0]), es[1..], e);
      assert (es + [e])[1..] == es[1..] + [e];
    }
  }
}
