/**
 Views with a revision. Threads write shared fields one at a time, then count
 the change; a view reads the counter first and the fields after it, one by one,
 while others write. The interface keeps the newest view it received, in
 whatever order views arrive.
 */
module RevisionedViews {
  import opened Wrappers

  type Value = nat

  datatype View = View(revision: nat, fields: seq<Value>)

  /** The view to show once `next` arrives. */
  function NewestView(current: Option<View>, next: View): View {
    if current.Some? && current.value.revision > next.revision then current.value else next
  }

  /**
   How a view reaches the interface: a command's reply or an event is folded into
   what is shown then; a query's reply is folded into what was shown when the
   query began, after `since` arrivals, and replaces what is shown when it comes.
   */
  datatype Arrival = Accepted(view: View) | Fetched(since: nat, view: View)

  function ShownAfter(arrivals: seq<Arrival>): Option<View>
    decreases |arrivals|
  {
    if arrivals == [] then None
    else
      var n := |arrivals| - 1;
      match arrivals[n]
      case Accepted(view) => Some(NewestView(ShownAfter(arrivals[..n]), view))
      case Fetched(since, view) => Some(NewestView(ShownAfter(arrivals[..if since < n then since else n]), view))
  }

  /** Nothing that arrived is newer than what is shown. */
  predicate ShowsNewest(arrivals: seq<Arrival>) {
    forall i | 0 <= i < |arrivals| ::
      ShownAfter(arrivals).Some? && arrivals[i].view.revision <= ShownAfter(arrivals).value.revision
  }

  /**
   Whether a view arrived while query `i` was under way that is newer than its reply and
   than what was shown when it began.
   */
  predicate Overtaken(arrivals: seq<Arrival>, i: nat)
    requires i < |arrivals|
  {
    arrivals[i].Fetched? && exists j | arrivals[i].since <= j < i ::
      var before := ShownAfter(arrivals[..arrivals[i].since]);
      arrivals[j].view.revision > arrivals[i].view.revision
      && (before.Some? ==> arrivals[j].view.revision > before.value.revision)
  }

  /** What is shown did arrive. */
  lemma {:induction false} ShownArrived(arrivals: seq<Arrival>)
    ensures ShownAfter(arrivals).Some? <==> arrivals != []
    ensures arrivals != [] ==> exists i | 0 <= i < |arrivals| :: arrivals[i].view == ShownAfter(arrivals).value
    decreases |arrivals|
  {
    if arrivals != [] {
      var n := |arrivals| - 1;
      var m := if arrivals[n].Fetched? && arrivals[n].since < n then arrivals[n].since else n;
      ShownArrived(arrivals[..m]);
      if ShownAfter(arrivals).value == arrivals[n].view {
      } else {
        var i :| 0 <= i < m && arrivals[..m][i].view == ShownAfter(arrivals[..m]).value;
        assert arrivals[i].view == ShownAfter(arrivals).value;
      }
    }
  }

  lemma {:induction false} LastShowsNewestIff(arrivals: seq<Arrival>)
    requires arrivals != [] && forall m | 0 <= m < |arrivals| :: ShowsNewest(arrivals[..m])
    ensures ShowsNewest(arrivals) <==> !Overtaken(arrivals, |arrivals| - 1)
  {
    var n := |arrivals| - 1;
    var last := arrivals[n];
    var m := if last.Fetched? && last.since < n then last.since else n;
    ShownArrived(arrivals);
    ShownArrived(arrivals[..m]);
    assert ShowsNewest(arrivals[..m]);
    assert forall i | 0 <= i < m :: arrivals[..m][i] == arrivals[i];
    if Overtaken(arrivals, n) {
      var j :| last.since <= j < n && arrivals[j].view.revision > last.view.revision
        && (ShownAfter(arrivals[..last.since]).Some? ==>
              arrivals[j].view.revision > ShownAfter(arrivals[..last.since]).value.revision);
      assert arrivals[j].view.revision > ShownAfter(arrivals).value.revision;
    } else {
      forall i | 0 <= i < |arrivals|
        ensures arrivals[i].view.revision <= ShownAfter(arrivals).value.revision
      {
        if i < m {
          assert arrivals[..m][i].view.revision <= ShownAfter(arrivals[..m]).value.revision;
        }
      }
    }
  }

  /**
   The newest view is shown all the time exactly if no query is overtaken; replies and
   events alone may cross as they like.
   */
  lemma {:induction false} NewestIsShownIff(arrivals: seq<Arrival>)
    ensures (forall m | 0 <= m <= |arrivals| :: ShowsNewest(arrivals[..m])) <==>
            (forall i | 0 <= i < |arrivals| :: !Overtaken(arrivals, i))
    decreases |arrivals|
  {
    if arrivals != [] {
      var n := |arrivals| - 1;
      var before := arrivals[..n];
      NewestIsShownIff(before);
      assert arrivals[..|arrivals|] == arrivals;
      forall m | 0 <= m <= n
        ensures before[..m] == arrivals[..m]
      {
      }
      forall i | 0 <= i < n
        ensures Overtaken(before, i) <==> Overtaken(arrivals, i)
      {
        if arrivals[i].Fetched? && arrivals[i].since < i {
          assert before[..arrivals[i].since] == arrivals[..arrivals[i].since];
        }
      }
      if forall m | 0 <= m <= n :: ShowsNewest(arrivals[..m]) {
        LastShowsNewestIff(arrivals);
      }
    }
  }

  /**
   The arrivals the last one was folded into, one after another: a reply or event into
   the one before it, a query's reply into the last one before the query began.
   */
  function Folded(arrivals: seq<Arrival>): seq<nat>
    decreases |arrivals|
  {
    if arrivals == [] then []
    else
      var n := |arrivals| - 1;
      Folded(arrivals[..if arrivals[n].Fetched? && arrivals[n].since < n then arrivals[n].since else n]) + [n]
  }

  lemma {:induction false} FoldedInto(arrivals: seq<Arrival>, m: nat)
    requires arrivals != [] && var n := |arrivals| - 1;
      m == if arrivals[n].Fetched? && arrivals[n].since < n then arrivals[n].since else n
    ensures var n := |arrivals| - 1;
      && Folded(arrivals) == Folded(arrivals[..m]) + [n]
      && ShownAfter(arrivals).Some?
      && ShownAfter(arrivals).value.revision >= arrivals[n].view.revision
      && (match ShownAfter(arrivals[..m])
          case None => ShownAfter(arrivals).value == arrivals[n].view
          case Some(shown) =>
            ShownAfter(arrivals).value == if shown.revision > arrivals[n].view.revision then shown
              else arrivals[n].view)
  {
  }

  /** Of these the last of the newest is shown, and nothing else counts. */
  lemma {:induction false} ShownIsLastNewest(arrivals: seq<Arrival>) returns (i: nat)
    requires arrivals != []
    ensures i in Folded(arrivals) && i < |arrivals| && ShownAfter(arrivals) == Some(arrivals[i].view)
    ensures forall j | j in Folded(arrivals) ::
              j < |arrivals| && arrivals[j].view.revision <= arrivals[i].view.revision
              && (arrivals[j].view.revision == arrivals[i].view.revision ==> j <= i)
    decreases |arrivals|
  {
    var n := |arrivals| - 1;
    var m := if arrivals[n].Fetched? && arrivals[n].since < n then arrivals[n].since else n;
    var rest := arrivals[..m];
    FoldedInto(arrivals, m);
    hide Folded, ShownAfter, NewestView;
    i := n;
    if rest != [] {
      var k := ShownIsLastNewest(rest);
      assert forall j | j in Folded(rest) :: rest[j] == arrivals[j];
      if arrivals[n].view.revision < rest[k].view.revision {
        i := k;
      }
    }
  }

  datatype Pc = Free | Loading | Reading(view: View)

  /** A thread is dirty while it has written fields and not counted that yet. */
  datatype Thread = Thread(dirty: bool, pc: Pc)

  /** The shared fields, the counter, the threads, and every view handed to the interface. */
  datatype System = System(fields: seq<Value>, revision: nat, threads: seq<Thread>, sent: seq<View>)

  datatype Event =
    | Spawn
    | Write(t: nat, field: nat, value: Value)
    | CountChange(t: nat)
    | Ask(t: nat)
    | LoadRevision(t: nat)
    | ReadField(t: nat)
    | Send(t: nat)

  predicate Enabled(s: System, e: Event) {
    match e
    case Spawn => true
    case Write(t, field, _) => t < |s.threads| && s.threads[t].pc.Free? && field < |s.fields|
    case CountChange(t) => t < |s.threads| && s.threads[t].pc.Free?
    case Ask(t) => t < |s.threads| && s.threads[t].pc.Free?
    case LoadRevision(t) => t < |s.threads| && s.threads[t].pc.Loading?
    case ReadField(t) =>
      t < |s.threads| && s.threads[t].pc.Reading? && |s.threads[t].pc.view.fields| < |s.fields|
    case Send(t) => t < |s.threads| && s.threads[t].pc.Reading? && |s.threads[t].pc.view.fields| == |s.fields|
  }

  function At(s: System, t: nat, thread: Thread): System
    requires t < |s.threads|
  {
    s.(threads := s.threads[t := thread])
  }

  function Next(s: System, e: Event): System
    requires Enabled(s, e)
  {
    match e
    case Spawn => s.(threads := s.threads + [Thread(false, Free)])
    case Write(t, field, value) => At(s, t, Thread(true, Free)).(fields := s.fields[field := value])
    case CountChange(t) => At(s, t, Thread(false, Loading)).(revision := s.revision + 1)
    case Ask(t) => At(s, t, s.threads[t].(pc := Loading))
    case LoadRevision(t) => At(s, t, s.threads[t].(pc := Reading(View(s.revision, []))))
    case ReadField(t) =>
      var view := s.threads[t].pc.view;
      At(s, t, s.threads[t].(pc := Reading(view.(fields := view.fields + [s.fields[|view.fields|]]))))
    case Send(t) => At(s, t, s.threads[t].(pc := Free)).(sent := s.sent + [s.threads[t].pc.view])
  }

  predicate Runnable(s: System, es: seq<Event>)
    decreases |es|
  {
    es == [] || (Enabled(s, es[0]) && Runnable(Next(s, es[0]), es[1..]))
  }

  function Run(s: System, es: seq<Event>): System
    requires Runnable(s, es)
    decreases |es|
  {
    if es == [] then s else Run(Next(s, es[0]), es[1..])
  }

  predicate NoneDirty(s: System) {
    forall i | 0 <= i < |s.threads| :: !s.threads[i].dirty
  }

  /**
   A view of the latest revision holds the current fields as far as it has read them,
   unless a change is still uncounted.
   */
  predicate IsFaithful(s: System, view: View) {
    && view.revision <= s.revision
    && |view.fields| <= |s.fields|
    && (view.revision == s.revision && NoneDirty(s) ==> view.fields == s.fields[..|view.fields|])
  }

  /** A thread that will send a view of the latest revision, as long as that stays the latest. */
  predicate WillSendLatest(s: System, thread: Thread) {
    thread.pc.Loading? || (thread.pc.Reading? && thread.pc.view.revision == s.revision)
  }

  ghost predicate Faithful(s: System) {
    && (forall i | 0 <= i < |s.threads| && s.threads[i].pc.Reading? :: IsFaithful(s, s.threads[i].pc.view))
    && (forall i | 0 <= i < |s.sent| :: IsFaithful(s, s.sent[i]) && |s.sent[i].fields| == |s.fields|)
  }

  /** Writing makes a thread dirty and counting changes the revision, so no view is held to fields it read too early. */
  lemma {:induction false} StaysFaithful(s: System, e: Event, view: View)
    requires Enabled(s, e) && IsFaithful(s, view)
    ensures IsFaithful(Next(s, e), view)
  {
    var after := Next(s, e);
    if e.Write? {
      assert after.threads[e.t].dirty;
    } else if view.revision == after.revision && NoneDirty(after) {
      forall i | 0 <= i < |s.threads|
        ensures !s.threads[i].dirty
      {
        assert !after.threads[i].dirty;
      }
    }
  }

  lemma {:induction false} ReadingStaysFaithful(s: System, t: nat)
    requires Enabled(s, ReadField(t)) && IsFaithful(s, s.threads[t].pc.view)
    ensures IsFaithful(Next(s, ReadField(t)), Next(s, ReadField(t)).threads[t].pc.view)
  {
    var after := Next(s, ReadField(t));
    var view := s.threads[t].pc.view;
    if view.revision == s.revision && NoneDirty(after) {
      StaysFaithful(s, ReadField(t), view);
      assert s.fields[..|view.fields| + 1] == s.fields[..|view.fields|] + [s.fields[|view.fields|]];
    }
  }

  lemma {:induction false} EventKeepsFaithful(s: System, e: Event)
    requires Faithful(s) && Enabled(s, e)
    ensures Faithful(Next(s, e))
  {
    var after := Next(s, e);
    forall i | 0 <= i < |after.threads| && after.threads[i].pc.Reading?
      ensures IsFaithful(after, after.threads[i].pc.view)
    {
      if e.ReadField? && i == e.t {
        ReadingStaysFaithful(s, e.t);
      } else if !(e.LoadRevision? && i == e.t) {
        StaysFaithful(s, e, s.threads[i].pc.view);
      }
    }
    forall i | 0 <= i < |after.sent|
      ensures IsFaithful(after, after.sent[i]) && |after.sent[i].fields| == |after.fields|
    {
      StaysFaithful(s, e, if i < |s.sent| then s.sent[i] else s.threads[e.t].pc.view);
    }
  }

  ghost predicate Announced(s: System) {
    s.revision > 0 || s.sent != [] ==>
      || (exists i | 0 <= i < |s.threads| :: WillSendLatest(s, s.threads[i]))
      || (exists i | 0 <= i < |s.sent| :: s.sent[i].revision == s.revision)
  }

  lemma {:induction false} EventKeepsAnnounced(s: System, e: Event)
    requires Faithful(s) && Announced(s) && Enabled(s, e)
    ensures Announced(Next(s, e))
  {
    var after := Next(s, e);
    if e.Send? {
      assert s.revision == 0 ==> WillSendLatest(s, s.threads[e.t]);
      if exists i | 0 <= i < |s.threads| :: WillSendLatest(s, s.threads[i]) {
        var i :| 0 <= i < |s.threads| && WillSendLatest(s, s.threads[i]);
        assert if i == e.t then after.sent[|s.sent|].revision == s.revision
          else WillSendLatest(after, after.threads[i]);
      } else if exists i | 0 <= i < |s.sent| :: s.sent[i].revision == s.revision {
        var i :| 0 <= i < |s.sent| && s.sent[i].revision == s.revision;
        assert after.sent[i].revision == s.revision;
      }
    } else if e.CountChange? || e.Ask? || e.LoadRevision? {
      assert WillSendLatest(after, after.threads[e.t]);
    } else if exists i | 0 <= i < |s.threads| :: WillSendLatest(s, s.threads[i]) {
      var i :| 0 <= i < |s.threads| && WillSendLatest(s, s.threads[i]);
      assert WillSendLatest(after, after.threads[i]);
    }
  }

  ghost predicate Inv(s: System) {
    Faithful(s) && Announced(s)
  }

  lemma {:induction false} RunKeepsInv(s: System, es: seq<Event>)
    requires Inv(s) && Runnable(s, es)
    ensures Inv(Run(s, es))
    decreases |es|
  {
    if es != [] {
      EventKeepsFaithful(s, es[0]);
      EventKeepsAnnounced(s, es[0]);
      RunKeepsInv(Next(s, es[0]), es[1..]);
    }
  }

  /** All writes are counted and every view asked for is sent. */
  predicate IsQuiet(s: System) {
    NoneDirty(s) && forall i | 0 <= i < |s.threads| :: s.threads[i].pc.Free?
  }

  function Views(arrivals: seq<Arrival>): seq<View> {
    seq(|arrivals|, i requires 0 <= i < |arrivals| => arrivals[i].view)
  }

  /** A run of the system that ends quietly, and the arrival of every view it sent, in any order. */
  ghost predicate Delivered(fields: seq<Value>, es: seq<Event>, arrivals: seq<Arrival>) {
    var start := System(fields, 0, [], []);
    && Runnable(start, es) && IsQuiet(Run(start, es)) && multiset(Views(arrivals)) == multiset(Run(start, es).sent)
  }

  function EndOf(fields: seq<Value>, es: seq<Event>): System
    requires Runnable(System(fields, 0, [], []), es)
  {
    Run(System(fields, 0, [], []), es)
  }

  lemma {:induction false} NewestArrives(fields: seq<Value>, es: seq<Event>, arrivals: seq<Arrival>)
    requires Delivered(fields, es, arrivals)
    ensures var end := EndOf(fields, es);
      && (forall i | 0 <= i < |arrivals| :: arrivals[i].view.revision <= end.revision
            && (arrivals[i].view.revision == end.revision ==> arrivals[i].view == View(end.revision, end.fields)))
      && (arrivals != [] ==> exists i | 0 <= i < |arrivals| :: arrivals[i].view.revision == end.revision)
  {
    var start, end := System(fields, 0, [], []), EndOf(fields, es);
    RunKeepsInv(start, es);
    assert end.fields[..|end.fields|] == end.fields;
    forall i | 0 <= i < |arrivals|
      ensures IsFaithful(end, arrivals[i].view) && |arrivals[i].view.fields| == |end.fields| && end.sent != []
    {
      assert Views(arrivals)[i] in multiset(end.sent);
      var j :| 0 <= j < |end.sent| && end.sent[j] == arrivals[i].view;
    }
    if arrivals != [] {
      assert IsFaithful(end, arrivals[0].view);
      var j :| 0 <= j < |end.sent| && end.sent[j].revision == end.revision;
      assert end.sent[j] in multiset(Views(arrivals));
      var k :| 0 <= k < |arrivals| && Views(arrivals)[k] == end.sent[j];
      assert arrivals[k].view.revision == end.revision;
    }
  }

  /**
   Convergence: once all is quiet and every view sent has arrived, in any order, the
   interface shows the final revision with the final fields exactly if following the
   arrivals the last one was folded into leads to one of the final revision. It always
   does if no query was overtaken.
   */
  lemma {:induction false} InterfaceConvergesIff(fields: seq<Value>, es: seq<Event>, arrivals: seq<Arrival>)
    requires Delivered(fields, es, arrivals) && arrivals != []
    ensures var end := EndOf(fields, es);
      ShownAfter(arrivals) == Some(View(end.revision, end.fields)) <==>
        exists i | i in Folded(arrivals) :: i < |arrivals| && arrivals[i].view.revision == end.revision
    ensures (forall i | 0 <= i < |arrivals| :: !Overtaken(arrivals, i)) ==>
              ShownAfter(arrivals) == Some(View(EndOf(fields, es).revision, EndOf(fields, es).fields))
  {
    var end := EndOf(fields, es);
    NewestArrives(fields, es, arrivals);
    var shown := ShownIsLastNewest(arrivals);
    if forall i | 0 <= i < |arrivals| :: !Overtaken(arrivals, i) {
      NewestIsShownIff(arrivals);
      assert arrivals[..|arrivals|] == arrivals;
    }
  }

  // A query that takes the interface back for good.

  lemma {:induction false} OneMore(start: System, s: System, es: seq<Event>, e: Event)
        returns (after: System, more: seq<Event>)
    requires Runnable(start, es) && Run(start, es) == s && Enabled(s, e)
    ensures after == Next(s, e) && more == es + [e] && Runnable(start, more) && Run(start, more) == after
    decreases |es|
  {
    hide Next, Enabled;
    after, more := Next(s, e), es + [e];
    if es == [] {
      assert more == [e] && [e][1..] == [];
    } else {
      var _, _ := OneMore(Next(start, es[0]), s, es[1..], e);
      assert more[1..] == es[1..] + [e];
    }
  }

  /** A thread that begins a view reads its only field and sends it. */
  lemma {:induction false} Sends(start: System, s: System, es: seq<Event>, t: nat, view: View)
      returns (after: System, more: seq<Event>)
    requires Runnable(start, es) && Run(start, es) == s && t < |s.threads| && s.threads[t].pc.Loading?
          && |s.fields| == 1
    requires view == View(s.revision, s.fields)
    ensures after == s.(threads := s.threads[t := s.threads[t].(pc := Free)], sent := s.sent + [view])
    ensures Runnable(start, more) && Run(start, more) == after
  {
    hide Run, Runnable;
    after, more := OneMore(start, s, es, LoadRevision(t));
    after, more := OneMore(start, after, more, ReadField(t));
    assert after.threads[t].pc == Reading(view);
    after, more := OneMore(start, after, more, Send(t));
  }

  /** Two threads start, and the first answers a query. */
  lemma {:induction false} QueryIsAnswered(before: Value) returns (s: System, es: seq<Event>)
    ensures s == System([before], 0, [Thread(false, Free), Thread(false, Free)], [View(0, [before])])
    ensures var start := System([before], 0, [], []); Runnable(start, es) && Run(start, es) == s
  {
    var start := System([before], 0, [], []);
    hide Run, Runnable;
    s, es := NoSteps(start);
    s, es := OneMore(start, s, es, Spawn);
    s, es := OneMore(start, s, es, Spawn);
    assert s.threads == [Thread(false, Free), Thread(false, Free)];
    s, es := OneMore(start, s, es, Ask(0));
    s, es := Sends(start, s, es, 0, View(0, [before]));
    assert s.threads == [Thread(false, Free), Thread(false, Free)];
  }

  lemma {:induction false} NoSteps(start: System) returns (s: System, es: seq<Event>)
    ensures s == start && es == [] && Runnable(start, es) && Run(start, es) == s
  {
    s, es := start, [];
  }

  /** The second changes the field, counts the change and sends the event. */
  lemma {:induction false} ChangeIsSent(start: System, s: System, es: seq<Event>, before: Value, after: Value)
      returns (end: System, more: seq<Event>)
    requires Runnable(start, es) && Run(start, es) == s
    requires s == System([before], 0, [Thread(false, Free), Thread(false, Free)], [View(0, [before])])
    ensures Runnable(start, more) && Run(start, more) == end
    ensures end == System([after], 1, [Thread(false, Free), Thread(false, Free)], [View(0, [before]), View(1, [after])])
  {
    hide Run, Runnable;
    end, more := OneMore(start, s, es, Write(1, 0, after));
    assert end.fields == [after];
    end, more := OneMore(start, end, more, CountChange(1));
    end, more := Sends(start, end, more, 1, View(1, [after]));
    assert end.threads == [Thread(false, Free), Thread(false, Free)];
    assert end.sent == [View(0, [before]), View(1, [after])];
  }

  lemma {:induction false} ReplyIsShown(newest: View, stale: View)
    ensures ShownAfter([Accepted(newest), Fetched(0, stale)]) == Some(stale)
    ensures multiset(Views([Accepted(newest), Fetched(0, stale)])) == multiset([stale, newest])
  {
    var arrivals := [Accepted(newest), Fetched(0, stale)];
    assert arrivals[..0] == [];
    assert Views(arrivals) == [newest, stale];
  }

  /**
   One thread answers a query; another changes a field, counts the change and sends the
   event. The event arrives while the query is under way, the query's reply after it,
   and nothing follows: the old field stays on the screen.
   */
  lemma {:induction false} QueryCanGoBack(before: Value, after: Value) returns (es: seq<Event>, arrivals: seq<Arrival>)
    ensures Delivered([before], es, arrivals) && EndOf([before], es).fields == [after]
          && EndOf([before], es).revision == 1
    ensures ShownAfter(arrivals) == Some(View(0, [before]))
  {
    var s, first := QueryIsAnswered(before);
    var end;
    end, es := ChangeIsSent(System([before], 0, [], []), s, first, before, after);
    arrivals := [Accepted(View(1, [after])), Fetched(0, View(0, [before]))];
    ReplyIsShown(View(1, [after]), View(0, [before]));
    hide Run, Runnable, Views, ShownAfter;
  }
}
