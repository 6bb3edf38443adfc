/**
 The list of archives a scan found that are being installed: what each
 operation does to the list, the queue and the cancel flags while it holds the
 lock, and that these three always agree.
 */
module ScanInstalls {
  import opened Wrappers

  type InstallId = nat

  datatype Status = Queued | Installing | Installed | NeedsReview | Failed | Cancelled {
    predicate IsFinal() {
      !Queued? && !Installing?
    }
  }

  datatype Install = Install(id: InstallId, key: string, name: string, workCode: Option<string>,
                             status: Status, detail: Option<string>)

  /** A queued installation with the identity it is to be confirmed as and whether its archives are kept. */
  datatype Entry = Entry(id: InstallId, identity: Option<string>, keep: bool)

  datatype State = State(installs: seq<Install>, queue: seq<Entry>, cancels: map<InstallId, bool>)

  const EMPTY := State([], [], map[])

  /** The status an installation is listed with, if it is. */
  function StatusOf(installs: seq<Install>, id: InstallId): Option<Status> {
    if installs == [] then None
    else if installs[0].id == id then Some(installs[0].status)
    else StatusOf(installs[1..], id)
  }

  /** The list with the first entry of an installation given another status. */
  function WithStatus(installs: seq<Install>, id: InstallId, status: Status, detail: Option<string>): seq<Install> {
    if installs == [] then []
    else if installs[0].id == id then [installs[0].(status := status, detail := detail)] + installs[1..]
    else [installs[0]] + WithStatus(installs[1..], id, status, detail)
  }

  function Without(installs: seq<Install>, id: InstallId): seq<Install> {
    if installs == [] then []
    else if installs[0].id == id then Without(installs[1..], id)
    else [installs[0]] + Without(installs[1..], id)
  }

  predicate IsActive(installs: seq<Install>, id: InstallId) {
    exists i | 0 <= i < |installs| :: installs[i].id == id && !installs[i].status.IsFinal()
  }

  /** Where an installation stands in the queue, or the queue's length. */
  function Position(queue: seq<Entry>, id: InstallId): nat {
    if queue == [] || queue[0].id == id then 0 else 1 + Position(queue[1..], id)
  }

  lemma {:induction false} PositionFinds(queue: seq<Entry>, id: InstallId)
    ensures Position(queue, id) <= |queue|
    ensures Position(queue, id) < |queue| ==> queue[Position(queue, id)].id == id
    ensures forall i | 0 <= i < Position(queue, id) :: queue[i].id != id
  {
    if queue != [] && queue[0].id != id {
      PositionFinds(queue[1..], id);
      assert forall i | 0 < i < |queue| :: queue[i] == queue[1..][i - 1];
    }
  }

  function Enqueued(s: State, install: Install, entry: Entry): State {
    if IsActive(s.installs, install.id) then s
    else State(Without(s.installs, install.id) + [install], s.queue + [entry], s.cancels)
  }

  /** A waiting installation leaves the queue as cancelled; one under way is asked to stop. */
  function Cancelling(s: State, id: InstallId): State {
    var p := Position(s.queue, id);
    PositionFinds(s.queue, id);
    if p < |s.queue|
    then State(WithStatus(s.installs, id, Cancelled, None), s.queue[..p] + s.queue[p + 1..], s.cancels)
    else if id in s.cancels then s.(cancels := s.cancels[id := true])
    else s
  }

  function Popped(s: State): State
    requires s.queue != []
  {
    var id := s.queue[0].id;
    State(WithStatus(s.installs, id, Installing, None), s.queue[1..], s.cancels[id := false])
  }

  function Finished(s: State, id: InstallId, status: Status, detail: Option<string>): State {
    State(WithStatus(s.installs, id, status, detail), s.queue, s.cancels - {id})
  }

  // Agreement.

  ghost predicate Distinct(s: State) {
    && (forall i, j | 0 <= i < j < |s.installs| :: s.installs[i].id != s.installs[j].id)
    && (forall i, j | 0 <= i < j < |s.queue| :: s.queue[i].id != s.queue[j].id)
  }

  predicate InQueue(queue: seq<Entry>, id: InstallId) {
    exists i | 0 <= i < |queue| :: queue[i].id == id
  }

  /** The list, the queue and the cancel flags tell the same story about one installation. */
  ghost predicate AgreesOn(s: State, id: InstallId) {
    && (InQueue(s.queue, id) <==> StatusOf(s.installs, id) == Some(Queued))
    && (id in s.cancels <==> StatusOf(s.installs, id) == Some(Installing))
  }

  ghost predicate Agreement(s: State) {
    Distinct(s) && forall id :: AgreesOn(s, id)
  }

  lemma {:induction false} StatusOfListed(installs: seq<Install>, i: nat)
    requires i < |installs| && forall i, j | 0 <= i < j < |installs| :: installs[i].id != installs[j].id
    ensures StatusOf(installs, installs[i].id) == Some(installs[i].status)
  {
    if i > 0 {
      StatusOfListed(installs[1..], i - 1);
    }
  }

  lemma {:induction false} StatusOfNone(installs: seq<Install>, id: InstallId)
    ensures StatusOf(installs, id) == None <==> forall i | 0 <= i < |installs| :: installs[i].id != id
  {
    if installs != [] {
      StatusOfNone(installs[1..], id);
      assert forall i | 0 < i < |installs| :: installs[i] == installs[1..][i - 1];
    }
  }

  lemma {:induction false} WithStatusSets(installs: seq<Install>, id: InstallId, status: Status, detail: Option<string>)
    ensures var after := WithStatus(installs, id, status, detail);
      && |after| == |installs|
      && (forall i | 0 <= i < |installs| :: after[i].id == installs[i].id)
      && forall other :: StatusOf(after, other) ==
           if other == id && StatusOf(installs, id).Some? then Some(status) else StatusOf(installs, other)
  {
    if installs != [] && installs[0].id != id {
      WithStatusSets(installs[1..], id, status, detail);
    }
  }

  lemma {:induction false} WithStatusAt(installs: seq<Install>, n: nat, id: InstallId, status: Status,
      detail: Option<string>)
    requires n <= |installs| && (forall i | 0 <= i < n :: installs[i].id != id)
    requires n < |installs| ==> installs[n].id == id
    ensures WithStatus(installs, id, status, detail) ==
      if n < |installs| then installs[n := installs[n].(status := status, detail := detail)] else installs
  {
    if n > 0 {
      WithStatusAt(installs[1..], n - 1, id, status, detail);
    }
  }

  lemma {:induction false} WithoutRemoves(installs: seq<Install>, id: InstallId)
    requires forall i, j | 0 <= i < j < |installs| :: installs[i].id != installs[j].id
    ensures var after := Without(installs, id);
      && (forall i, j | 0 <= i < j < |after| :: after[i].id != after[j].id)
      && (forall i | 0 <= i < |after| :: after[i].id != id && after[i] in installs)
      && forall other :: StatusOf(after, other) == if other == id then None else StatusOf(installs, other)
  {
    if installs != [] {
      WithoutRemoves(installs[1..], id);
      if installs[0].id == id {
        StatusOfNone(installs[1..], id);
      } else {
        var rest := Without(installs[1..], id);
        forall i | 0 <= i < |rest|
          ensures rest[i].id != installs[0].id
        {
          var j :| 0 <= j < |installs[1..]| && installs[1..][j] == rest[i];
          assert installs[j + 1] == rest[i];
        }
      }
    }
  }

  lemma {:induction false} StatusOfAppended(installs: seq<Install>, install: Install, id: InstallId)
    ensures StatusOf(installs + [install], id) ==
      if StatusOf(installs, id).Some? then StatusOf(installs, id)
      else if install.id == id then Some(install.status) else None
  {
    if installs != [] {
      StatusOfAppended(installs[1..], install, id);
      assert (installs + [install])[1..] == installs[1..] + [install];
    }
  }

  lemma {:induction false} ActiveIffListed(s: State, id: InstallId)
    requires Distinct(s)
    ensures IsActive(s.installs, id) <==> StatusOf(s.installs, id).Some? && !StatusOf(s.installs, id).value.IsFinal()
  {
    if IsActive(s.installs, id) {
      var i: nat :| i < |s.installs| && s.installs[i].id == id && !s.installs[i].status.IsFinal();
      StatusOfListed(s.installs, i);
    }
    StatusOfNone(s.installs, id);
    if StatusOf(s.installs, id).Some? {
      var i: nat :| i < |s.installs| && s.installs[i].id == id;
      StatusOfListed(s.installs, i);
    }
  }

  /** One installation is listed with another status and detail, and nothing else in the list has changed. */
  ghost predicate ChangesOne(s: State, after: State, id: InstallId, status: Status, detail: Option<string>) {
    |after.installs| == |s.installs| && forall i | 0 <= i < |s.installs| ::
      after.installs[i] == if s.installs[i].id == id then s.installs[i].(status := status, detail := detail)
        else s.installs[i]
  }

  lemma {:induction false} WithStatusChangesOne(s: State, id: InstallId, status: Status, detail: Option<string>)
    requires Distinct(s)
    ensures ChangesOne(s, s.(installs := WithStatus(s.installs, id, status, detail)), id, status, detail)
  {
    StatusOfNone(s.installs, id);
    if n :| 0 <= n < |s.installs| && s.installs[n].id == id {
      WithStatusAt(s.installs, n, id, status, detail);
    } else {
      WithStatusAt(s.installs, |s.installs|, id, status, detail);
    }
  }

  /** Every other installation is listed as before. */
  ghost predicate OthersKeepStatus(s: State, after: State, id: InstallId) {
    forall other | other != id :: StatusOf(after.installs, other) == StatusOf(s.installs, other)
  }

  /** A list without the entries of one installation, the others in their order. */
  ghost predicate IsKept(installs: seq<Install>, kept: seq<Install>, id: InstallId) {
    && (forall install | install in installs && install.id != id :: install in kept)
    && (forall i | 0 <= i < |kept| :: kept[i].id != id && kept[i] in installs)
    && (forall i, j | 0 <= i < j < |kept| :: exists k, l | 0 <= k < l < |installs| ::
      installs[k] == kept[i] && installs[l] == kept[j])
  }

  lemma {:induction false} WithoutKeeps(installs: seq<Install>, id: InstallId)
    ensures forall install :: install in Without(installs, id) <==> install in installs && install.id != id
  {
    if installs != [] {
      WithoutKeeps(installs[1..], id);
      assert installs == [installs[0]] + installs[1..];
    }
  }

  lemma {:induction false} WithoutKeepsOrder(installs: seq<Install>, id: InstallId, i: nat, j: nat)
    returns (k: nat, l: nat)
    requires i < j < |Without(installs, id)|
    ensures k < l < |installs|
    ensures installs[k] == Without(installs, id)[i] && installs[l] == Without(installs, id)[j]
  {
    var rest := Without(installs[1..], id);
    if installs[0].id == id {
      k, l := WithoutKeepsOrder(installs[1..], id, i, j);
      k, l := k + 1, l + 1;
    } else if i > 0 {
      k, l := WithoutKeepsOrder(installs[1..], id, i - 1, j - 1);
      k, l := k + 1, l + 1;
    } else {
      WithoutKeeps(installs[1..], id);
      assert rest[j - 1] in rest;
      var m :| 0 <= m < |installs[1..]| && installs[1..][m] == rest[j - 1];
      k, l := 0, m + 1;
    }
  }

  lemma {:induction false} WithoutIsKept(installs: seq<Install>, id: InstallId)
    ensures IsKept(installs, Without(installs, id), id)
  {
    var kept := Without(installs, id);
    WithoutKeeps(installs, id);
    assert forall i | 0 <= i < |kept| :: kept[i] in kept;
    hide Without;
    forall i, j | 0 <= i < j < |kept|
      ensures exists k, l | 0 <= k < l < |installs| :: installs[k] == kept[i] && installs[l] == kept[j]
    {
      var k, l := WithoutKeepsOrder(installs, id, i, j);
    }
  }

  /**
   One that waits or is under way is not queued again; another replaces its earlier entry
   and comes last in list and queue, and nothing else changes.
   */
  lemma {:induction false} EnqueueIs(s: State, install: Install, entry: Entry)
    ensures var after := Enqueued(s, install, entry);
      if exists i | 0 <= i < |s.installs| ::
          s.installs[i].id == install.id && s.installs[i].status in {Queued, Installing}
      then after == s
      else
        && after.queue == s.queue + [entry] && after.cancels == s.cancels
        && after.installs != [] && after.installs[|after.installs| - 1] == install
        && IsKept(s.installs, after.installs[..|after.installs| - 1], install.id)
  {
    WithoutIsKept(s.installs, install.id);
    hide Without, IsKept;
  }

  lemma {:induction false} EnqueueKeepsAgreement(s: State, install: Install, entry: Entry)
    requires Agreement(s) && install.status.Queued? && entry.id == install.id
    ensures Agreement(Enqueued(s, install, entry))
    ensures StatusOf(Enqueued(s, install, entry).installs, install.id) ==
              if IsActive(s.installs, install.id) then StatusOf(s.installs, install.id) else Some(Queued)
    ensures OthersKeepStatus(s, Enqueued(s, install, entry), install.id)
  {
    var id := install.id;
    ActiveIffListed(s, id);
    if !IsActive(s.installs, id) {
      var after := Enqueued(s, install, entry);
      WithoutRemoves(s.installs, id);
      assert AgreesOn(s, id);
      forall other
        ensures AgreesOn(after, other)
      {
        assert AgreesOn(s, other);
        StatusOfAppended(Without(s.installs, id), install, other);
        InQueueAppended(s.queue, entry, other);
      }
      forall other
        ensures StatusOf(after.installs, other) == if other == id then Some(Queued) else StatusOf(s.installs, other)
      {
        StatusOfAppended(Without(s.installs, id), install, other);
      }
    }
  }

  lemma {:induction false} InQueueAppended(queue: seq<Entry>, entry: Entry, id: InstallId)
    ensures InQueue(queue + [entry], id) <==> InQueue(queue, id) || entry.id == id
  {
    if InQueue(queue, id) {
      var i :| 0 <= i < |queue| && queue[i].id == id;
      assert (queue + [entry])[i].id == id;
    }
    if entry.id == id {
      assert (queue + [entry])[|queue|].id == id;
    }
  }

  lemma {:induction false} InQueueRemoved(queue: seq<Entry>, p: nat, id: InstallId)
    requires p < |queue| && forall i, j | 0 <= i < j < |queue| :: queue[i].id != queue[j].id
    ensures InQueue(queue[..p] + queue[p + 1..], id) <==> InQueue(queue, id) && id != queue[p].id
  {
    var after := queue[..p] + queue[p + 1..];
    if InQueue(after, id) {
      var i :| 0 <= i < |after| && after[i].id == id;
      assert queue[if i < p then i else i + 1].id == id;
    }
    if InQueue(queue, id) && id != queue[p].id {
      var i :| 0 <= i < |queue| && queue[i].id == id;
      assert after[if i < p then i else i - 1].id == id;
    }
  }

  lemma {:induction false} CancelKeepsAgreement(s: State, id: InstallId)
    requires Agreement(s)
    ensures Agreement(Cancelling(s, id))
    ensures StatusOf(Cancelling(s, id).installs, id) ==
              if StatusOf(s.installs, id) == Some(Queued) then Some(Cancelled) else StatusOf(s.installs, id)
    ensures StatusOf(s.installs, id) == Some(Installing) ==> Cancelling(s, id) == s.(cancels := s.cancels[id := true])
    ensures StatusOf(s.installs, id) == Some(Queued) ==>
              ChangesOne(s, Cancelling(s, id), id, Cancelled, None) && Cancelling(s, id).cancels == s.cancels
              && exists p | 0 <= p < |s.queue| ::
                s.queue[p].id == id && Cancelling(s, id).queue == s.queue[..p] + s.queue[p + 1..]
    ensures StatusOf(s.installs, id) !in {Some(Queued), Some(Installing)} ==> Cancelling(s, id) == s
    ensures OthersKeepStatus(s, Cancelling(s, id), id)
  {
    assert AgreesOn(s, id);
    WithStatusChangesOne(s, id, Cancelled, None);
    var p := Position(s.queue, id);
    PositionFinds(s.queue, id);
    var after := Cancelling(s, id);
    if p < |s.queue| {
      WithStatusSets(s.installs, id, Cancelled, None);
      forall other
        ensures AgreesOn(after, other)
      {
        assert AgreesOn(s, other);
        InQueueRemoved(s.queue, p, other);
      }
    } else {
      forall other
        ensures AgreesOn(after, other)
      {
        assert AgreesOn(s, other);
      }
    }
  }

  lemma {:induction false} PopKeepsAgreement(s: State)
    requires Agreement(s) && s.queue != []
    ensures Agreement(Popped(s))
    ensures StatusOf(Popped(s).installs, s.queue[0].id) == Some(Installing)
    ensures OthersKeepStatus(s, Popped(s), s.queue[0].id)
    ensures ChangesOne(s, Popped(s), s.queue[0].id, Installing, None) && Popped(s).queue == s.queue[1..]
    ensures s.queue[0].id !in s.cancels && Popped(s).cancels == s.cancels[s.queue[0].id := false]
  {
    var id := s.queue[0].id;
    WithStatusChangesOne(s, id, Installing, None);
    WithStatusSets(s.installs, id, Installing, None);
    assert InQueue(s.queue, id);
    assert AgreesOn(s, id);
    forall other
      ensures AgreesOn(Popped(s), other)
    {
      assert AgreesOn(s, other);
      InQueueRemoved(s.queue, 0, other);
      assert s.queue[..0] + s.queue[1..] == s.queue[1..];
    }
  }

  lemma {:induction false} FinishKeepsAgreement(s: State, id: InstallId, status: Status, detail: Option<string>)
    requires Agreement(s) && id in s.cancels && status.IsFinal()
    ensures Agreement(Finished(s, id, status, detail))
    ensures StatusOf(Finished(s, id, status, detail).installs, id) == Some(status)
    ensures OthersKeepStatus(s, Finished(s, id, status, detail), id)
    ensures ChangesOne(s, Finished(s, id, status, detail), id, status, detail)
    ensures Finished(s, id, status, detail).queue == s.queue
          && Finished(s, id, status, detail).cancels == s.cancels - {id}
  {
    assert AgreesOn(s, id);
    WithStatusChangesOne(s, id, status, detail);
    WithStatusSets(s.installs, id, status, detail);
    forall other
      ensures AgreesOn(Finished(s, id, status, detail), other)
    {
      assert AgreesOn(s, other);
    }
  }

  // The controller's fields, changed in place under its lock.

  class Controller {
    var installs: seq<Install>
    var queue: seq<Entry>
    var cancels: map<InstallId, bool>

    ghost function Contents(): State
      reads this
    {
      State(installs, queue, cancels)
    }

    constructor ()
      ensures Contents() == EMPTY
    {
      installs, queue, cancels := [], [], map[];
    }

    /** Queues an installation unless it is already waiting or under way; an earlier entry of it is replaced. */
    method Enqueue(install: Install, identity: Option<string>, keep: bool) returns (queued: bool)
      modifies this
      ensures queued <==> !IsActive(old(installs), install.id)
      ensures Contents() == Enqueued(old(Contents()), install, Entry(install.id, identity, keep))
    {
      var i := 0;
      while i < |installs|
        invariant i <= |installs|
        invariant forall j | 0 <= j < i :: !(installs[j].id == install.id && !installs[j].status.IsFinal())
      {
        if installs[i].id == install.id && (installs[i].status.Queued? || installs[i].status.Installing?) {
          return false;
        }
        i := i + 1;
      }
      var kept := [];
      for n := 0 to |installs|
        invariant kept + Without(installs[n..], install.id) == Without(installs, install.id)
      {
        assert installs[n..][1..] == installs[n + 1..];
        if installs[n].id != install.id {
          kept := kept + [installs[n]];
        }
      }
      installs := kept + [install];
      queue := queue + [Entry(install.id, identity, keep)];
      queued := true;
    }

    method SetStatus(id: InstallId, status: Status, detail: Option<string>)
      modifies this`installs
      ensures installs == WithStatus(old(installs), id, status, detail)
      ensures |installs| == |old(installs)| && forall i | 0 <= i < |installs| ::
        installs[i] == if old(installs)[i].id == id && forall j | 0 <= j < i :: old(installs)[j].id != id
          then old(installs)[i].(status := status, detail := detail)
          else old(installs)[i]
    {
      var n := 0;
      while n < |installs| && installs[n].id != id
        invariant n <= |installs| && forall i | 0 <= i < n :: installs[i].id != id
      {
        n := n + 1;
      }
      WithStatusAt(installs, n, id, status, detail);
      if n < |installs| {
        installs := installs[n := installs[n].(status := status, detail := detail)];
      }
    }

    method Cancel(id: InstallId) returns (removedFromQueue: bool)
      modifies this
      ensures Contents() == Cancelling(old(Contents()), id)
      ensures removedFromQueue <==> Position(old(queue), id) < |old(queue)|
    {
      hide WithStatus, Position;
      var p := 0;
      while p < |queue| && queue[p].id != id
        invariant p <= |queue| && forall i | 0 <= i < p :: queue[i].id != id
      {
        p := p + 1;
      }
      PositionFinds(queue, id);
      assert Position(queue, id) == p;
      removedFromQueue := p < |queue|;
      if p < |queue| {
        queue := queue[..p] + queue[p + 1..];
        SetStatus(id, Cancelled, None);
      } else if id in cancels {
        cancels := cancels[id := true];
      }
    }

    /** Takes the next installation off the queue, with a fresh cancel flag. */
    method Next() returns (next: Option<Entry>)
      modifies this
      ensures next == if old(queue) == [] then None else Some(old(queue)[0])
      ensures Contents() == if old(queue) == [] then old(Contents()) else Popped(old(Contents()))
      ensures old(queue) != [] ==> cancels == old(cancels)[old(queue)[0].id := false] && queue == old(queue)[1..]
    {
      if queue == [] {
        return None;
      }
      var entry := queue[0];
      queue := queue[1..];
      cancels := cancels[entry.id := false];
      SetStatus(entry.id, Installing, None);
      next := Some(entry);
    }

    method Finish(id: InstallId, status: Status, detail: Option<string>)
      modifies this
      ensures Contents() == Finished(old(Contents()), id, status, detail)
    {
      cancels := cancels - {id};
      SetStatus(id, status, detail);
    }
  }
}
