/**
 Scanning the sources of one "+ Add": sources picked from one folder share one
 scan of it, and archives picked there share out what it found. File names are
 held as lower-casing leaves them.
 */
module GroupedScan {
  import opened Wrappers

  datatype Plan = Archive(parent: string, fileName: string) | Folder(path: string) | Rescan(path: string) {
    function ScannedFolder(): string {
      if Archive? then parent else path
    }
  }

  datatype Finding = Finding(key: string, isArchive: bool, files: seq<string>)

  datatype Status = Queued | Scanning | Done | Failed(error: string)

  datatype Phase = Scanning | Review | Cancelled

  type Scan = Result<seq<Finding>, string>

  /** Whether a picked archive asked for a finding: it is an archive that holds the picked file. */
  predicate Picks(plan: Plan, f: Finding) {
    plan.Archive? && f.isArchive && plan.fileName in f.files
  }

  /** Whether a picked archive asked for one of the first `n` findings, by key. */
  ghost predicate AskedFor(plan: Plan, list: seq<Finding>, n: nat, key: string)
    requires n <= |list|
  {
    exists m | 0 <= m < n :: Picks(plan, list[m]) && list[m].key == key
  }

  /** The keys that archives picked before source `i` from its folder have claimed. */
  ghost predicate ClaimedBefore(plans: seq<Plan>, i: nat, list: seq<Finding>, key: string)
    requires i < |plans|
  {
    exists j | 0 <= j < i ::
      plans[j].ScannedFolder() == plans[i].ScannedFolder() && AskedFor(plans[j], list, |list|, key)
  }

  /** The findings among the first `n` that a source gets. */
  ghost function Chosen(plans: seq<Plan>, i: nat, list: seq<Finding>, n: nat): seq<Finding>
    requires i < |plans| && n <= |list|
  {
    if !plans[i].Archive? then list[..n]
    else if n == 0 then []
    else
      var f := list[n - 1];
      Chosen(plans, i, list, n - 1) +
        if Picks(plans[i], f) && !ClaimedBefore(plans, i, list, f.key) && !AskedFor(plans[i], list, n - 1, f.key)
        then [f] else []
  }

  /** How a source ends once its folder was scanned. */
  function Outcome(scan: Scan): Status {
    match scan case Ok(_) => Done case Err(error) => Failed(error)
  }

  ghost function FoundBy(plans: seq<Plan>, i: nat, scan: Scan): seq<Finding>
    requires i < |plans|
  {
    match scan case Ok(list) => Chosen(plans, i, list, |list|) case Err(_) => []
  }

  /** The findings recorded for one source, in order. */
  function Of(found: seq<(nat, Finding)>, source: nat): seq<Finding> {
    if found == [] then []
    else
      var last := found[|found| - 1];
      Of(found[..|found| - 1], source) + (if last.0 == source then [last.1] else [])
  }

  lemma {:induction false} OfAppends(a: seq<(nat, Finding)>, b: seq<(nat, Finding)>, source: nat)
    ensures Of(a + b, source) == Of(a, source) + Of(b, source)
  {
    if b == [] {
      assert a + b == a;
    } else {
      OfAppends(a, b[..|b| - 1], source);
      assert (a + b)[..|a + b| - 1] == a + b[..|b| - 1];
    }
  }

  function Tagged(source: nat, chosen: seq<Finding>): seq<(nat, Finding)> {
    seq(|chosen|, i requires 0 <= i < |chosen| => (source, chosen[i]))
  }

  lemma {:induction false} OfTagged(source: nat, chosen: seq<Finding>, other: nat)
    ensures Of(Tagged(source, chosen), other) == if other == source then chosen else []
  {
    if chosen != [] {
      OfTagged(source, chosen[..|chosen| - 1], other);
      assert Tagged(source, chosen)[..|chosen| - 1] == Tagged(source, chosen[..|chosen| - 1]);
      assert chosen == chosen[..|chosen| - 1] + [chosen[|chosen| - 1]];
    }
  }

  /** A batch that is scanned goes to review once every source is done or has failed, and any other stays. */
  predicate SettlesTo(before: Phase, after: Phase, sources: seq<Status>) {
    if before == Phase.Scanning && forall i | 0 <= i < |sources| :: sources[i].Done? || sources[i].Failed?
    then after == Review else after == before
  }

  /** What a batch shows of its sources and findings. */
  class Batch {
    var sources: seq<Status>
    var found: seq<(nat, Finding)>
    var phase: Phase

    constructor (count: nat)
      ensures sources == seq(count, i => Queued) && found == [] && phase == Phase.Scanning
    {
      sources := seq(count, i => Queued);
      found := [];
      phase := Phase.Scanning;
    }

    method SourceScanning(source: nat)
      requires source < |sources|
      modifies this`sources
      ensures sources == old(sources)[source := Status.Scanning]
    {
      sources := sources[source := Status.Scanning];
    }

    method SourceDone(source: nat, chosen: seq<Finding>)
      requires source < |sources|
      modifies this
      ensures sources == old(sources)[source := Done] && found == old(found) + Tagged(source, chosen)
      ensures |found| == |old(found)| + |chosen|
              && forall k | 0 <= k < |chosen| :: found[|old(found)| + k] == (source, chosen[k])
      ensures phase == Settled(old(phase), sources) && SettlesTo(old(phase), phase, sources)
    {
      sources := sources[source := Done];
      found := found + Tagged(source, chosen);
      SettleScanning();
    }

    method SourceFailed(source: nat, error: string)
      requires source < |sources|
      modifies this`sources, this`phase
      ensures sources == old(sources)[source := Failed(error)]
      ensures phase == Settled(old(phase), sources) && SettlesTo(old(phase), phase, sources)
    {
      sources := sources[source := Failed(error)];
      SettleScanning();
    }

    method SettleScanning()
      modifies this`phase
      ensures phase == Settled(old(phase), sources) && SettlesTo(old(phase), phase, sources)
    {
      if phase == Phase.Scanning && forall i | 0 <= i < |sources| :: sources[i].Done? || sources[i].Failed? {
        phase := Review;
      }
    }

    /** Stops scanning: what has no outcome yet has failed as cancelled. */
    method Cancel()
      requires phase != Phase.Cancelled
      modifies this`sources, this`phase
      ensures sources == AfterCancel(old(sources)) && phase == Phase.Cancelled
      ensures |sources| == |old(sources)| && forall i | 0 <= i < |sources| ::
        sources[i] == if old(sources)[i].Queued?
          || old(sources)[i].Scanning? then Failed("cancelled") else old(sources)[i]
    {
      ghost var before := sources;
      for n := 0 to |sources|
        invariant |sources| == |before|
        invariant forall i | 0 <= i < |before| :: sources[i] == if i < n then AfterCancel(before)[i] else before[i]
      {
        if sources[n].Queued? || sources[n].Scanning? {
          sources := sources[n := Failed("cancelled")];
        }
      }
      phase := Phase.Cancelled;
    }
  }

  predicate IsSettled(status: Status) {
    status.Done? || status.Failed?
  }

  function Settled(phase: Phase, sources: seq<Status>): Phase {
    if phase == Phase.Scanning && forall i | 0 <= i < |sources| :: IsSettled(sources[i]) then Review else phase
  }

  function AfterCancel(sources: seq<Status>): seq<Status> {
    seq(|sources|, i requires 0 <= i < |sources| => if IsSettled(sources[i]) then sources[i] else Failed("cancelled"))
  }

  lemma {:induction false} AskedForGrows(plan: Plan, list: seq<Finding>, n: nat, key: string)
    requires n < |list|
    ensures AskedFor(plan, list, n + 1, key) <==>
          AskedFor(plan, list, n, key) || (Picks(plan, list[n]) && list[n].key == key)
  {
  }

  lemma {:induction false} NothingAsked(plan: Plan, list: seq<Finding>, key: string)
    ensures !AskedFor(plan, list, 0, key) && (!plan.Archive? ==> !AskedFor(plan, list, |list|, key))
  {
  }

  /** Takes what one source gets from a scan, claiming the keys a picked archive gets. */
  method Choose(plans: seq<Plan>, i: nat, list: seq<Finding>, claimed: set<string>)
    returns (chosen: seq<Finding>, claimedAfter: set<string>)
    requires i < |plans|
    requires forall key :: key in claimed <==> ClaimedBefore(plans, i, list, key)
    ensures chosen == Chosen(plans, i, list, |list|)
    ensures forall key :: key in claimedAfter <==> key in claimed || AskedFor(plans[i], list, |list|, key)
  {
    hide AskedFor, ClaimedBefore, Picks;
    forall key
      ensures !AskedFor(plans[i], list, 0, key) && (!plans[i].Archive? ==> !AskedFor(plans[i], list, |list|, key))
    {
      NothingAsked(plans[i], list, key);
    }
    chosen, claimedAfter := [], claimed;
    if !plans[i].Archive? {
      chosen := list;
      assert list[..|list|] == list;
      return;
    }
    for n := 0 to |list|
      invariant chosen == Chosen(plans, i, list, n)
      invariant forall key :: key in claimedAfter <==> key in claimed || AskedFor(plans[i], list, n, key)
    {
      var f := list[n];
      forall key
        ensures AskedFor(plans[i], list, n + 1, key) <==>
                  AskedFor(plans[i], list, n, key) || (Picks(plans[i], list[n]) && list[n].key == key)
      {
        AskedForGrows(plans[i], list, n, key);
      }
      if Picks(plans[i], f) && f.key !in claimedAfter {
        chosen := chosen + [f];
        claimedAfter := claimedAfter + {f.key};
      }
    }
  }

  /** The sources of one folder, in order. */
  ghost predicate IsGroup(plans: seq<Plan>, group: seq<nat>, folder: string) {
    && (forall k, l | 0 <= k < l < |group| :: group[k] < group[l])
    && (forall k | 0 <= k < |group| :: group[k] < |plans| && plans[group[k]].ScannedFolder() == folder)
    && (forall i | 0 <= i < |plans| && plans[i].ScannedFolder() == folder :: i in group)
  }

  method GroupOf(plans: seq<Plan>, done: seq<bool>, index: nat) returns (group: seq<nat>)
    requires |done| == |plans| && index < |plans| && !done[index]
    requires forall i | 0 <= i < index :: done[i]
    requires forall i, j | 0 <= i < |plans| && 0 <= j < |plans|
          && plans[i].ScannedFolder() == plans[j].ScannedFolder() ::
               done[i] == done[j]
    ensures IsGroup(plans, group, plans[index].ScannedFolder()) && group != []
  {
    var folder := plans[index].ScannedFolder();
    group := [];
    for other := index to |plans|
      invariant forall k, l | 0 <= k < l < |group| :: group[k] < group[l]
      invariant forall k | 0 <= k < |group| :: group[k] < other && plans[group[k]].ScannedFolder() == folder
      invariant forall i | index <= i < other && plans[i].ScannedFolder() == folder :: i in group
    {
      if !done[other] && plans[other].ScannedFolder() == folder {
        group := group + [other];
      }
    }
  }

  ghost predicate ClaimedIn(plans: seq<Plan>, group: seq<nat>, n: nat, list: seq<Finding>, key: string)
    requires n <= |group| && forall k | 0 <= k < |group| :: group[k] < |plans|
  {
    exists k | 0 <= k < n :: AskedFor(plans[group[k]], list, |list|, key)
  }

  /** Within a group, what was claimed before a member is what the members before it claimed. */
  lemma {:induction false} ClaimedBeforeIsClaimedIn(plans: seq<Plan>, group: seq<nat>, folder: string, n: nat,
      list: seq<Finding>, key: string)
    requires IsGroup(plans, group, folder) && n < |group|
    ensures ClaimedBefore(plans, group[n], list, key) <==> ClaimedIn(plans, group, n, list, key)
  {
    hide AskedFor;
    if ClaimedBefore(plans, group[n], list, key) {
      var j :| 0 <= j < group[n]
        && plans[j].ScannedFolder() == plans[group[n]].ScannedFolder() && AskedFor(plans[j], list, |list|, key);
      assert j in group;
      var k :| 0 <= k < |group| && group[k] == j;
      assert k < n;
    }
  }

  lemma {:induction false} ClaimedInGrows(plans: seq<Plan>, group: seq<nat>, n: nat, list: seq<Finding>, key: string)
    requires n < |group| && forall k | 0 <= k < |group| :: group[k] < |plans|
    ensures ClaimedIn(plans, group, n + 1, list, key) <==>
              ClaimedIn(plans, group, n, list, key) || AskedFor(plans[group[n]], list, |list|, key)
  {
    hide AskedFor;
  }

  /** Gives one source its outcome and its findings. */
  method RecordSource(plans: seq<Plan>, group: seq<nat>, ghost folder: string, n: nat, scan: Scan,
      claimed: set<string>, batch: Batch)
    returns (claimedAfter: set<string>)
    requires IsGroup(plans, group, folder) && n < |group| && |batch.sources| == |plans|
    requires scan.Ok? ==> forall key :: key in claimed <==> ClaimedIn(plans, group, n, scan.value, key)
    modifies batch
    ensures batch.sources == old(batch.sources)[group[n] := Outcome(scan)]
    ensures batch.phase == Settled(old(batch.phase), batch.sources)
    ensures forall i :: Of(batch.found, i) == Of(old(batch.found), i) + if i == group[n] then FoundBy(plans, i, scan)
          else []
    ensures scan.Ok? ==> forall key :: key in claimedAfter <==> ClaimedIn(plans, group, n + 1, scan.value, key)
  {
    claimedAfter := claimed;
    match scan {
      case Ok(list) =>
        forall key
          ensures ClaimedBefore(plans, group[n], list, key) <==> ClaimedIn(plans, group, n, list, key)
          ensures ClaimedIn(plans, group, n + 1, list, key) <==>
                    ClaimedIn(plans, group, n, list, key) || AskedFor(plans[group[n]], list, |list|, key)
        {
          ClaimedBeforeIsClaimedIn(plans, group, folder, n, list, key);
          ClaimedInGrows(plans, group, n, list, key);
        }
        var chosen;
        chosen, claimedAfter := Choose(plans, group[n], list, claimed);
        forall i
          ensures Of(batch.found + Tagged(group[n], chosen), i) == Of(batch.found, i) + if i == group[n] then chosen
                else []
        {
          OfAppends(batch.found, Tagged(group[n], chosen), i);
          OfTagged(group[n], chosen, i);
        }
        batch.SourceDone(group[n], chosen);
      case Err(error) =>
        batch.SourceFailed(group[n], error);
    }
  }

  /** The status of a source before its folder's outcome is recorded, which a cancellation may have changed. */
  function Left(status: Status, cancelled: bool): Status {
    if cancelled && !IsSettled(status) then Failed("cancelled") else status
  }

  /** The first `n` members of a group have their outcome and findings, and the other sources what was left them. */
  ghost predicate RecordedUpTo(plans: seq<Plan>, group: seq<nat>, n: nat, scan: Scan, cancelled: bool,
                               before: Shown, now: Shown)
    requires n <= |group|
  {
    |now.sources| == |before.sources| == |plans|
    && forall i | 0 <= i < |plans| ::
         && now.sources[i] == (if i in group[..n] then Outcome(scan) else Left(before.sources[i], cancelled))
         && Of(now.found, i) == Of(before.found, i) + if i in group[..n] then FoundBy(plans, i, scan) else []
  }

  /** The sources and findings of a batch. */
  datatype Shown = Shown(sources: seq<Status>, found: seq<(nat, Finding)>)

  lemma {:induction false} NothingRecordedYet(plans: seq<Plan>, group: seq<nat>, scan: Scan, before: Shown)
    requires |before.sources| == |plans|
    ensures RecordedUpTo(plans, group, 0, scan, false, before, before)
  {
  }

  lemma {:induction false} CancelKeepsRecorded(plans: seq<Plan>, group: seq<nat>, n: nat, scan: Scan, before: Shown,
        now: Shown)
    requires n <= |group| && RecordedUpTo(plans, group, n, scan, false, before, now)
    ensures RecordedUpTo(plans, group, n, scan, true, before, Shown(AfterCancel(now.sources), now.found))
  {
    hide Of, FoundBy;
  }

  lemma {:induction false} OneMoreRecorded(plans: seq<Plan>, group: seq<nat>, folder: string, n: nat, scan: Scan,
      cancelled: bool, before: Shown, now: Shown, after: Shown)
    requires IsGroup(plans, group, folder) && n < |group| && RecordedUpTo(plans, group, n, scan, cancelled, before, now)
    requires after.sources == now.sources[group[n] := Outcome(scan)]
    requires forall i :: Of(after.found, i) == Of(now.found, i) + if i == group[n] then FoundBy(plans, i, scan) else []
    ensures RecordedUpTo(plans, group, n + 1, scan, cancelled, before, after)
  {
    hide Of, FoundBy, Outcome, Left;
    assert group[..n + 1] == group[..n] + [group[n]];
    assert group[n] !in group[..n];
  }

  /** While a member of the group is open, the batch has not settled. */
  lemma {:induction false} NotSettledYet(plans: seq<Plan>, group: seq<nat>, folder: string, n: nat, scan: Scan,
      before: Shown, now: Shown)
    requires IsGroup(plans, group, folder) && n < |group| && RecordedUpTo(plans, group, n, scan, false, before, now)
    requires !IsSettled(before.sources[group[n]])
    ensures Settled(Phase.Scanning, now.sources) == Phase.Scanning
  {
    hide Of, FoundBy, Outcome, IsSettled;
    assert group[n] !in group[..n];
    assert now.sources[group[n]] == before.sources[group[n]];
  }

  /**
   Gives every source of a group its outcome and its findings. A cancellation may come
   before any of them is recorded, and the recording goes on.
   */
  method RecordGroup(plans: seq<Plan>, group: seq<nat>, ghost folder: string, scan: Scan, cancelAt: Option<nat>,
        batch: Batch)
    requires IsGroup(plans, group, folder) && group != [] && |batch.sources| == |plans| && batch.phase == Phase.Scanning
    requires forall k | 0 <= k < |group| :: !IsSettled(batch.sources[group[k]])
    requires cancelAt.Some? ==> cancelAt.value < |group|
    modifies batch
    ensures |batch.sources| == |plans|
    ensures batch.phase == if cancelAt.Some? then Phase.Cancelled else Settled(Phase.Scanning, batch.sources)
    ensures forall i | 0 <= i < |plans| ::
              && batch.sources[i] == (if plans[i].ScannedFolder() == folder then Outcome(scan)
                                      else Left(old(batch.sources)[i], cancelAt.Some?))
              && Of(batch.found, i) == Of(old(batch.found), i)
                                       + if plans[i].ScannedFolder() == folder then FoundBy(plans, i, scan) else []
  {
    ghost var before := Shown(batch.sources, batch.found);
    var claimed: set<string> := {};
    assert scan.Ok? ==> forall key :: !ClaimedIn(plans, group, 0, scan.value, key);
    NothingRecordedYet(plans, group, scan, before);
    GroupIsWhole(plans, group, folder);
    hide ClaimedIn, Of, FoundBy, Outcome, AfterCancel, IsSettled, Settled, Left, RecordedUpTo;
    for n := 0 to |group|
      invariant |batch.sources| == |plans|
      invariant batch.phase == if cancelAt.Some? && cancelAt.value < n then Phase.Cancelled
                               else if n < |group| then Phase.Scanning else Settled(Phase.Scanning, batch.sources)
      invariant RecordedUpTo(plans, group, n, scan, cancelAt.Some? && cancelAt.value < n, before,
                             Shown(batch.sources, batch.found))
      invariant scan.Ok? ==> forall key :: key in claimed <==> ClaimedIn(plans, group, n, scan.value, key)
    {
      if cancelAt == Some(n) {
        CancelKeepsRecorded(plans, group, n, scan, before, Shown(batch.sources, batch.found));
        batch.Cancel();
      }
      ghost var now := Shown(batch.sources, batch.found);
      claimed := RecordSource(plans, group, folder, n, scan, claimed, batch);
      OneMoreRecorded(plans, group, folder, n, scan, cancelAt.Some? && cancelAt.value <= n, before, now,
                      Shown(batch.sources, batch.found));
      SettledWhile(plans, group, folder, n + 1, scan, cancelAt.Some? && cancelAt.value <= n, before,
                   Shown(batch.sources, batch.found));
    }
    AllAreRecorded(plans, group, folder, scan, cancelAt.Some?, before, Shown(batch.sources, batch.found));
  }

  lemma {:induction false} GroupIsWhole(plans: seq<Plan>, group: seq<nat>, folder: string)
    requires IsGroup(plans, group, folder)
    ensures group[..|group|] == group
    ensures forall i | 0 <= i < |plans| :: i in group <==> plans[i].ScannedFolder() == folder
  {
  }

  lemma {:induction false} SettledWhile(plans: seq<Plan>, group: seq<nat>, folder: string, n: nat, scan: Scan,
      cancelled: bool, before: Shown, now: Shown)
    requires IsGroup(plans, group, folder) && n <= |group|
          && RecordedUpTo(plans, group, n, scan, cancelled, before, now)
    requires |before.sources| == |plans| && forall k | 0 <= k < |group| :: !IsSettled(before.sources[group[k]])
    ensures Settled(Phase.Cancelled, now.sources) == Phase.Cancelled
    ensures !cancelled && n < |group| ==> Settled(Phase.Scanning, now.sources) == Phase.Scanning
  {
    if !cancelled && n < |group| {
      NotSettledYet(plans, group, folder, n, scan, before, now);
    }
  }

  lemma {:induction false} AllAreRecorded(plans: seq<Plan>, group: seq<nat>, folder: string, scan: Scan,
      cancelled: bool, before: Shown, now: Shown)
    requires IsGroup(plans, group, folder) && RecordedUpTo(plans, group, |group|, scan, cancelled, before, now)
    ensures |now.sources| == |before.sources| == |plans|
    ensures forall i | 0 <= i < |plans| ::
              && now.sources[i] == (if plans[i].ScannedFolder() == folder then Outcome(scan)
                                    else Left(before.sources[i], cancelled))
              && Of(now.found, i) == Of(before.found, i)
                                     + if plans[i].ScannedFolder() == folder then FoundBy(plans, i, scan) else []
  {
    GroupIsWhole(plans, group, folder);
    hide Of, FoundBy, Outcome, Left;
  }

  // Scanning every folder once.

  /** The scanner, with a log of the folders it was asked for. */
  class Scanner {
    const finds: string -> Scan
    var log: seq<string>

    constructor (finds: string -> Scan)
      ensures this.finds == finds && log == []
    {
      this.finds := finds;
      log := [];
    }

    method ScanFolder(folder: string) returns (scan: Scan)
      modifies this`log
      ensures log == old(log) + [folder] && scan == finds(folder)
    {
      log := log + [folder];
      scan := finds(folder);
    }
  }

  /** When a cancellation arrives: between which steps of the scanning thread, or not at all. */
  datatype Moment = Never | BeforeLooking | BeforeMarking | BeforeLookingAgain | BeforeRecording(member: nat)

  /**
   Where a batch stands once the outcomes of these folders are recorded. The sources of
   `stuck` are still marked as being scanned, all others have `rest`.
   */
  ghost predicate Recorded(plans: seq<Plan>, finds: string -> Scan, recorded: set<string>, rest: Status,
                           stuck: Option<string>, sources: seq<Status>, found: seq<(nat, Finding)>)
  {
    |sources| == |plans|
    && forall i | 0 <= i < |plans| ::
         var folder := plans[i].ScannedFolder();
         && sources[i] == (if folder in recorded then Outcome(finds(folder))
                           else if stuck == Some(folder) then Status.Scanning else rest)
         && Of(found, i) == (if folder in recorded then FoundBy(plans, i, finds(folder)) else [])
  }

  /** What the other sources have while a batch is scanned, or after its cancellation. */
  function Rest(moment: Moment): Status {
    if moment.Never? then Queued else Failed("cancelled")
  }

  predicate AllIn(plans: seq<Plan>, recorded: set<string>) {
    forall i | 0 <= i < |plans| :: plans[i].ScannedFolder() in recorded
  }

  /** The phase while a batch is scanned: it settles with its last source, so one without sources never does. */
  function PhaseAfter(plans: seq<Plan>, recorded: set<string>, moment: Moment): Phase {
    if !moment.Never? then Phase.Cancelled
    else if plans != [] && AllIn(plans, recorded) then Review else Phase.Scanning
  }

  /** Marks the sources of a group as being scanned. */
  method MarkScanning(plans: seq<Plan>, group: seq<nat>, ghost folder: string, batch: Batch)
    requires IsGroup(plans, group, folder) && |batch.sources| == |plans|
    modifies batch`sources
    ensures IsMarked(plans, folder, old(batch.sources), batch.sources)
  {
    for n := 0 to |group|
      invariant |batch.sources| == |plans|
      invariant forall i | 0 <= i < |plans| ::
                  batch.sources[i] == if i in group[..n] then Status.Scanning else old(batch.sources)[i]
    {
      assert group[..n + 1] == group[..n] + [group[n]];
      batch.SourceScanning(group[n]);
    }
    assert group[..|group|] == group;
  }

  predicate IsMarked(plans: seq<Plan>, folder: string, before: seq<Status>, marked: seq<Status>) {
    |before| == |marked| == |plans|
    && forall i | 0 <= i < |plans| ::
      marked[i] == if plans[i].ScannedFolder() == folder then Status.Scanning else before[i]
  }

  predicate IsDoneAfter(plans: seq<Plan>, folder: string, done: seq<bool>, after: seq<bool>) {
    |done| == |after| == |plans|
    && forall i | 0 <= i < |plans| :: after[i] <==> done[i] || plans[i].ScannedFolder() == folder
  }

  method MarkDone(plans: seq<Plan>, group: seq<nat>, ghost folder: string, done: seq<bool>) returns (after: seq<bool>)
    requires IsGroup(plans, group, folder) && |done| == |plans|
    ensures IsDoneAfter(plans, folder, done, after)
  {
    after := done;
    for n := 0 to |group|
      invariant |after| == |plans|
      invariant forall i | 0 <= i < |plans| :: after[i] <==> done[i] || i in group[..n]
    {
      assert group[..n + 1] == group[..n] + [group[n]];
      after := after[group[n] := true];
    }
    assert group[..|group|] == group;
  }

  /** A cancellation fails what is open. */
  lemma {:induction false} CancelledNow(plans: seq<Plan>, finds: string -> Scan, recorded: set<string>,
      sources: seq<Status>, found: seq<(nat, Finding)>)
    requires Recorded(plans, finds, recorded, Queued, None, sources, found)
    ensures Recorded(plans, finds, recorded, Failed("cancelled"), None, AfterCancel(sources), found)
  {
    hide Of, FoundBy;
  }

  /** A group marked after that stays marked. */
  lemma {:induction false} MarkedTooLate(plans: seq<Plan>, finds: string -> Scan, recorded: set<string>, folder: string,
      sources: seq<Status>, found: seq<(nat, Finding)>, marked: seq<Status>)
    requires Recorded(plans, finds, recorded, Failed("cancelled"), None, sources, found) && folder !in recorded
    requires IsMarked(plans, folder, sources, marked)
    ensures Recorded(plans, finds, recorded, Failed("cancelled"), Some(folder), marked, found)
  {
    hide Of, FoundBy, Outcome;
  }

  /** One marked before is failed with the others. */
  lemma {:induction false} MarkedThenCancelled(plans: seq<Plan>, finds: string -> Scan, recorded: set<string>,
      folder: string, sources: seq<Status>, found: seq<(nat, Finding)>, marked: seq<Status>)
    requires Recorded(plans, finds, recorded, Queued, None, sources, found) && folder !in recorded
    requires IsMarked(plans, folder, sources, marked)
    ensures Recorded(plans, finds, recorded, Failed("cancelled"), None, AfterCancel(marked), found)
  {
    hide Of, FoundBy;
  }

  /** What recording a group makes of the marked sources. */
  predicate IsRecorded(plans: seq<Plan>, folder: string, scan: Scan, marked: seq<Status>, after: seq<Status>,
        cancelled: bool) {
    |marked| == |after| == |plans|
    && forall i | 0 <= i < |plans| ::
         after[i] == if plans[i].ScannedFolder() == folder then Outcome(scan) else Left(marked[i], cancelled)
  }

  ghost predicate IsFound(plans: seq<Plan>, folder: string, scan: Scan, before: seq<(nat, Finding)>,
        after: seq<(nat, Finding)>) {
    forall i | 0 <= i < |plans| ::
      Of(after, i) == Of(before, i) + if plans[i].ScannedFolder() == folder then FoundBy(plans, i, scan) else []
  }

  lemma {:induction false} MarkedThenRecorded(plans: seq<Plan>, finds: string -> Scan, recorded: set<string>,
      folder: string, sources: seq<Status>, found: seq<(nat, Finding)>, marked: seq<Status>, after: seq<Status>,
      foundAfter: seq<(nat, Finding)>, moment: Moment)
    requires Recorded(plans, finds, recorded, Queued, None, sources, found) && folder !in recorded
    requires IsMarked(plans, folder, sources, marked) && (moment.Never? || moment.BeforeRecording?)
    requires IsRecorded(plans, folder, finds(folder), marked, after, !moment.Never?)
    requires IsFound(plans, folder, finds(folder), found, foundAfter)
    ensures Recorded(plans, finds, recorded + {folder}, Rest(moment), None, after, foundAfter)
  {
    hide Of, FoundBy;
    forall i | 0 <= i < |plans|
      ensures var there := plans[i].ScannedFolder();
        && after[i] == (if there in recorded + {folder} then Outcome(finds(there)) else Rest(moment))
        && Of(foundAfter, i) == (if there in recorded + {folder} then FoundBy(plans, i, finds(there)) else [])
    {
      assert IsSettled(Outcome(finds(plans[i].ScannedFolder())));
    }
  }

  lemma {:induction false} GroupIsMarked(plans: seq<Plan>, group: seq<nat>, folder: string, sources: seq<Status>,
      marked: seq<Status>)
    requires IsGroup(plans, group, folder) && IsMarked(plans, folder, sources, marked)
    ensures forall k | 0 <= k < |group| :: group[k] < |plans| && !IsSettled(marked[group[k]])
  {
  }

  lemma {:induction false} SettledIsPhaseAfter(plans: seq<Plan>, finds: string -> Scan, recorded: set<string>,
      group: seq<nat>, folder: string, sources: seq<Status>, found: seq<(nat, Finding)>)
    requires Recorded(plans, finds, recorded, Queued, None, sources, found) && IsGroup(plans, group, folder)
          && group != []
    ensures Settled(Phase.Scanning, sources) == PhaseAfter(plans, recorded, Never)
  {
    assert group[0] < |plans|;
    forall i | 0 <= i < |plans|
      ensures IsSettled(sources[i]) <==> plans[i].ScannedFolder() in recorded
    {
    }
  }

  lemma {:induction false} RecordedForEach(plans: seq<Plan>, finds: string -> Scan, recorded: set<string>, rest: Status,
      sources: seq<Status>, found: seq<(nat, Finding)>)
    requires Recorded(plans, finds, recorded, rest, None, sources, found)
    ensures |sources| == |plans|
  {
  }

  /**
   Marks the sources of one folder, scans it for all of them and records what comes of
   it, unless cancelled meanwhile. A cancellation that is seen on the second look ends
   the scan; one that comes later does not keep this folder from being recorded.
   */
  method ScanGroup(plans: seq<Plan>, scanner: Scanner, group: seq<nat>, folder: string, ghost recorded: set<string>,
                   moment: Moment, batch: Batch)
    returns (ghost now: set<string>, ghost stuck: Option<string>)
    requires IsGroup(plans, group, folder) && group != [] && folder !in recorded && !moment.BeforeLooking?
    requires Recorded(plans, scanner.finds, recorded, Queued, None, batch.sources, batch.found)
          && batch.phase == Phase.Scanning
    modifies batch, scanner`log
    ensures scanner.log == old(scanner.log) + [folder]
    ensures Recorded(plans, scanner.finds, now, Rest(moment), stuck, batch.sources, batch.found)
    ensures batch.phase == PhaseAfter(plans, now, moment)
    ensures now == if moment.Never? || moment.BeforeRecording? then recorded + {folder} else recorded
    ensures stuck == if moment.BeforeMarking? then Some(folder) else None
  {
    ghost var sources, found := batch.sources, batch.found;
    RecordedForEach(plans, scanner.finds, recorded, Queued, sources, found);
    hide Recorded, IsGroup, IsMarked, AfterCancel, Settled, AllIn, Of, FoundBy, Outcome, Left;
    now, stuck := recorded, None;
    if moment.BeforeMarking? {
      CancelledNow(plans, scanner.finds, recorded, sources, found);
      batch.Cancel();
      sources := batch.sources;
      RecordedForEach(plans, scanner.finds, recorded, Rest(moment), sources, found);
    }
    MarkScanning(plans, group, folder, batch);
    ghost var marked := batch.sources;
    var scan := scanner.ScanFolder(folder);
    if moment.BeforeMarking? {
      MarkedTooLate(plans, scanner.finds, recorded, folder, sources, found, marked);
      stuck := Some(folder);
      return;
    }
    if moment.BeforeLookingAgain? {
      MarkedThenCancelled(plans, scanner.finds, recorded, folder, sources, found, marked);
      batch.Cancel();
      return;
    }
    RecordAll(plans, group, folder, scan, moment, batch, sources);
    now := recorded + {folder};
    MarkedThenRecorded(plans, scanner.finds, recorded, folder, sources, found, marked, batch.sources, batch.found,
      moment);
    if moment.Never? {
      SettledIsPhaseAfter(plans, scanner.finds, now, group, folder, batch.sources, batch.found);
    }
  }

  /** Records the outcome of a marked group. */
  method RecordAll(plans: seq<Plan>, group: seq<nat>, ghost folder: string, scan: Scan, moment: Moment, batch: Batch,
                   ghost sources: seq<Status>)
    requires IsGroup(plans, group, folder) && group != [] && IsMarked(plans, folder, sources, batch.sources)
    requires batch.phase == Phase.Scanning && (moment.Never? || moment.BeforeRecording?)
    modifies batch
    ensures IsRecorded(plans, folder, scan, old(batch.sources), batch.sources, !moment.Never?)
    ensures IsFound(plans, folder, scan, old(batch.found), batch.found)
    ensures batch.phase == if moment.Never? then Settled(Phase.Scanning, batch.sources) else Phase.Cancelled
  {
    GroupIsMarked(plans, group, folder, sources, batch.sources);
    hide IsGroup, Settled, Of, FoundBy, Outcome, Left, IsSettled;
    var cancelAt := if moment.Never? then None
                    else Some(if moment.member < |group| then moment.member else |group| - 1);
    RecordGroup(plans, group, folder, scan, cancelAt, batch);
  }

  // The whole loop.

  predicate AllQueued(plans: seq<Plan>, sources: seq<Status>) {
    |sources| == |plans| && forall i | 0 <= i < |sources| :: sources[i] == Queued
  }

  method NoneDone(plans: seq<Plan>) returns (done: seq<bool>)
    ensures |done| == |plans| && DoneAre(plans, done, {})
  {
    done := seq(|plans|, i => false);
  }

  ghost predicate OneScanEach(scanned: seq<string>) {
    forall i, j | 0 <= i < j < |scanned| :: scanned[i] != scanned[j]
  }

  /** The folders scanned: each once, and each the folder of a source. */
  ghost predicate ScannedOnce(plans: seq<Plan>, scanned: seq<string>) {
    && OneScanEach(scanned)
    && (forall folder | folder in scanned :: exists i | 0 <= i < |plans| :: plans[i].ScannedFolder() == folder)
  }

  /** The folders recorded are those scanned, but for the last if its scan was cancelled. */
  ghost predicate RecordsScanned(scanned: seq<string>, recorded: set<string>, moment: Moment) {
    if moment.BeforeMarking? || moment.BeforeLookingAgain?
    then scanned != [] && scanned[|scanned| - 1] !in recorded && RecordsAll(scanned[..|scanned| - 1], recorded)
    else RecordsAll(scanned, recorded)
  }

  ghost predicate RecordsAll(scanned: seq<string>, recorded: set<string>) {
    recorded == set folder | folder in scanned
  }

  lemma {:induction false} NothingRecorded(plans: seq<Plan>, finds: string -> Scan, sources: seq<Status>,
      found: seq<(nat, Finding)>)
    requires AllQueued(plans, sources) && found == []
    ensures Recorded(plans, finds, {}, Queued, None, sources, found) && PhaseAfter(plans, {}, Never) == Phase.Scanning
    ensures ScannedOnce(plans, []) && RecordsScanned([], {}, Never)
  {
    assert plans != [] ==> plans[0].ScannedFolder() !in {};
  }

  lemma {:induction false} ScanOneMore(plans: seq<Plan>, scanned: seq<string>, recorded: set<string>, index: nat,
        moment: Moment)
    requires ScannedOnce(plans, scanned) && RecordsScanned(scanned, recorded, Never) && !moment.BeforeLooking?
    requires index < |plans| && plans[index].ScannedFolder() !in recorded
    ensures var folder := plans[index].ScannedFolder();
      ScannedOnce(plans, scanned + [folder])
      && RecordsScanned(scanned + [folder],
                        if moment.Never? || moment.BeforeRecording? then recorded + {folder} else recorded, moment)
  {
    var folder := plans[index].ScannedFolder();
    assert forall i | 0 <= i < |scanned| :: scanned[i] in scanned;
    assert forall other | other in scanned + [folder] :: other in scanned || other == folder;
    assert (scanned + [folder])[..|scanned|] == scanned;
  }

  /** The sources done with are those whose folder is recorded. */
  ghost predicate DoneAre(plans: seq<Plan>, done: seq<bool>, recorded: set<string>) {
    |done| == |plans| && forall i | 0 <= i < |plans| :: done[i] <==> plans[i].ScannedFolder() in recorded
  }

  lemma {:induction false} OneIsNotDone(plans: seq<Plan>, done: seq<bool>, recorded: set<string>, index: nat)
    requires DoneAre(plans, done, recorded) && index < |plans| && !done[index]
    ensures plans[index].ScannedFolder() !in recorded && PhaseAfter(plans, recorded, Never) == Phase.Scanning
  {
  }

  lemma {:induction false} FolderIsDone(plans: seq<Plan>, done: seq<bool>, recorded: set<string>, index: nat,
        after: seq<bool>)
    requires DoneAre(plans, done, recorded) && index < |plans| && (forall i | 0 <= i < index :: done[i])
    requires IsDoneAfter(plans, plans[index].ScannedFolder(), done, after)
    ensures DoneAre(plans, after, recorded + {plans[index].ScannedFolder()})
    ensures |after| == |plans| && forall i | 0 <= i <= index :: after[i]
  {
  }

  lemma {:induction false} DoneHasLength(plans: seq<Plan>, done: seq<bool>, recorded: set<string>)
    requires DoneAre(plans, done, recorded)
    ensures |done| == |plans|
    ensures forall i, j | 0 <= i < |plans| && 0 <= j < |plans|
          && plans[i].ScannedFolder() == plans[j].ScannedFolder() ::
              done[i] == done[j]
  {
  }

  lemma {:induction false} AllAreDone(plans: seq<Plan>, done: seq<bool>, recorded: set<string>)
    requires DoneAre(plans, done, recorded) && forall i | 0 <= i < |plans| :: done[i]
    ensures AllIn(plans, recorded)
          && PhaseAfter(plans, recorded, Never) == if plans == [] then Phase.Scanning else Review
  {
  }

  lemma {:induction false} AllRecorded(plans: seq<Plan>, finds: string -> Scan, recorded: set<string>, rest: Status,
      sources: seq<Status>, found: seq<(nat, Finding)>)
    requires Recorded(plans, finds, recorded, rest, None, sources, found) && AllIn(plans, recorded)
    ensures Recorded(plans, finds, recorded, Failed("cancelled"), None, sources, found)
  {
  }

  /** The folder a source is scanned with: an archive's parent, or the folder itself. */
  function FolderOf(plan: Plan): string {
    match plan
    case Archive(parent, _) => parent
    case Folder(path) => path
    case Rescan(path) => path
  }

  /** A source ends as its folder's scan did: failed with its error, or done with its share of what was found. */
  ghost predicate EndsWith(plans: seq<Plan>, i: nat, scan: Scan, status: Status, given: seq<Finding>)
    requires i < |plans|
  {
    match scan
    case Err(error) => status == Failed(error) && given == []
    case Ok(list) =>
      status == Done
      && if plans[i].Archive? then exists places ::
        ArePlaces(plans, i, list, |list|, places) && AreAt(given, list, places)
         else given == list
  }

  lemma {:induction false} OutcomeEnds(plans: seq<Plan>, i: nat, scan: Scan)
    requires i < |plans|
    ensures EndsWith(plans, i, scan, Outcome(scan), FoundBy(plans, i, scan))
  {
    match scan {
      case Err(_) =>
      case Ok(list) =>
        var places := ChosenAreShares(plans, i, list, |list|);
        assert list[..|list|] == list;
        hide ArePlaces, AreAt, Chosen;
    }
  }

  lemma {:induction false} RecordedEnds(plans: seq<Plan>, finds: string -> Scan, recorded: set<string>,
      stuck: Option<string>, sources: seq<Status>, found: seq<(nat, Finding)>)
    requires Recorded(plans, finds, recorded, Failed("cancelled"), stuck, sources, found)
    ensures |sources| == |plans| && forall i | 0 <= i < |plans| && FolderOf(plans[i]) in recorded ::
              EndsWith(plans, i, finds(FolderOf(plans[i])), sources[i], Of(found, i))
    ensures forall i | 0 <= i < |plans| && FolderOf(plans[i]) !in recorded ::
              Of(found, i) == [] && sources[i] ==
                if stuck == Some(FolderOf(plans[i])) then Status.Scanning else Failed("cancelled")
  {
    hide Outcome, FoundBy, EndsWith, Of;
    forall i | 0 <= i < |plans| && FolderOf(plans[i]) in recorded
      ensures EndsWith(plans, i, finds(FolderOf(plans[i])), sources[i], Of(found, i))
    {
      OutcomeEnds(plans, i, finds(FolderOf(plans[i])));
    }
  }

  /**
   Scans the folders of all sources, each once, unless cancelled. `moment` is when a
   cancellation came, `recorded` are the folders whose outcome was recorded, and
   `stuck` is a folder whose sources were marked after the cancellation had failed
   them, and stay so.
   */
  method ScanSources(plans: seq<Plan>, scanner: Scanner, cancellable: bool, batch: Batch)
    returns (moment: Moment, ghost recorded: set<string>, ghost stuck: Option<string>)
    requires AllQueued(plans, batch.sources) && batch.found == [] && batch.phase == Phase.Scanning && scanner.log == []
    modifies batch, scanner`log
    ensures ScannedOnce(plans, scanner.log) && RecordsScanned(scanner.log, recorded, moment)
    ensures !cancellable ==> moment.Never?
    ensures moment.Never? ==> AllIn(plans, recorded)
    ensures Recorded(plans, scanner.finds, recorded, Failed("cancelled"), stuck, batch.sources, batch.found)
    ensures |batch.sources| == |plans| && forall i | 0 <= i < |plans| && FolderOf(plans[i]) in recorded ::
              EndsWith(plans, i, scanner.finds(FolderOf(plans[i])), batch.sources[i], Of(batch.found, i))
    ensures forall i | 0 <= i < |plans| && FolderOf(plans[i]) !in recorded ::
              Of(batch.found, i) == [] && batch.sources[i] ==
                if stuck == Some(FolderOf(plans[i])) then Status.Scanning else Failed("cancelled")
    ensures stuck.Some? <==> moment.BeforeMarking?
    ensures stuck.Some? ==> scanner.log != [] && stuck.value == scanner.log[|scanner.log| - 1]
    ensures batch.phase == if !moment.Never? then Phase.Cancelled else if plans == [] then Phase.Scanning else Review
  {
    hide *;
    var done := NoneDone(plans);
    moment, recorded, stuck := Never, {}, None;
    NothingRecorded(plans, scanner.finds, batch.sources, batch.found);
    CancelledRest(plans, recorded, moment);
    for index := 0 to |plans|
      invariant |done| == |plans| && (forall i | 0 <= i < index :: done[i]) && DoneAre(plans, done, recorded)
      invariant moment.Never? || moment.BeforeRecording?
      invariant !cancellable ==> moment.Never?
      invariant ScannedOnce(plans, scanner.log) && RecordsScanned(scanner.log, recorded, moment)
      invariant Recorded(plans, scanner.finds, recorded, Rest(moment), None, batch.sources, batch.found)
      invariant batch.phase == PhaseAfter(plans, recorded, moment) && stuck == None
    {
      if done[index] {
        continue;
      }
      CancelledRest(plans, recorded, moment);
      if !moment.Never? {
        RecordedEnds(plans, scanner.finds, recorded, stuck, batch.sources, batch.found);
        return;
      }
      moment := ArrivalOf(cancellable);
      CancelledRest(plans, recorded, moment);
      OneIsNotDone(plans, done, recorded, index);
      if moment.BeforeLooking? {
        CancelNow(plans, scanner.finds, recorded, batch);
        StillRecordsScanned(scanner.log, recorded);
        RecordedEnds(plans, scanner.finds, recorded, stuck, batch.sources, batch.found);
        return;
      }
      done, recorded, stuck := VisitFolder(plans, scanner, moment, done, index, recorded, batch);
      if !moment.Never? && !moment.BeforeRecording? {
        CancelledRest(plans, recorded, moment);
        RecordedEnds(plans, scanner.finds, recorded, stuck, batch.sources, batch.found);
        return;
      }
    }
    AllAreDone(plans, done, recorded);
    CancelledRest(plans, recorded, moment);
    AllRecorded(plans, scanner.finds, recorded, Rest(moment), batch.sources, batch.found);
    RecordedEnds(plans, scanner.finds, recorded, stuck, batch.sources, batch.found);
  }

  /** A cancellation comes at any moment, if at all. */
  method ArrivalOf(cancellable: bool) returns (moment: Moment)
    ensures !cancellable ==> moment.Never?
  {
    moment := *;
    if !cancellable {
      moment := Never;
    }
  }

  lemma {:induction false} CancelledRest(plans: seq<Plan>, recorded: set<string>, moment: Moment)
    ensures !moment.Never? ==> Rest(moment) == Failed("cancelled")
    ensures !moment.Never? ==> PhaseAfter(plans, recorded, moment) == Phase.Cancelled
    ensures Rest(Never) == Queued
  {
  }

  lemma {:induction false} StillRecordsScanned(scanned: seq<string>, recorded: set<string>)
    requires RecordsScanned(scanned, recorded, Never)
    ensures RecordsScanned(scanned, recorded, BeforeLooking)
  {
  }

  /** Scans the folder of one source for all that share it. */
  method VisitFolder(plans: seq<Plan>, scanner: Scanner, moment: Moment, done: seq<bool>, index: nat,
                     ghost recorded: set<string>, batch: Batch)
    returns (after: seq<bool>, ghost now: set<string>, ghost stuck: Option<string>)
    requires DoneAre(plans, done, recorded) && index < |plans| && !done[index] && (forall i | 0 <= i < index :: done[i])
    requires !moment.BeforeLooking? && batch.phase == Phase.Scanning
    requires ScannedOnce(plans, scanner.log) && RecordsScanned(scanner.log, recorded, Never)
    requires Recorded(plans, scanner.finds, recorded, Queued, None, batch.sources, batch.found)
    modifies batch, scanner`log
    ensures ScannedOnce(plans, scanner.log) && RecordsScanned(scanner.log, now, moment)
    ensures Recorded(plans, scanner.finds, now, Rest(moment), stuck, batch.sources, batch.found)
    ensures batch.phase == PhaseAfter(plans, now, moment)
    ensures stuck == if moment.BeforeMarking? then Some(plans[index].ScannedFolder()) else None
    ensures scanner.log == old(scanner.log) + [plans[index].ScannedFolder()]
    ensures moment.Never? || moment.BeforeRecording? ==>
              |after| == |plans| && (forall i | 0 <= i <= index :: after[i]) && DoneAre(plans, after, now)
  {
    OneIsNotDone(plans, done, recorded, index);
    ScanOneMore(plans, scanner.log, recorded, index, moment);
    DoneHasLength(plans, done, recorded);
    hide Recorded, ScannedOnce, RecordsScanned, PhaseAfter, IsGroup, DoneAre, IsDoneAfter, Plan.ScannedFolder;
    var group := GroupOf(plans, done, index);
    now, stuck := ScanGroup(plans, scanner, group, plans[index].ScannedFolder(), recorded, moment, batch);
    after := done;
    if moment.Never? || moment.BeforeRecording? {
      after := MarkDone(plans, group, plans[index].ScannedFolder(), done);
      FolderIsDone(plans, done, recorded, index, after);
    }
  }

  method CancelNow(plans: seq<Plan>, ghost finds: string -> Scan, ghost recorded: set<string>, batch: Batch)
    requires Recorded(plans, finds, recorded, Queued, None, batch.sources, batch.found) && batch.phase == Phase.Scanning
    modifies batch`sources, batch`phase
    ensures Recorded(plans, finds, recorded, Failed("cancelled"), None, batch.sources, batch.found)
    ensures batch.phase == Phase.Cancelled
  {
    CancelledNow(plans, finds, recorded, batch.sources, batch.found);
    batch.Cancel();
  }

  // What sources of one folder get between them.

  lemma {:induction false} LastChosen(plans: seq<Plan>, i: nat, list: seq<Finding>, n: nat, f: Finding)
    requires i < |plans| && 0 < n <= |list| && plans[i].Archive?
    requires f in Chosen(plans, i, list, n) && f !in Chosen(plans, i, list, n - 1)
    ensures f == list[n - 1] && Picks(plans[i], f) && !ClaimedBefore(plans, i, list, f.key)
  {
    hide Picks, ClaimedBefore, AskedFor;
  }

  lemma {:induction false} ChosenArePicked(plans: seq<Plan>, i: nat, list: seq<Finding>, n: nat, f: Finding)
    requires i < |plans| && n <= |list| && plans[i].Archive? && f in Chosen(plans, i, list, n)
    ensures f in list[..n] && Picks(plans[i], f) && !ClaimedBefore(plans, i, list, f.key)
  {
    NothingChosen(plans, i, list);
    assert n > 0;
    hide *;
    if f in Chosen(plans, i, list, n - 1) {
      ChosenArePicked(plans, i, list, n - 1, f);
      var k :| 0 <= k < n - 1 && list[..n - 1][k] == f;
      assert list[..n][k] == f;
    } else {
      LastChosen(plans, i, list, n, f);
      assert list[..n][n - 1] == f;
    }
  }

  lemma {:induction false} PickedAreChosen(plans: seq<Plan>, i: nat, list: seq<Finding>, n: nat, m: nat)
    requires i < |plans| && m < n <= |list| && plans[i].Archive? && Picks(plans[i], list[m])
    requires !ClaimedBefore(plans, i, list, list[m].key)
    ensures exists f | f in Chosen(plans, i, list, n) :: f.key == list[m].key
  {
    if m < n - 1 {
      PickedAreChosen(plans, i, list, n - 1, m);
      var f :| f in Chosen(plans, i, list, n - 1) && f.key == list[m].key;
      assert f in Chosen(plans, i, list, n);
    } else if k :| 0 <= k < m && Picks(plans[i], list[k]) && list[k].key == list[m].key {
      PickedAreChosen(plans, i, list, n - 1, k);
      var f :| f in Chosen(plans, i, list, n - 1) && f.key == list[m].key;
      assert f in Chosen(plans, i, list, n);
    }
  }

  /** An archive picked from a folder asked for a finding: it is an archive with a file of the picked name. */
  predicate HoldsPicked(plan: Plan, folder: string, f: Finding) {
    plan.Archive? && plan.parent == folder && f.isArchive && exists k | 0 <= k < |f.files| ::
      f.files[k] == plan.fileName
  }

  /**
   A finding that source `i` asked for, unless an archive picked before from its folder
   asked for one of its key, or `i` asked for an earlier one of its key.
   */
  ghost predicate IsShare(plans: seq<Plan>, i: nat, list: seq<Finding>, m: nat)
    requires i < |plans| && m < |list| && plans[i].Archive?
  {
    && HoldsPicked(plans[i], plans[i].parent, list[m])
    && (forall j, n | 0 <= j < i && 0 <= n < |list| && list[n].key == list[m].key ::
      !HoldsPicked(plans[j], plans[i].parent, list[n]))
    && (forall n | 0 <= n < m && list[n].key == list[m].key :: !HoldsPicked(plans[i], plans[i].parent, list[n]))
  }

  /** The places in a scan's list that make up a source's share, in order. */
  ghost predicate ArePlaces(plans: seq<Plan>, i: nat, list: seq<Finding>, n: nat, places: seq<nat>)
    requires i < |plans| && n <= |list| && plans[i].Archive?
  {
    && (forall k | 0 <= k < |places| :: places[k] < n)
    && (forall k, l | 0 <= k < l < |places| :: places[k] < places[l])
    && (forall m | 0 <= m < n :: m in places <==> IsShare(plans, i, list, m))
  }

  lemma {:induction false} PicksHolds(plan: Plan, f: Finding)
    ensures Picks(plan, f) <==> plan.Archive? && HoldsPicked(plan, plan.parent, f)
  {
  }

  lemma {:induction false} ShareIff(plans: seq<Plan>, i: nat, list: seq<Finding>, m: nat)
    requires i < |plans| && m < |list| && plans[i].Archive?
    ensures IsShare(plans, i, list, m) <==>
              Picks(plans[i], list[m]) && !ClaimedBefore(plans, i, list, list[m].key)
              && !AskedFor(plans[i], list, m, list[m].key)
  {
    forall j, n | 0 <= j < |plans| && 0 <= n < |list|
      ensures Picks(plans[j], list[n]) && plans[j].ScannedFolder() == plans[i].ScannedFolder()
         <==> HoldsPicked(plans[j], plans[i].parent, list[n])
    {
      PicksHolds(plans[j], list[n]);
    }
    hide Picks, HoldsPicked;
  }

  predicate AreAt(chosen: seq<Finding>, list: seq<Finding>, places: seq<nat>) {
    |chosen| == |places| && forall k | 0 <= k < |places| :: places[k] < |list| && chosen[k] == list[places[k]]
  }

  lemma {:induction false} OneMoreAt(chosen: seq<Finding>, list: seq<Finding>, places: seq<nat>, m: nat)
    requires AreAt(chosen, list, places) && m < |list|
    ensures AreAt(chosen + [list[m]], list, places + [m]) && AreAt(chosen + [], list, places)
  {
  }

  lemma {:induction false} OneMoreChosen(plans: seq<Plan>, i: nat, list: seq<Finding>, n: nat)
    requires i < |plans| && n < |list| && plans[i].Archive?
    ensures Chosen(plans, i, list, n + 1) ==
              Chosen(plans, i, list, n) + if IsShare(plans, i, list, n) then [list[n]] else []
  {
    ShareIff(plans, i, list, n);
    hide IsShare, Picks, ClaimedBefore, AskedFor;
  }

  lemma {:induction false} NothingChosen(plans: seq<Plan>, i: nat, list: seq<Finding>)
    requires i < |plans| && plans[i].Archive?
    ensures ArePlaces(plans, i, list, 0, []) && AreAt(Chosen(plans, i, list, 0), list, [])
  {
    hide IsShare;
  }

  lemma {:induction false} AllChosen(plans: seq<Plan>, i: nat, list: seq<Finding>, n: nat)
    requires i < |plans| && n <= |list| && !plans[i].Archive?
    ensures Chosen(plans, i, list, n) == list[..n]
  {
  }

  /** What an archive gets from a scan is its share, in the order of the list; a folder gets the whole list. */
  lemma {:induction false} ChosenAreShares(plans: seq<Plan>, i: nat, list: seq<Finding>, n: nat)
    returns (places: seq<nat>)
    requires i < |plans| && n <= |list|
    ensures plans[i].Archive? ==> ArePlaces(plans, i, list, n, places) && AreAt(Chosen(plans, i, list, n), list, places)
    ensures !plans[i].Archive? ==> Chosen(plans, i, list, n) == list[..n]
  {
    hide *;
    places := [];
    if !plans[i].Archive? {
      AllChosen(plans, i, list, n);
    } else if n == 0 {
      NothingChosen(plans, i, list);
    } else {
      var before := ChosenAreShares(plans, i, list, n - 1);
      places := if IsShare(plans, i, list, n - 1) then before + [n - 1] else before;
      PlacesGrow(plans, i, list, n, before, places);
      OneMoreAt(Chosen(plans, i, list, n - 1), list, before, n - 1);
      OneMoreChosen(plans, i, list, n - 1);
    }
  }

  lemma {:induction false} PlacesGrow(plans: seq<Plan>, i: nat, list: seq<Finding>, n: nat, before: seq<nat>,
      places: seq<nat>)
    requires i < |plans| && 0 < n <= |list| && plans[i].Archive? && ArePlaces(plans, i, list, n - 1, before)
    requires places == if IsShare(plans, i, list, n - 1) then before + [n - 1] else before
    ensures ArePlaces(plans, i, list, n, places)
  {
    hide IsShare;
    assert n - 1 !in before;
  }

  /** No finding goes to two archives picked from one folder. */
  lemma {:induction false} FindingsAreShared(plans: seq<Plan>, i: nat, j: nat, list: seq<Finding>, f: Finding,
      g: Finding)
    requires i < j < |plans| && plans[i].Archive? && plans[j].Archive?
          && plans[i].ScannedFolder() == plans[j].ScannedFolder()
    requires f in FoundBy(plans, i, Ok(list)) && g in FoundBy(plans, j, Ok(list))
    ensures f.key != g.key
  {
    ChosenArePicked(plans, i, list, |list|, f);
    ChosenArePicked(plans, j, list, |list|, g);
    assert list[..|list|] == list;
  }

  /** And every finding some archive picked goes to the first of them that did. */
  lemma {:induction false} FirstPickGetsIt(plans: seq<Plan>, i: nat, list: seq<Finding>, m: nat) returns (k: nat)
    requires i < |plans| && m < |list| && Picks(plans[i], list[m])
    ensures k <= i && plans[k].Archive? && plans[k].ScannedFolder() == plans[i].ScannedFolder()
    ensures exists f | f in FoundBy(plans, k, Ok(list)) :: f.key == list[m].key
    ensures forall j | 0 <= j < k && plans[j].ScannedFolder() == plans[i].ScannedFolder() ::
              forall g | g in list && Picks(plans[j], g) :: g.key != list[m].key
    decreases i
  {
    if ClaimedBefore(plans, i, list, list[m].key) {
      var j, f :| 0 <= j < i && f in list
        && plans[j].ScannedFolder() == plans[i].ScannedFolder() && Picks(plans[j], f) && f.key == list[m].key;
      var n :| 0 <= n < |list| && list[n] == f;
      k := FirstPickGetsIt(plans, j, list, n);
    } else {
      k := i;
      PickedAreChosen(plans, i, list, |list|, m);
    }
  }
}
