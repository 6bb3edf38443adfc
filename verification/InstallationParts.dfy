/**
 When a scanned root is one work, and which entries make up a part of one that is not,
 told by the names and paths of the entries and the codes of the results.
 */
module InstallationParts {
  import opened Wrappers
  import opened Text
  import opened InstallationScope

  // Names.

  lemma {:induction false} SplitAtLast(stem: string, extension: string, c: char)
    requires c !in extension
    ensures SplitLast(stem + [c] + extension, c) == Some((stem, extension))
  {
    var s := stem + [c] + extension;
    if stem == [] {
      assert s[1..] == extension;
      NothingToSplit(extension, c);
    } else {
      SplitAtLast(stem[1..], extension, c);
      assert s[1..] == stem[1..] + [c] + extension;
      assert [stem[0]] + stem[1..] == stem;
    }
  }

  lemma {:induction false} NothingToSplit(s: string, c: char)
    requires c !in s
    ensures SplitLast(s, c) == None
  {
    if s != [] {
      NothingToSplit(s[1..], c);
    }
  }

  lemma {:induction false} ContainsIff(s: string, part: string)
    ensures ContainsText(s, part) <==> exists before, after :: s == before + part + after
  {
    if part <= s {
      assert s == [] + part + s[|part|..];
    } else if s != [] {
      ContainsIff(s[1..], part);
      if before, after :| s[1..] == before + part + after {
        assert s == ([s[0]] + before) + part + after;
      }
      if before, after :| s == before + part + after {
        assert before == [] ==> s == part + after;
        assert s[1..] == before[1..] + part + after;
      }
    } else {
      forall before: string, after: string
        ensures s != before + part + after
      {
        assert |before + part + after| >= |part| > 0;
      }
    }
  }

  ghost predicate HasExtension(name: string, extension: string) {
    exists stem :: name == stem + "." + extension
  }

  /** A continuation volume of an older set, such as .r00. */
  ghost predicate IsContinuation(name: string) {
    exists stem, a, b :: '0' <= a <= '9' && '0' <= b <= '9' && name == stem + "." + ['r', a, b]
  }

  /** A name a set of archives may have: .zip, .rar, or .exe behind a .part. */
  ghost predicate IsVolumeName(name: string) {
    HasExtension(name, "zip") || HasExtension(name, "rar")
    || exists before, after :: name == before + ".part" + after + ".exe"
  }

  lemma {:induction false} ExtensionIff(name: string, extension: string)
    requires '.' !in extension
    ensures HasExtension(name, extension) <==>
              SplitLast(name, '.').Some? && SplitLast(name, '.').value.1 == extension
  {
    if stem :| name == stem + "." + extension {
      SplitAtLast(stem, extension, '.');
    }
  }

  lemma {:induction false} ContinuationIff(name: string)
    ensures IsContinuation(name) <==>
              match SplitLast(name, '.')
              case None => false
              case Some((_, e)) => |e| == 3 && e[0] == 'r' && IsDigit(e[1]) && IsDigit(e[2])
  {
    if stem, a, b :| '0' <= a <= '9' && '0' <= b <= '9' && name == stem + "." + ['r', a, b] {
      SplitAtLast(stem, ['r', a, b], '.');
    }
    match SplitLast(name, '.') {
      case None =>
      case Some((stem, e)) =>
        if |e| == 3 && e[0] == 'r' && IsDigit(e[1]) && IsDigit(e[2]) {
          assert e == ['r', e[1], e[2]];
          assert name == stem + "." + ['r', e[1], e[2]];
        }
    }
  }

  lemma {:induction false} VolumeNameIff(name: string)
    ensures IsVolumeName(name) <==>
              match SplitLast(name, '.')
              case None => false
              case Some((stem, e)) => e == "zip" || e == "rar" || (e == "exe" && ContainsText(stem, ".part"))
  {
    ExtensionIff(name, "zip");
    ExtensionIff(name, "rar");
    if before, after :| name == before + ".part" + after + ".exe" {
      assert name == (before + ".part" + after) + "." + "exe";
      SplitAtLast(before + ".part" + after, "exe", '.');
      ContainsIff(before + ".part" + after, ".part");
    }
    match SplitLast(name, '.') {
      case None =>
      case Some((stem, e)) =>
        if e == "exe" && ContainsText(stem, ".part") {
          ContainsIff(stem, ".part");
          var before, after :| stem == before + ".part" + after;
          assert name == before + ".part" + after + ".exe";
        }
    }
  }

  // A root that is one work.

  /** A file at the top of the root that is no volume of an archive set. */
  ghost predicate IsLooseFile(entry: Entry, entries: seq<Entry>, discover: Discovery) {
    && entry.isFile && '/' !in entry.pathKey && !IsContinuation(Lower(entry.pathKey))
    && (IsVolumeName(Lower(entry.pathKey)) ==> discover(entry.id, entries) == Ok(None))
  }

  lemma {:induction false} LooseIff(entry: Entry, entries: seq<Entry>, discover: Discovery)
    ensures IsLoose(entry, entries, discover) <==> IsLooseFile(entry, entries, discover)
  {
    var name := Lower(entry.pathKey);
    ContinuationIff(name);
    VolumeNameIff(name);
    if '/' !in entry.pathKey {
      NothingToSplit(entry.pathKey, '/');
      assert FileName(entry.pathKey) == name;
    }
    hide IsContinuation, IsVolumeName, SplitLast, Lower;
  }

  /** A result was matched to a work with a code. */
  predicate IsMatched(scope: ResultScope) {
    scope.matchedWork.Some? && Trim(scope.matchedWork.value) != []
  }

  predicate SameCode(a: ResultScope, b: ResultScope)
    requires a.matchedWork.Some? && b.matchedWork.Some?
  {
    SameIgnoringCase(Trim(a.matchedWork.value), Trim(b.matchedWork.value))
  }

  lemma {:induction false} UpperIffLower(a: string, b: string)
    ensures Upper(a) == Upper(b) <==> SameIgnoringCase(a, b)
    ensures Upper(a) == [] <==> a == []
  {
    SameIgnoringCaseIff(a, b);
    assert |Upper(a)| == |a| && |Upper(b)| == |b|;
    if |a| == |b| {
      assert forall i | 0 <= i < |a| :: Upper(a)[i] == UpperChar(a[i]) && Upper(b)[i] == UpperChar(b[i]);
      forall i | 0 <= i < |a|
        ensures UpperChar(a[i]) == UpperChar(b[i]) <==>
                  a[i] == b[i] || ('A' <= a[i] <= 'Z' && b[i] as int == a[i] as int + 32)
                  || ('A' <= b[i] <= 'Z' && a[i] as int == b[i] as int + 32)
      {
        UpperCharIs(a[i]);
        UpperCharIs(b[i]);
      }
      assert Upper(a) == Upper(b) <==> forall i | 0 <= i < |a| :: Upper(a)[i] == Upper(b)[i];
    }
  }

  lemma {:induction false} UpperCharIs(c: char)
    ensures UpperChar(c) as int == if 'a' <= c <= 'z' then c as int - 32 else c as int
  {
  }

  /** A matched result among these entries, or among all. */
  predicate IsMatchedIn(scope: ResultScope, ids: Option<set<EntryId>>) {
    IsMatched(scope) && (ids.Some? ==> scope.candidate in ids.value)
  }

  /** All results that were matched, among these entries or among all, were matched to one work. */
  predicate AgreeOnWork(scopes: seq<ResultScope>, ids: Option<set<EntryId>>) {
    forall i, j | 0 <= i < |scopes| && 0 <= j < |scopes| && IsMatchedIn(scopes[i], ids)
      && IsMatchedIn(scopes[j], ids) ::
      SameCode(scopes[i], scopes[j])
  }

  lemma {:induction false} CodesAreOf(scopes: seq<ResultScope>, ids: Option<set<EntryId>>)
    ensures |WorkCodes(scopes, ids)| <= 1 <==> AgreeOnWork(scopes, ids)
    ensures WorkCodes(scopes, ids) == {} <==> forall i | 0 <= i < |scopes| :: !IsMatchedIn(scopes[i], ids)
  {
    var codes := WorkCodes(scopes, ids);
    forall i | 0 <= i < |scopes|
      ensures Counts(scopes[i], ids) <==> IsMatchedIn(scopes[i], ids)
      ensures IsMatchedIn(scopes[i], ids) ==> CodeOf(scopes[i]) in codes
    {
      CountsIff(scopes[i], ids);
      if Counts(scopes[i], ids) {
        assert CodeOf(scopes[i]) in codes;
      }
    }
    hide Counts, CodeOf, IsMatched, SameCode;
    forall i, j | 0 <= i < |scopes| && 0 <= j < |scopes| && IsMatchedIn(scopes[i], ids) && IsMatchedIn(scopes[j], ids)
      ensures SameCode(scopes[i], scopes[j]) <==> CodeOf(scopes[i]) == CodeOf(scopes[j])
    {
      CountsIff(scopes[i], ids);
      CountsIff(scopes[j], ids);
      SameCodeIff(scopes[i], scopes[j]);
    }
    if |codes| <= 1 {
      forall i, j | 0 <= i < |scopes| && 0 <= j < |scopes| && IsMatchedIn(scopes[i], ids) && IsMatchedIn(scopes[j], ids)
        ensures SameCode(scopes[i], scopes[j])
      {
        OnlyOne(codes, CodeOf(scopes[i]));
      }
    }
    if AgreeOnWork(scopes, ids) && codes != {} {
      var code :| code in codes;
      forall other | other in codes
        ensures other == code
      {
      }
      SubsetIsSmaller(codes, {code});
    }
  }

  lemma {:induction false} CountsIff(scope: ResultScope, ids: Option<set<EntryId>>)
    ensures Counts(scope, ids) <==> IsMatchedIn(scope, ids)
    ensures IsMatchedIn(scope, ids) ==> scope.matchedWork.Some?
  {
    if scope.matchedWork.Some? {
      UpperIffLower(Trim(scope.matchedWork.value), "");
    }
    hide Upper, Trim;
  }

  lemma {:induction false} SameCodeIff(a: ResultScope, b: ResultScope)
    requires a.matchedWork.Some? && b.matchedWork.Some?
    ensures SameCode(a, b) <==> CodeOf(a) == CodeOf(b)
  {
    UpperIffLower(Trim(a.matchedWork.value), Trim(b.matchedWork.value));
  }

  /** An entry whose file was matched to a work lies loose in the root. */
  ghost predicate HasLooseMatch(entries: seq<Entry>, scopes: seq<ResultScope>, discover: Discovery) {
    exists n, i | 0 <= n < |scopes| && 0 <= i < |entries| ::
      scopes[n].matchedWork.Some? && entries[i].id == scopes[n].candidate && IsLooseFile(entries[i], entries, discover)
  }

  /**
   A root is one work if its results agree on one, at most, and there is a single result,
   or loose content at its top: a playable file, nothing but loose files, or the file of
   a matched result.
   */
  ghost predicate IsWholeWork(entries: seq<Entry>, scopes: seq<ResultScope>, discover: Discovery) {
    AgreeOnWork(scopes, None) && (
      || |scopes| <= 1
      || (exists i | 0 <= i < |entries| :: entries[i].playable && IsLooseFile(entries[i], entries, discover))
      || (entries != [] && forall i | 0 <= i < |entries| :: IsLooseFile(entries[i], entries, discover))
      || (HasLooseMatch(entries, scopes, discover) && exists n | 0 <= n < |scopes| :: IsMatched(scopes[n])))
  }

  lemma {:induction false} OneWorkIff(entries: seq<Entry>, scopes: seq<ResultScope>, discover: Discovery)
    ensures IsOneWork(entries, scopes, discover) <==> IsWholeWork(entries, scopes, discover)
  {
    CodesAreOf(scopes, None);
    forall i | 0 <= i < |entries|
      ensures IsLoose(entries[i], entries, discover) <==> IsLooseFile(entries[i], entries, discover)
    {
      LooseIff(entries[i], entries, discover);
    }
    hide IsLoose, IsLooseFile, WorkCodes, AgreeOnWork, IsMatched;
    assert entries != [] ==> IsLoose(entries[0], entries, discover) || !IsLooseFile(entries[0], entries, discover);
  }

  // A part of a root of several works.

  /** The entry with this identifier that comes first. */
  predicate IsFirstWith(entries: seq<Entry>, id: EntryId, k: int) {
    0 <= k < |entries| && entries[k].id == id && forall j | 0 <= j < k :: entries[j].id != id
  }

  lemma {:induction false} FoundIff(entries: seq<Entry>, id: EntryId)
    ensures FindEntry(entries, id).None? <==> forall k | 0 <= k < |entries| :: entries[k].id != id
    ensures FindEntry(entries, id).Some? ==> exists k :: IsFirstWith(entries, id, k)
    ensures forall k :: IsFirstWith(entries, id, k) ==> FindEntry(entries, id) == Some(entries[k])
  {
    if entries != [] {
      var rest := entries[1..];
      FoundIff(rest, id);
      assert forall k | 0 < k < |entries| :: entries[k] == rest[k - 1];
      if entries[0].id == id {
        assert IsFirstWith(entries, id, 0);
      } else {
        if FindEntry(rest, id).Some? {
          var k :| IsFirstWith(rest, id, k);
          assert IsFirstWith(entries, id, k + 1);
        }
        forall k | IsFirstWith(entries, id, k)
          ensures IsFirstWith(rest, id, k - 1)
        {
          assert forall j | 0 <= j < k - 1 :: rest[j] == entries[j + 1];
        }
      }
    }
  }

  predicate IsTopFolder(folder: string, pathKey: string) {
    folder + "/" <= pathKey && '/' !in folder
  }

  lemma {:induction false} FirstPartIs(pathKey: string)
    requires '/' in pathKey
    ensures IsTopFolder(FirstPart(pathKey), pathKey)
    ensures forall folder :: IsTopFolder(folder, pathKey) ==> folder == FirstPart(pathKey)
  {
    forall folder | IsTopFolder(folder, pathKey)
      ensures folder == FirstPart(pathKey)
    {
      FirstPartOf(folder, pathKey);
    }
    FirstPartCuts(pathKey);
  }

  lemma {:induction false} FirstPartOf(folder: string, pathKey: string)
    requires IsTopFolder(folder, pathKey)
    ensures folder == FirstPart(pathKey)
  {
    assert (folder + "/")[|folder|] == '/';
    if folder != [] {
      assert (folder + "/")[0] == folder[0];
      assert (folder + "/")[1..] == folder[1..] + "/";
      FirstPartOf(folder[1..], pathKey[1..]);
    }
  }

  lemma {:induction false} FirstPartCuts(pathKey: string)
    requires '/' in pathKey
    ensures IsTopFolder(FirstPart(pathKey), pathKey)
  {
    if pathKey[0] != '/' {
      assert '/' in pathKey[1..];
      FirstPartCuts(pathKey[1..]);
      assert FirstPart(pathKey) + "/" == [pathKey[0]] + (FirstPart(pathKey[1..]) + "/");
    }
  }

  /** An entry of this folder, or the folder itself. */
  predicate IsInFolder(e: Entry, folder: string) {
    e.pathKey == folder || folder + "/" <= e.pathKey
  }

  /** An archive set, a folder at the top of the root with all that is in it, or a single entry; each with its key. */
  ghost predicate IsPart(selected: Entry, entries: seq<Entry>, discover: Discovery, ids: set<EntryId>, key: string) {
    match discover(selected.id, entries)
    case Err(_) => false
    case Ok(Some(volumes)) =>
      && volumes != [] && (exists i | 0 <= i < |entries| :: entries[i].id == volumes[0])
      && (forall id :: id in ids <==> id in volumes) && key == "package:entry:" + volumes[0]
    case Ok(None) =>
      if '/' in selected.pathKey then exists folder :: IsFolderPart(selected, entries, folder, ids, key)
      else ids == {selected.id} && key == "entry:" + selected.id
  }

  ghost predicate IsFolderPart(selected: Entry, entries: seq<Entry>, folder: string, ids: set<EntryId>, key: string) {
    && IsTopFolder(folder, selected.pathKey) && key == "directory:" + folder
    && forall id :: id in ids <==>
      exists i :: 0 <= i < |entries| && entries[i].id == id && IsInFolder(entries[i], folder)
  }

  lemma {:induction false} PartIff(selected: Entry, entries: seq<Entry>, discover: Discovery, ids: set<EntryId>,
      key: string)
    ensures NaturalScope(selected, entries, discover) == Ok((ids, key)) <==>
              IsPart(selected, entries, discover, ids, key)
  {
    match discover(selected.id, entries) {
      case Err(_) =>
      case Ok(Some(volumes)) =>
        if volumes != [] {
          assert HasEntry(entries, volumes[0]) <==> exists i | 0 <= i < |entries| :: entries[i].id == volumes[0];
        }
        assert ids == (set id | id in volumes) <==> forall id :: id in ids <==> id in volumes;
      case Ok(None) =>
        if '/' in selected.pathKey {
          FirstPartIs(selected.pathKey);
          FolderPartIff(selected, entries, FirstPart(selected.pathKey), ids, key);
        }
    }
  }

  lemma {:induction false} FolderPartIff(selected: Entry, entries: seq<Entry>, folder: string, ids: set<EntryId>,
      key: string)
    requires IsTopFolder(folder, selected.pathKey)
    ensures IsFolderPart(selected, entries, folder, ids, key) <==>
              key == DirectoryKey(folder)
              && ids == set e | e in entries && (e.pathKey == folder || folder + "/" <= e.pathKey) :: e.id
  {
    var all := set e | e in entries && (e.pathKey == folder || folder + "/" <= e.pathKey) :: e.id;
    forall id
      ensures id in all <==> exists i :: 0 <= i < |entries| && entries[i].id == id && IsInFolder(entries[i], folder)
    {
      if id in all {
        var e :| e in entries && IsInFolder(e, folder) && e.id == id;
        var i :| 0 <= i < |entries| && entries[i] == e;
      }
    }
  }

  /** The entries with these identifiers, each once for each time it occurs, in order. */
  ghost predicate AreTaken(entries: seq<Entry>, ids: set<EntryId>, taken: seq<Entry>) {
    exists places :: AreTakenAt(entries, ids, taken, places)
  }

  ghost predicate AreTakenAt(entries: seq<Entry>, ids: set<EntryId>, taken: seq<Entry>, places: seq<nat>) {
    && |places| == |taken|
    && (forall j | 0 <= j < |places| :: places[j] < |entries| && taken[j] == entries[places[j]])
    && (forall j, k | 0 <= j < k < |places| :: places[j] < places[k])
    && (forall i | 0 <= i < |entries| :: entries[i].id in ids <==> i in places)
  }

  lemma {:induction false} OneMoreTaken(entries: seq<Entry>, last: Entry, ids: set<EntryId>, taken: seq<Entry>,
      places: seq<nat>)
    requires AreTakenAt(entries, ids, taken, places)
    ensures last.id in ids ==> AreTakenAt(entries + [last], ids, taken + [last], places + [|entries|])
    ensures last.id !in ids ==> AreTakenAt(entries + [last], ids, taken, places)
  {
    var more := places + [|entries|];
    assert forall j | 0 <= j < |places| :: places[j] in places && more[j] == places[j];
    assert more[|places|] == |entries|;
  }

  lemma {:induction false} WithinIsTaken(entries: seq<Entry>, ids: set<EntryId>)
    ensures AreTaken(entries, ids, Within(entries, ids))
  {
    if entries == [] {
      assert AreTakenAt(entries, ids, Within(entries, ids), []);
    } else {
      var n := |entries| - 1;
      WithinIsTaken(entries[..n], ids);
      var places :| AreTakenAt(entries[..n], ids, Within(entries[..n], ids), places);
      OneMoreTaken(entries[..n], entries[n], ids, Within(entries[..n], ids), places);
      assert entries[..n] + [entries[n]] == entries;
      assert Within(entries[..n], ids) + [] == Within(entries[..n], ids);
      hide AreTakenAt;
    }
  }

  lemma {:induction false} PlacesNeedEntries(places: seq<nat>, n: nat)
    requires forall j | 0 <= j < |places| :: places[j] < n
    ensures places != [] ==> n > 0
  {
    if places != [] {
      assert places[0] < n;
    }
  }

  lemma {:induction false} OneLessTaken(entries: seq<Entry>, ids: set<EntryId>, taken: seq<Entry>, places: seq<nat>)
    requires entries != [] && AreTakenAt(entries, ids, taken, places)
    ensures entries[|entries| - 1].id in ids ==>
          && taken != [] && taken[|taken| - 1] == entries[|entries| - 1]
          && AreTakenAt(entries[..|entries| - 1], ids, taken[..|taken| - 1], places[..|taken| - 1])
    ensures entries[|entries| - 1].id !in ids ==> AreTakenAt(entries[..|entries| - 1], ids, taken, places)
  {
    var n, last := |entries| - 1, |places| - 1;
    if entries[n].id in ids {
      assert places[last] == n by {
        var j :| 0 <= j < |places| && places[j] == n;
        assert places[last] < |entries|;
      }
      assert forall i | 0 <= i < n && i in places :: i in places[..last];
    } else {
      assert forall j | 0 <= j < |places| :: places[j] in places && places[j] != n;
    }
  }

  lemma {:induction false} TakenIsWithin(entries: seq<Entry>, ids: set<EntryId>, taken: seq<Entry>, places: seq<nat>)
    requires AreTakenAt(entries, ids, taken, places)
    ensures taken == Within(entries, ids)
  {
    if entries == [] {
      PlacesNeedEntries(places, |entries|);
    } else {
      var n, last := |entries| - 1, |taken| - 1;
      OneLessTaken(entries, ids, taken, places);
      if entries[n].id in ids {
        TakenIsWithin(entries[..n], ids, taken[..last], places[..last]);
        assert taken == taken[..last] + [entries[n]];
      } else {
        TakenIsWithin(entries[..n], ids, taken, places);
      }
    }
  }

  lemma {:induction false} TakenIff(entries: seq<Entry>, ids: set<EntryId>, taken: seq<Entry>)
    ensures taken == Within(entries, ids) <==> AreTaken(entries, ids, taken)
  {
    WithinIsTaken(entries, ids);
    if AreTaken(entries, ids, taken) {
      var places :| AreTakenAt(entries, ids, taken, places);
      TakenIsWithin(entries, ids, taken, places);
    }
  }

  /** A matched result among these entries has the code. */
  ghost predicate IsNamedIn(scopes: seq<ResultScope>, ids: set<EntryId>, code: string) {
    exists n | 0 <= n < |scopes| ::
      IsMatchedIn(scopes[n], Some(ids)) && SameIgnoringCase(Trim(scopes[n].matchedWork.value), Trim(code))
  }

  lemma {:induction false} NamedIff(scopes: seq<ResultScope>, ids: set<EntryId>, code: string)
    ensures Upper(Trim(code)) in WorkCodes(scopes, Some(ids)) <==> IsNamedIn(scopes, ids, code)
  {
    forall n | 0 <= n < |scopes|
      ensures Counts(scopes[n], Some(ids)) <==> IsMatchedIn(scopes[n], Some(ids))
      ensures scopes[n].matchedWork.Some? ==>
                (CodeOf(scopes[n]) == Upper(Trim(code)) <==>
                   SameIgnoringCase(Trim(scopes[n].matchedWork.value), Trim(code)))
    {
      CountsIff(scopes[n], Some(ids));
      if scopes[n].matchedWork.Some? {
        UpperIffLower(Trim(scopes[n].matchedWork.value), Trim(code));
      }
    }
    hide Counts, CodeOf, SameIgnoringCase, Trim, Upper, IsMatched;
  }

  /**
   What becomes of the entries of a selection: the whole root without a key if it is one
   work; else the part the selected entry lies in, under that part's key, if its matched
   results agree on one work that is the selected one.
   */
  ghost predicate IsScope(s: Selection, identity: Option<CatalogIdentity>, discover: Discovery, scope: Scope) {
    && s.result.candidate.Some?
    && exists k :: IsFirstWith(s.entries, s.result.candidate.value, k) && IsScopeAt(s, k, identity, discover, scope)
  }

  ghost predicate IsScopeAt(s: Selection, k: nat, identity: Option<CatalogIdentity>, discover: Discovery, scope: Scope)
    requires k < |s.entries|
  {
    if IsWholeWork(s.entries, s.scopes, discover) then scope == Scope(s.entries, None)
    else exists ids :: IsPartScope(s, s.entries[k], identity, discover, scope, ids)
  }

  ghost predicate IsPartScope(s: Selection, selected: Entry, identity: Option<CatalogIdentity>, discover: Discovery,
      scope: Scope, ids: set<EntryId>) {
    && scope.key.Some? && IsPart(selected, s.entries, discover, ids, scope.key.value)
    && AgreeOnWork(s.scopes, Some(ids)) && (identity.Some? ==> IsNamedIn(s.scopes, ids, identity.value.workCode))
    && AreTaken(s.entries, ids, scope.entries) && scope.entries != []
  }

  lemma {:induction false} PartScopeIff(s: Selection, selected: Entry, identity: Option<CatalogIdentity>,
      discover: Discovery, scope: Scope, ids: set<EntryId>)
    ensures IsPartScope(s, selected, identity, discover, scope, ids) <==>
              && scope.key.Some? && NaturalScope(selected, s.entries, discover) == Ok((ids, scope.key.value))
              && |WorkCodes(s.scopes, Some(ids))| <= 1
              && (identity.Some? ==> Upper(Trim(identity.value.workCode)) in WorkCodes(s.scopes, Some(ids)))
              && scope.entries == Within(s.entries, ids) != []
  {
    hide IsPart, AgreeOnWork, IsNamedIn, AreTaken, NaturalScope, WorkCodes, Within, Upper, Trim;
    if scope.key.Some? {
      PartIff(selected, s.entries, discover, ids, scope.key.value);
    }
    CodesAreOf(s.scopes, Some(ids));
    if identity.Some? {
      NamedIff(s.scopes, ids, identity.value.workCode);
    }
    TakenIff(s.entries, ids, scope.entries);
  }

  lemma {:induction false} ScopeAtIff(s: Selection, k: nat, identity: Option<CatalogIdentity>, discover: Discovery,
      scope: Scope)
    requires s.result.candidate.Some? && IsFirstWith(s.entries, s.result.candidate.value, k)
    ensures ScopeOf(s, identity, discover) == Ok(scope) <==> IsScopeAt(s, k, identity, discover, scope)
  {
    FoundIff(s.entries, s.result.candidate.value);
    OneWorkIff(s.entries, s.scopes, discover);
    hide IsOneWork, IsWholeWork, NaturalScope, WorkCodes, Within, Upper, Trim, FindEntry, IsPartScope, IsFirstWith;
    match NaturalScope(s.entries[k], s.entries, discover) {
      case Err(_) =>
        forall ids
          ensures !IsPartScope(s, s.entries[k], identity, discover, scope, ids)
        {
          PartScopeIff(s, s.entries[k], identity, discover, scope, ids);
        }
      case Ok((ids, key)) =>
        PartScopeIff(s, s.entries[k], identity, discover, scope, ids);
        forall other | IsPartScope(s, s.entries[k], identity, discover, scope, other)
          ensures other == ids
        {
          PartScopeIff(s, s.entries[k], identity, discover, scope, other);
        }
    }
  }

  lemma {:induction false} ScopeIff(s: Selection, identity: Option<CatalogIdentity>, discover: Discovery, scope: Scope)
    ensures ScopeOf(s, identity, discover) == Ok(scope) <==> IsScope(s, identity, discover, scope)
  {
    if s.result.candidate.Some? {
      FoundIff(s.entries, s.result.candidate.value);
      forall k | IsFirstWith(s.entries, s.result.candidate.value, k)
        ensures 0 <= k < |s.entries|
        ensures ScopeOf(s, identity, discover) == Ok(scope) <==> IsScopeAt(s, k, identity, discover, scope)
      {
        ScopeAtIff(s, k, identity, discover, scope);
      }
      hide IsScopeAt, ScopeOf;
      if ScopeOf(s, identity, discover) == Ok(scope) {
        ScopeNeedsEntry(s, identity, discover);
      }
    }
  }

  lemma {:induction false} ScopeNeedsEntry(s: Selection, identity: Option<CatalogIdentity>, discover: Discovery)
    requires ScopeOf(s, identity, discover).Ok?
    ensures s.result.candidate.Some? && FindEntry(s.entries, s.result.candidate.value).Some?
  {
  }

  // What is stored.

  /** A completed scan of this root, whose entries it saw last, with a result of its own for one of them. */
  predicate IsFreshSelection(s: Selection, sessionId: string, resultId: string) {
    && s.sessionId == sessionId && s.result.id == resultId && s.result.sessionId == sessionId
    && s.rootId == s.sessionRoot && s.completed && Trim(s.rootPath) != []
    && (forall i | 0 <= i < |s.entries| ::
          s.entries[i].rootId == s.rootId && s.entries[i].present && s.entries[i].lastSeen == Some(sessionId))
    && (forall n | 0 <= n < |s.scopes| :: exists i | 0 <= i < |s.entries| :: s.entries[i].id == s.scopes[n].candidate)
    && (s.result.matched ==> IsNamedByOwnResult(s))
  }

  /** A result of the selected entry names the selected work. */
  predicate IsNamedByOwnResult(s: Selection) {
    s.result.candidate.Some? && s.result.selectedWork.Some? && exists n | 0 <= n < |s.scopes| ::
      && s.scopes[n].candidate == s.result.candidate.value && s.scopes[n].matchedWork.Some?
      && SameIgnoringCase(Trim(s.scopes[n].matchedWork.value), Trim(s.result.selectedWork.value))
  }

  /** A code in upper case. */
  predicate IsUpperOf(code: string, text: string) {
    SameIgnoringCase(code, text) && forall i | 0 <= i < |code| :: !('a' <= code[i] <= 'z')
  }

  lemma {:induction false} UpperOfIff(code: string, text: string)
    ensures code == Upper(text) <==> IsUpperOf(code, text)
  {
    UpperIffLower(code, text);
    if IsUpperOf(code, text) {
      forall i | 0 <= i < |code|
        ensures code[i] == Upper(code)[i]
      {
      }
      assert code == Upper(code);
    }
    if code == Upper(text) {
      UpperTwice(text);
      forall i | 0 <= i < |code|
        ensures !('a' <= code[i] <= 'z')
      {
        UpperCharIs(text[i]);
      }
    }
  }

  lemma {:induction false} SameAsUpper(a: string, b: string)
    ensures SameIgnoringCase(a, Upper(b)) <==> SameIgnoringCase(a, b)
  {
    UpperIffLower(a, Upper(b));
    UpperIffLower(a, b);
    UpperTwice(b);
  }

  /** The candidate for a work that comes first. */
  predicate IsFirstFor(candidates: seq<Candidate>, work: string, k: int) {
    0 <= k < |candidates| && SameIgnoringCase(candidates[k].workCode, work)
    && forall j | 0 <= j < k :: !SameIgnoringCase(candidates[j].workCode, work)
  }

  lemma {:induction false} CandidateIff(candidates: seq<Candidate>, work: string)
    ensures FindCandidate(candidates, work).Some? ==> exists k :: IsFirstFor(candidates, work, k)
    ensures forall k :: IsFirstFor(candidates, work, k) ==> FindCandidate(candidates, work) == Some(candidates[k])
  {
    if candidates != [] {
      var rest := candidates[1..];
      CandidateIff(rest, work);
      hide SameIgnoringCase;
      if SameIgnoringCase(candidates[0].workCode, work) {
        assert IsFirstFor(candidates, work, 0);
      } else {
        if FindCandidate(rest, work).Some? {
          var k :| IsFirstFor(rest, work, k);
          assert IsFirstFor(candidates, work, k + 1);
        }
        forall k | IsFirstFor(candidates, work, k)
          ensures IsFirstFor(rest, work, k - 1)
        {
          assert forall j | 0 <= j < k - 1 :: rest[j] == candidates[j + 1];
        }
      }
    }
  }

  /** The identity of a matched result: the selected work, with the reasons of the first candidate for it. */
  ghost predicate IsIdentityOf(result: ScanResult, identity: Option<CatalogIdentity>) {
    if !result.matched then identity == None
    else result.selectedWork.Some? && identity.Some? && exists k ::
      IsFirstFor(result.candidates, Trim(result.selectedWork.value), k) && IsIdentityAt(result, identity.value, k)
  }

  ghost predicate IsIdentityAt(result: ScanResult, identity: CatalogIdentity, k: nat)
    requires result.selectedWork.Some? && k < |result.candidates|
  {
    && IsUpperOf(identity.workCode, Trim(result.selectedWork.value))
    && result.confidence == Some(identity.confidence)
    && identity.reasonCodes == result.candidates[k].reasonCodes != []
  }

  lemma {:induction false} FirstForUpper(candidates: seq<Candidate>, work: string)
    ensures forall k :: IsFirstFor(candidates, Upper(work), k) <==> IsFirstFor(candidates, work, k)
  {
    forall k | 0 <= k < |candidates|
      ensures SameIgnoringCase(candidates[k].workCode, Upper(work)) <==> SameIgnoringCase(candidates[k].workCode, work)
    {
      SameAsUpper(candidates[k].workCode, work);
    }
    hide SameIgnoringCase, Upper;
  }

  lemma {:induction false} IdentityIff(result: ScanResult, identity: Option<CatalogIdentity>)
    ensures SelectedIdentity(result) == Ok(identity) <==> IsIdentityOf(result, identity)
  {
    if result.matched && result.selectedWork.Some? {
      var work := Trim(result.selectedWork.value);
      CandidateIff(result.candidates, Upper(work));
      FirstForUpper(result.candidates, work);
      if identity.Some? {
        UpperOfIff(identity.value.workCode, work);
      }
      hide Upper, Trim, IsFirstFor, IsUpperOf, FindCandidate;
      forall k | IsFirstFor(result.candidates, work, k)
        ensures 0 <= k < |result.candidates|
      {
        FirstForIsThere(result.candidates, work, k);
      }
    }
  }

  lemma {:induction false} FirstForIsThere(candidates: seq<Candidate>, work: string, k: int)
    requires IsFirstFor(candidates, work, k)
    ensures 0 <= k < |candidates|
  {
  }

  lemma {:induction false} FreshIff(s: Selection, sessionId: string, resultId: string)
    requires s.result.candidate.Some? && exists i | 0 <= i < |s.entries| :: s.entries[i].id == s.result.candidate.value
    ensures Validate(s, sessionId, resultId).Ok? <==> IsFreshSelection(s, sessionId, resultId)
  {
    assert forall n | 0 <= n < |s.scopes| :: HasEntry(s.entries, s.scopes[n].candidate) <==>
        exists i | 0 <= i < |s.entries| :: s.entries[i].id == s.scopes[n].candidate;
    if s.result.selectedWork.Some? {
      forall n | 0 <= n < |s.scopes| && s.scopes[n].matchedWork.Some?
        ensures SameIgnoringCase(Trim(s.scopes[n].matchedWork.value), Upper(Trim(s.result.selectedWork.value))) <==>
                  SameIgnoringCase(Trim(s.scopes[n].matchedWork.value), Trim(s.result.selectedWork.value))
      {
        SameAsUpper(Trim(s.scopes[n].matchedWork.value), Trim(s.result.selectedWork.value));
      }
    }
    hide HasEntry, SameIgnoringCase, Upper, Trim;
    assert forall i | 0 <= i < |s.entries| :: IsFresh(s.entries[i], s) <==>
        s.entries[i].rootId == s.rootId && s.entries[i].present && s.entries[i].lastSeen == Some(s.sessionId);
  }

  /**
   What an installation is stored with, if it is stored: a fresh selection, the identity of
   a matched result, no part of it blank, and the whole root or the part the selected entry
   lies in.
   */
  lemma {:induction false} StoredIff(s: Selection, sessionId: string, resultId: string, discover: Discovery,
      stored: Stored)
    ensures Create(s, sessionId, resultId, discover) == Ok(stored) <==>
              && IsFreshSelection(s, sessionId, resultId) && IsIdentityOf(s.result, stored.identity)
              && IsScope(s, stored.identity, discover, stored.scope)
              && (stored.identity.Some? ==>
                    Trim(stored.identity.value.workCode) != []
                    && forall r | r in stored.identity.value.reasonCodes :: Trim(r) != [])
  {
    IdentityIff(s.result, stored.identity);
    ScopeIff(s, stored.identity, discover, stored.scope);
    if ScopeOf(s, stored.identity, discover).Ok? {
      ScopeNeedsEntry(s, stored.identity, discover);
      FoundIff(s.entries, s.result.candidate.value);
      FreshIff(s, sessionId, resultId);
    }
    hide Validate, SelectedIdentity, ScopeOf, IsFreshSelection, IsIdentityOf, IsScope, Trim, IsFirstWith, FindEntry;
  }
}
