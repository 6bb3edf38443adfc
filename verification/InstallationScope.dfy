/**
 Which entries of a scanned root become one installation. Archive sets are
 discovered by a function that is left open.
 */
module InstallationScope {
  import opened Wrappers
  import opened Text

  type EntryId = string

  datatype Entry = Entry(id: EntryId, isFile: bool, pathKey: string, playable: bool, rootId: string, present: bool,
                         lastSeen: Option<string>)

  datatype ResultScope = ResultScope(candidate: EntryId, matchedWork: Option<string>)

  datatype Confidence = Possible | Strong | Exact

  /** A work a result may be, and the reasons for it. */
  datatype Candidate = Candidate(workCode: string, reasonCodes: seq<string>)

  datatype ScanResult = ScanResult(id: string, sessionId: string, candidate: Option<EntryId>, matched: bool,
                                   selectedWork: Option<string>, confidence: Option<Confidence>,
                                   candidates: seq<Candidate>)

  datatype CatalogIdentity = CatalogIdentity(workCode: string, confidence: Confidence, reasonCodes: seq<string>)

  datatype Selection = Selection(
    sessionId: string, sessionRoot: string, completed: bool, rootId: string, rootPath: string,
    result: ScanResult, entries: seq<Entry>, scopes: seq<ResultScope>)

  datatype ScopeError =
    | InvalidSelection
    | ScanNotCompleted
    | PackageError(text: string)
    | MultipleMatchedWorks(codes: set<string>)
    | EmptyIdentity
    | EmptyReasonCodes(workCode: string)

  datatype Scope = Scope(entries: seq<Entry>, key: Option<string>)

  /** The volumes of the archive set an entry belongs to, if it does. */
  type Discovery = (EntryId, seq<Entry>) -> Result<Option<seq<EntryId>>, string>

  function UpperChar(c: char): char {
    if 'a' <= c <= 'z' then c - 'a' + 'A' else c
  }

  function Upper(s: string): string {
    seq(|s|, i requires 0 <= i < |s| => UpperChar(s[i]))
  }

  predicate HasEntry(entries: seq<Entry>, id: EntryId) {
    exists i | 0 <= i < |entries| :: entries[i].id == id
  }

  function FindEntry(entries: seq<Entry>, id: EntryId): Option<Entry> {
    if entries == [] then None else if entries[0].id == id then Some(entries[0]) else FindEntry(entries[1..], id)
  }

  /** The distinct works matched by the results among these entries, or by all results. */
  function WorkCodes(scopes: seq<ResultScope>, ids: Option<set<EntryId>>): set<string> {
    set i | 0 <= i < |scopes| && Counts(scopes[i], ids) :: CodeOf(scopes[i])
  }

  predicate Counts(scope: ResultScope, ids: Option<set<EntryId>>) {
    && (ids.Some? ==> scope.candidate in ids.value)
    && scope.matchedWork.Some? && Upper(Trim(scope.matchedWork.value)) != []
  }

  function CodeOf(scope: ResultScope): string {
    if scope.matchedWork.Some? then Upper(Trim(scope.matchedWork.value)) else ""
  }

  // Names of files.

  /** A text cut at the last occurrence of a character, if it occurs. */
  function SplitLast(s: string, c: char): (r: Option<(string, string)>)
    ensures r.Some? ==> s == r.value.0 + [c] + r.value.1 && c !in r.value.1
    ensures r.None? ==> c !in s
  {
    if s == [] then None
    else match SplitLast(s[1..], c)
      case Some((stem, rest)) => Some(([s[0]] + stem, rest))
      case None => if s[0] == c then Some(([], s[1..])) else None
  }

  function FileName(pathKey: string): string {
    Lower(match SplitLast(pathKey, '/') case Some((_, name)) => name case None => pathKey)
  }

  predicate ContainsText(s: string, part: string) {
    part <= s || (s != [] && ContainsText(s[1..], part))
  }

  predicate MayBePackageVolume(entry: Entry) {
    match SplitLast(FileName(entry.pathKey), '.')
    case None => false
    case Some((stem, extension)) =>
      extension == "zip" || extension == "rar" || (extension == "exe" && ContainsText(stem, ".part"))
  }

  predicate IsLegacyRarVolume(entry: Entry) {
    match SplitLast(FileName(entry.pathKey), '.')
    case None => false
    case Some((_, extension)) =>
      |extension| == 3 && extension[0] == 'r' && IsDigit(extension[1]) && IsDigit(extension[2])
  }

  /** A file directly below the root that is no volume of an archive set. */
  predicate IsLoose(entry: Entry, entries: seq<Entry>, discover: Discovery) {
    && entry.isFile && '/' !in entry.pathKey && !IsLegacyRarVolume(entry)
    && (MayBePackageVolume(entry) ==> discover(entry.id, entries) == Ok(None))
  }

  /** Whether the whole root is one work. */
  predicate IsOneWork(entries: seq<Entry>, scopes: seq<ResultScope>, discover: Discovery) {
    var codes := WorkCodes(scopes, None);
    && |codes| <= 1
    && (|scopes| <= 1
        || ((exists i | 0 <= i < |entries| :: IsLoose(entries[i], entries, discover))
            && ((exists i | 0 <= i < |entries| :: IsLoose(entries[i], entries, discover) && entries[i].playable)
                || (forall i | 0 <= i < |entries| :: IsLoose(entries[i], entries, discover))
                || (codes != {} && exists s, i | 0 <= s < |scopes| && 0 <= i < |entries| ::
                      scopes[s].matchedWork.Some? && IsLoose(entries[i], entries, discover)
                      && entries[i].id == scopes[s].candidate))))
  }

  function PackageKey(id: EntryId): string {
    "package:entry:" + id
  }

  function DirectoryKey(pathKey: string): string {
    "directory:" + pathKey
  }

  function EntryKey(id: EntryId): string {
    "entry:" + id
  }

  function FirstPart(pathKey: string): string {
    if pathKey == [] || pathKey[0] == '/' then [] else [pathKey[0]] + FirstPart(pathKey[1..])
  }

  /** The scope of an entry whose root holds several works: its archive set, its top-level folder, or itself. */
  function NaturalScope(selected: Entry, entries: seq<Entry>, discover: Discovery): Result<(set<EntryId>, string),
      ScopeError> {
    match discover(selected.id, entries)
    case Err(text) => Err(PackageError(text))
    case Ok(Some(volumes)) =>
      if volumes == [] || !HasEntry(entries, volumes[0]) then Err(InvalidSelection)
      else Ok(((set id | id in volumes), PackageKey(volumes[0])))
    case Ok(None) =>
      if '/' in selected.pathKey
      then
        var directory := FirstPart(selected.pathKey);
        var ids := set e | e in entries && (e.pathKey == directory || directory + "/" <= e.pathKey) :: e.id;
        Ok((ids, DirectoryKey(directory)))
      else Ok(({selected.id}, EntryKey(selected.id)))
  }

  function Within(entries: seq<Entry>, ids: set<EntryId>): seq<Entry> {
    if entries == [] then []
    else Within(entries[..|entries| - 1], ids)
         + (if entries[|entries| - 1].id in ids then [entries[|entries| - 1]] else [])
  }

  /** The first candidate for a code, whatever the case. */
  function FindCandidate(candidates: seq<Candidate>, code: string): Option<Candidate> {
    if candidates == [] then None
    else if SameIgnoringCase(candidates[0].workCode, code) then Some(candidates[0])
    else FindCandidate(candidates[1..], code)
  }

  /** The work the selected result was matched to, with the confidence and the reasons it must have. */
  function SelectedIdentity(result: ScanResult): Result<Option<CatalogIdentity>, ScopeError> {
    if !result.matched then Ok(None)
    else if result.selectedWork.None? || result.confidence.None? then Err(InvalidSelection)
    else
      var code := Upper(Trim(result.selectedWork.value));
      match FindCandidate(result.candidates, code)
      case None => Err(InvalidSelection)
      case Some(candidate) =>
        if candidate.reasonCodes == [] then Err(InvalidSelection)
        else Ok(Some(CatalogIdentity(code, result.confidence.value, candidate.reasonCodes)))
  }

  function ScopeOf(s: Selection, identity: Option<CatalogIdentity>, discover: Discovery): Result<Scope, ScopeError> {
    if s.result.candidate.None? || FindEntry(s.entries, s.result.candidate.value).None? then Err(InvalidSelection)
    else if IsOneWork(s.entries, s.scopes, discover) then Ok(Scope(s.entries, None))
    else
      match NaturalScope(FindEntry(s.entries, s.result.candidate.value).value, s.entries, discover)
      case Err(error) => Err(error)
      case Ok((ids, key)) =>
        var codes := WorkCodes(s.scopes, Some(ids));
        if |codes| > 1 then Err(MultipleMatchedWorks(codes))
        else if identity.Some? && Upper(Trim(identity.value.workCode)) !in codes then Err(InvalidSelection)
        else if Within(s.entries, ids) == [] then Err(InvalidSelection)
        else Ok(Scope(Within(s.entries, ids), Some(key)))
  }

  predicate IsFresh(e: Entry, s: Selection) {
    e.rootId == s.rootId && e.present && e.lastSeen == Some(s.sessionId)
  }

  function Validate(s: Selection, sessionId: string, resultId: string): Result<(), ScopeError> {
    if s.sessionId != sessionId || s.result.id != resultId || s.result.sessionId != s.sessionId
      || s.rootId != s.sessionRoot
    then Err(InvalidSelection)
    else if !s.completed then Err(ScanNotCompleted)
    else if Trim(s.rootPath) == [] || s.result.candidate.None? then Err(InvalidSelection)
    else if !exists i | 0 <= i < |s.entries| :: s.entries[i].id == s.result.candidate.value && IsFresh(s.entries[i], s)
    then Err(InvalidSelection)
    else if exists i | 0 <= i < |s.entries| :: !IsFresh(s.entries[i], s) then Err(InvalidSelection)
    else if exists i | 0 <= i < |s.scopes| :: !HasEntry(s.entries, s.scopes[i].candidate) then Err(InvalidSelection)
    else if s.result.matched && (s.result.selectedWork.None? || !SelectedIsListed(s)) then Err(InvalidSelection)
    else Ok(())
  }

  /** Whether the selected work is among those its entry was matched to. */
  predicate SelectedIsListed(s: Selection)
    requires s.result.candidate.Some? && s.result.selectedWork.Some?
  {
    exists i | 0 <= i < |s.scopes| ::
      s.scopes[i].candidate == s.result.candidate.value && s.scopes[i].matchedWork.Some?
      && SameIgnoringCase(Trim(s.scopes[i].matchedWork.value), Upper(Trim(s.result.selectedWork.value)))
  }

  /** What classifying the entries demands of the identity before anything is stored. */
  function CheckIdentity(identity: CatalogIdentity): Result<(), ScopeError> {
    if Trim(identity.workCode) == [] then Err(EmptyIdentity)
    else if identity.reasonCodes == [] || exists i | 0 <= i < |identity.reasonCodes| ::
      Trim(identity.reasonCodes[i]) == []
    then Err(EmptyReasonCodes(identity.workCode))
    else Ok(())
  }

  datatype Stored = Stored(scope: Scope, identity: Option<CatalogIdentity>)

  /** The scope and identity an installation is stored with, as far as these can refuse it. */
  function Create(s: Selection, sessionId: string, resultId: string, discover: Discovery): Result<Stored, ScopeError> {
    match Validate(s, sessionId, resultId)
    case Err(error) => Err(error)
    case Ok(_) =>
      match SelectedIdentity(s.result)
      case Err(error) => Err(error)
      case Ok(identity) =>
        match ScopeOf(s, identity, discover)
        case Err(error) => Err(error)
        case Ok(scope) =>
          if identity.Some? && CheckIdentity(identity.value).Err? then Err(CheckIdentity(identity.value).error)
          else Ok(Stored(scope, identity))
  }

  // What a stored installation names.

  function IdsOf(entries: seq<Entry>): set<EntryId> {
    set i | 0 <= i < |entries| :: entries[i].id
  }

  lemma {:induction false} WithinIs(entries: seq<Entry>, ids: set<EntryId>)
    ensures forall e :: e in Within(entries, ids) <==> e in entries && e.id in ids
  {
    if entries != [] {
      WithinIs(entries[..|entries| - 1], ids);
      assert entries == entries[..|entries| - 1] + [entries[|entries| - 1]];
    }
  }

  lemma {:induction false} FewerIdsFewerCodes(scopes: seq<ResultScope>, fewer: set<EntryId>, ids: Option<set<EntryId>>)
    requires ids.Some? ==> fewer <= ids.value
    ensures WorkCodes(scopes, Some(fewer)) <= WorkCodes(scopes, ids)
    ensures |WorkCodes(scopes, Some(fewer))| <= |WorkCodes(scopes, ids)|
  {
    forall code | code in WorkCodes(scopes, Some(fewer))
      ensures code in WorkCodes(scopes, ids)
    {
      var i :| 0 <= i < |scopes| && Counts(scopes[i], Some(fewer)) && CodeOf(scopes[i]) == code;
      assert Counts(scopes[i], ids);
    }
    SubsetIsSmaller(WorkCodes(scopes, Some(fewer)), WorkCodes(scopes, ids));
  }

  lemma {:induction false} SubsetIsSmaller<T>(a: set<T>, b: set<T>)
    requires a <= b
    ensures |a| <= |b|
  {
    if a != {} {
      var x :| x in a;
      SubsetIsSmaller(a - {x}, b - {x});
    }
  }

  /** The results inside an installation's entries name at most one matched work. */
  lemma {:induction false} ScopeNamesOneWork(s: Selection, identity: Option<CatalogIdentity>, discover: Discovery)
    requires ScopeOf(s, identity, discover).Ok?
    ensures |WorkCodes(s.scopes, Some(IdsOf(ScopeOf(s, identity, discover).value.entries)))| <= 1
  {
    var scope := ScopeOf(s, identity, discover).value;
    if IsOneWork(s.entries, s.scopes, discover) {
      FewerIdsFewerCodes(s.scopes, IdsOf(scope.entries), None);
    } else {
      var natural := NaturalScope(FindEntry(s.entries, s.result.candidate.value).value, s.entries, discover).value;
      WithinIs(s.entries, natural.0);
      assert IdsOf(scope.entries) <= natural.0 by {
        forall i | 0 <= i < |scope.entries|
          ensures scope.entries[i].id in natural.0
        {
          assert scope.entries[i] in Within(s.entries, natural.0);
        }
      }
      FewerIdsFewerCodes(s.scopes, IdsOf(scope.entries), Some(natural.0));
    }
  }

  // The selected work.

  lemma {:induction false} UpperKeepsWhiteSpace(c: char)
    ensures IsWhiteSpace(UpperChar(c)) <==> IsWhiteSpace(c)
  {
  }

  lemma {:induction false} UpperOfTrimmed(s: string)
    ensures Trim(Upper(Trim(s))) == Upper(Trim(s))
  {
    var t := Trim(s);
    TrimByTrims(s, IsWhiteSpace);
    if t != [] {
      UpperKeepsWhiteSpace(t[0]);
      UpperKeepsWhiteSpace(t[|t| - 1]);
    }
    TrimmedStays(Upper(t), IsWhiteSpace);
  }

  lemma {:induction false} SameCaseSameUpper(a: string, b: string)
    requires SameIgnoringCase(a, Upper(b))
    ensures Upper(a) == Upper(b)
  {
    assert |Lower(a)| == |a| && |Lower(Upper(b))| == |b|;
    forall i | 0 <= i < |a|
      ensures UpperChar(a[i]) == UpperChar(b[i])
    {
      assert Lower(a)[i] == Lower(Upper(b))[i];
    }
  }

  lemma {:induction false} FindEntryFinds(entries: seq<Entry>, id: EntryId)
    ensures FindEntry(entries, id).Some? ==>
          FindEntry(entries, id).value in entries && FindEntry(entries, id).value.id == id
  {
    if entries != [] && entries[0].id != id {
      FindEntryFinds(entries[1..], id);
    }
  }

  lemma {:induction false} OnlyOne<T>(s: set<T>, x: T)
    requires x in s && |s| <= 1
    ensures s == {x}
  {
    if y :| y in s && y != x {
      SubsetIsSmaller({x, y}, s);
    }
  }

  /** Among the results of a whole root the selected work is one, unless its code is blank. */
  lemma {:induction false} WholeRootHasSelected(s: Selection, sessionId: string, resultId: string)
    requires Validate(s, sessionId, resultId).Ok? && s.result.matched
    requires Upper(Trim(s.result.selectedWork.value)) != []
    ensures Upper(Trim(s.result.selectedWork.value)) in WorkCodes(s.scopes, Some(IdsOf(s.entries)))
  {
    var selected := s.result.selectedWork.value;
    var i :| 0 <= i < |s.scopes|
      && s.scopes[i].candidate == s.result.candidate.value && s.scopes[i].matchedWork.Some?
      && SameIgnoringCase(Trim(s.scopes[i].matchedWork.value), Upper(Trim(selected)));
    SameCaseSameUpper(Trim(s.scopes[i].matchedWork.value), Trim(selected));
    assert HasEntry(s.entries, s.scopes[i].candidate);
    assert Counts(s.scopes[i], Some(IdsOf(s.entries)));
    assert CodeOf(s.scopes[i]) == Upper(Trim(selected));
  }

  /** Among those of an archive set, a folder or a file it always is. */
  lemma {:induction false} NaturalHasSelected(s: Selection, sessionId: string, resultId: string,
      identity: CatalogIdentity, discover: Discovery)
    requires Validate(s, sessionId, resultId).Ok? && SelectedIdentity(s.result) == Ok(Some(identity))
    requires ScopeOf(s, Some(identity), discover).Ok? && !IsOneWork(s.entries, s.scopes, discover)
    ensures identity.workCode in WorkCodes(s.scopes, Some(IdsOf(ScopeOf(s, Some(identity), discover).value.entries)))
  {
    var natural := NaturalScope(FindEntry(s.entries, s.result.candidate.value).value, s.entries, discover).value;
    var code := identity.workCode;
    UpperOfTrimmed(s.result.selectedWork.value);
    WithinIds(s.entries, natural.0);
    var i :| 0 <= i < |s.scopes| && Counts(s.scopes[i], Some(natural.0)) && CodeOf(s.scopes[i]) == Upper(Trim(code));
    assert HasEntry(s.entries, s.scopes[i].candidate);
    assert Counts(s.scopes[i], Some(IdsOf(Within(s.entries, natural.0))));
    UpperTwice(Trim(s.result.selectedWork.value));
  }

  lemma {:induction false} UpperTwice(s: string)
    ensures Upper(Upper(s)) == Upper(s)
  {
  }

  /**
   The scope found for a matched selection names exactly the selected work if and only
   if the selected code is not blank.
   */
  lemma {:induction false} ScopeNamesTheSelectedWorkIff(s: Selection, sessionId: string, resultId: string,
      identity: CatalogIdentity, discover: Discovery)
    requires Validate(s, sessionId, resultId).Ok? && SelectedIdentity(s.result) == Ok(Some(identity))
    requires ScopeOf(s, Some(identity), discover).Ok?
    ensures WorkCodes(s.scopes, Some(IdsOf(ScopeOf(s, Some(identity), discover).value.entries))) == {identity.workCode}
       <==> Trim(s.result.selectedWork.value) != []
  {
    var scope := ScopeOf(s, Some(identity), discover).value;
    var codes := WorkCodes(s.scopes, Some(IdsOf(scope.entries)));
    ScopeNamesOneWork(s, Some(identity), discover);
    NoBlankCodes(s.scopes, Some(IdsOf(scope.entries)));
    if identity.workCode != [] {
      if IsOneWork(s.entries, s.scopes, discover) {
        WholeRootHasSelected(s, sessionId, resultId);
      } else {
        NaturalHasSelected(s, sessionId, resultId, identity, discover);
      }
      OnlyOne(codes, identity.workCode);
    } else {
      assert [] !in codes;
    }
  }

  /** The check before an installation is stored lets no blank code through. */
  lemma {:induction false} CheckedIsNotBlank(result: ScanResult, identity: CatalogIdentity)
    requires SelectedIdentity(result) == Ok(Some(identity))
    ensures identity.workCode == Upper(Trim(result.selectedWork.value))
    ensures CheckIdentity(identity) == Err(EmptyIdentity) <==> Trim(result.selectedWork.value) == []
  {
    UpperOfTrimmed(result.selectedWork.value);
    assert |Upper(Trim(result.selectedWork.value))| == |Trim(result.selectedWork.value)|;
  }

  /**
   So whatever installation is stored for a matched selection, the results inside its
   entries name the selected work and no other.
   */
  lemma {:induction false} StoredNamesTheSelectedWork(s: Selection, sessionId: string, resultId: string,
        discover: Discovery)
    requires Create(s, sessionId, resultId, discover).Ok? && s.result.matched
    ensures var stored := Create(s, sessionId, resultId, discover).value;
      && stored.identity.Some? && stored.identity.value.workCode == Upper(Trim(s.result.selectedWork.value)) != []
      && WorkCodes(s.scopes, Some(IdsOf(stored.scope.entries))) == {stored.identity.value.workCode}
  {
    hide Validate, SelectedIdentity, ScopeOf, CheckIdentity, WorkCodes, IdsOf;
    var stored := Create(s, sessionId, resultId, discover).value;
    MatchedHasIdentity(s.result);
    CheckedIsNotBlank(s.result, stored.identity.value);
    ScopeNamesTheSelectedWorkIff(s, sessionId, resultId, stored.identity.value, discover);
  }

  lemma {:induction false} MatchedHasIdentity(result: ScanResult)
    requires SelectedIdentity(result).Ok? && result.matched
    ensures SelectedIdentity(result).value.Some?
  {
  }

  // Selections that get that far.

  const ROOT_ENTRY := Entry("e", true, "game.zip", false, "r", true, Some("s"))

  /** A root of one file whose result was matched to a work. */
  function OneFile(code: string): Selection {
    Selection("s", "r", true, "r", "x",
              ScanResult("t", "s", Some("e"), true, Some(code), Some(Exact), [Candidate(code, ["c"])]),
              [ROOT_ENTRY], [ResultScope("e", Some(code))])
  }

  lemma {:induction false} OneFileIsScoped(code: string, discover: Discovery)
    requires IsTrimmed(code, IsWhiteSpace) && Upper(code) == code
    ensures var s := OneFile(code);
      && Validate(s, "s", "t").Ok? && SelectedIdentity(s.result) == Ok(Some(CatalogIdentity(code, Exact, ["c"])))
      && ScopeOf(s, Some(CatalogIdentity(code, Exact, ["c"])), discover) == Ok(Scope([ROOT_ENTRY], None))
  {
    var s := OneFile(code);
    TrimmedStays(code, IsWhiteSpace);
    TrimmedStays("x", IsWhiteSpace);
    assert s.entries[0] == ROOT_ENTRY && s.scopes[0] == ResultScope("e", Some(code));
    assert |WorkCodes(s.scopes, None)| <= 1 by {
      assert WorkCodes(s.scopes, None) <= {CodeOf(s.scopes[0])};
      SubsetIsSmaller(WorkCodes(s.scopes, None), {CodeOf(s.scopes[0])});
    }
  }

  /** A blank code gets through validation, identity and scope, and only the last check refuses it. */
  lemma {:induction false} BlankCodeIsRefusedLast(discover: Discovery)
    ensures var s := OneFile("");
      && Validate(s, "s", "t").Ok? && SelectedIdentity(s.result).Ok?
      && ScopeOf(s, SelectedIdentity(s.result).value, discover).Ok?
      && Create(s, "s", "t", discover) == Err(EmptyIdentity)
  {
    assert Upper("") == "";
    OneFileIsScoped("", discover);
  }

  /** An ordinary code is stored. */
  lemma {:induction false} OrdinaryCodeIsStored(discover: Discovery)
    ensures Create(OneFile("A1"), "s", "t", discover)
          == Ok(Stored(Scope([ROOT_ENTRY], None), Some(CatalogIdentity("A1", Exact, ["c"]))))
  {
    assert Upper("A1") == "A1";
    OneFileIsScoped("A1", discover);
    TrimmedStays("A1", IsWhiteSpace);
    TrimmedStays("c", IsWhiteSpace);
    var identity := CatalogIdentity("A1", Exact, ["c"]);
    assert CheckIdentity(identity).Ok? by {
      assert Trim(identity.reasonCodes[0]) == "c";
    }
    hide Validate, SelectedIdentity, ScopeOf, CheckIdentity;
  }

  const FIRST := Entry("e", true, "a/x", false, "r", true, Some("s"))
  const SECOND := Entry("f", true, "b/y", false, "r", true, Some("s"))

  /** A root of two folders, each of another work. */
  function TwoFolders(): Selection {
    Selection("s", "r", true, "r", "x",
              ScanResult("t", "s", Some("e"), true, Some("A1"), Some(Strong), [Candidate("A1", ["c"])]),
              [FIRST, SECOND], [ResultScope("e", Some("A1")), ResultScope("f", Some("B2"))])
  }

  lemma {:induction false} TwoFoldersHaveTwoWorks(discover: Discovery)
    ensures WorkCodes(TwoFolders().scopes, None) == {"A1", "B2"}
          && WorkCodes(TwoFolders().scopes, Some({"e"})) == {"A1"}
    ensures !IsOneWork(TwoFolders().entries, TwoFolders().scopes, discover)
  {
    var scopes := TwoFolders().scopes;
    TrimmedStays("A1", IsWhiteSpace);
    TrimmedStays("B2", IsWhiteSpace);
    assert Upper("A1") == "A1" && Upper("B2") == "B2";
    assert CodeOf(scopes[0]) == "A1" && CodeOf(scopes[1]) == "B2";
    assert Counts(scopes[0], None) && Counts(scopes[1], None) && Counts(scopes[0], Some({"e"}));
    assert |{"A1", "B2"}| == 2;
  }

  lemma {:induction false} FirstFolderIsIts(discover: Discovery)
    requires discover("e", TwoFolders().entries) == Ok(None)
    ensures NaturalScope(FIRST, TwoFolders().entries, discover) == Ok(({"e"}, DirectoryKey("a")))
  {
    assert FIRST.pathKey[1] == '/';
    FirstPartOfFirst();
    var ids := set e | e in [FIRST, SECOND] && (e.pathKey == "a" || "a" + "/" <= e.pathKey) :: e.id;
    assert ids == {"e"} by {
      assert FIRST in [FIRST, SECOND] && "a" + "/" <= FIRST.pathKey;
      assert forall e | e in [FIRST, SECOND] :: e == FIRST || e == SECOND;
      assert SECOND.pathKey[0] == 'b';
    }
  }

  lemma {:induction false} FirstPartOfFirst()
    ensures FirstPart("a/x") == "a"
  {
    assert "a/x"[1..] == "/x" && FirstPart("/x") == "";
  }

  lemma {:induction false} FirstIsWithin()
    ensures Within([FIRST, SECOND], {"e"}) == [FIRST]
  {
    assert [FIRST, SECOND][..1] == [FIRST] && [FIRST][..0] == [];
    assert Within([FIRST], {"e"}) == [FIRST];
  }

  lemma {:induction false} TwoFoldersAreValid()
    ensures Validate(TwoFolders(), "s", "t").Ok?
    ensures SelectedIdentity(TwoFolders().result) == Ok(Some(CatalogIdentity("A1", Strong, ["c"])))
    ensures CheckIdentity(CatalogIdentity("A1", Strong, ["c"])).Ok?
    ensures Upper(Trim("A1")) == "A1"
  {
    var s := TwoFolders();
    TrimmedStays("A1", IsWhiteSpace);
    TrimmedStays("x", IsWhiteSpace);
    TrimmedStays("c", IsWhiteSpace);
    assert Upper("A1") == "A1";
    assert s.entries[0] == FIRST && s.entries[1] == SECOND && s.scopes[0] == ResultScope("e", Some("A1"));
    assert Trim(["c"][0]) == "c";
  }

  lemma {:induction false} ScopedNaturally(s: Selection, identity: CatalogIdentity, discover: Discovery,
      selected: Entry, ids: set<EntryId>, key: string)
    requires s.result.candidate.Some? && FindEntry(s.entries, s.result.candidate.value) == Some(selected)
    requires !IsOneWork(s.entries, s.scopes, discover) && NaturalScope(selected, s.entries, discover) == Ok((ids, key))
    requires WorkCodes(s.scopes, Some(ids)) == {Upper(Trim(identity.workCode))} && Within(s.entries, ids) != []
    ensures ScopeOf(s, Some(identity), discover) == Ok(Scope(Within(s.entries, ids), Some(key)))
  {
    hide IsOneWork, WorkCodes, NaturalScope, Within, Upper, Trim, FindEntry;
  }

  lemma {:induction false} FirstFolderIsScoped(discover: Discovery)
    requires discover("e", TwoFolders().entries) == Ok(None)
    ensures ScopeOf(TwoFolders(), Some(CatalogIdentity("A1", Strong, ["c"])), discover)
         == Ok(Scope([FIRST], Some(DirectoryKey("a"))))
  {
    TwoFoldersAreValid();
    TwoFoldersHaveTwoWorks(discover);
    FirstFolderIsIts(discover);
    FirstIsWithin();
    assert TwoFolders().result.candidate == Some("e") && TwoFolders().entries == [FIRST, SECOND];
    assert FindEntry(TwoFolders().entries, "e") == Some(FIRST);
    hide *;
    ScopedNaturally(TwoFolders(), CatalogIdentity("A1", Strong, ["c"]), discover, FIRST, {"e"}, DirectoryKey("a"));
  }

  /** A folder of several is stored, under its own key. */
  lemma {:induction false} FolderIsStored(discover: Discovery)
    requires discover("e", TwoFolders().entries) == Ok(None)
    ensures Create(TwoFolders(), "s", "t", discover)
         == Ok(Stored(Scope([FIRST], Some(DirectoryKey("a"))), Some(CatalogIdentity("A1", Strong, ["c"]))))
  {
    hide Validate, SelectedIdentity, CheckIdentity, ScopeOf, Upper, Trim, DirectoryKey;
    TwoFoldersAreValid();
    FirstFolderIsScoped(discover);
  }

  lemma {:induction false} NoBlankCodes(scopes: seq<ResultScope>, ids: Option<set<EntryId>>)
    ensures [] !in WorkCodes(scopes, ids)
  {
  }

  lemma {:induction false} WithinIds(entries: seq<Entry>, ids: set<EntryId>)
    ensures IdsOf(Within(entries, ids)) == IdsOf(entries) * ids
  {
    WithinIs(entries, ids);
    forall id | id in IdsOf(entries) * ids
      ensures id in IdsOf(Within(entries, ids))
    {
      var i :| 0 <= i < |entries| && entries[i].id == id;
      var j :| 0 <= j < |Within(entries, ids)| && Within(entries, ids)[j] == entries[i];
    }
    forall id | id in IdsOf(Within(entries, ids))
      ensures id in IdsOf(entries) * ids
    {
      var j :| 0 <= j < |Within(entries, ids)| && Within(entries, ids)[j].id == id;
      assert Within(entries, ids)[j] in entries;
      var i :| 0 <= i < |entries| && entries[i] == Within(entries, ids)[j];
      assert entries[i].id == id;
    }
  }
}
