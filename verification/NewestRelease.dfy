/** Choosing a work's newest catalog release. */
module NewestRelease {
  import opened Wrappers
  import opened Text

  datatype Rom = Rom(name: string, size: string, sha256: string, updateDate: string, version: string)

  datatype Key = Key(date: string, version: string)

  datatype Archive = Archive(fileName: string, size: nat, sha256: string, remotePath: Option<string>, complete: bool)

  datatype Release = Release(key: Key, archives: seq<Archive>)

  /** Why a catalog listing gives no release; both are reported as not in the archive. */
  datatype ReleaseError = NothingListed | Unverifiable(name: string)

  function KeyOf(rom: Rom): Key {
    Key(Trim(rom.updateDate), Trim(rom.version))
  }

  function Members(roms: seq<Rom>, k: Key): seq<Rom> {
    if roms == [] then []
    else if KeyOf(roms[|roms| - 1]) == k then Members(roms[..|roms| - 1], k) + [roms[|roms| - 1]]
    else Members(roms[..|roms| - 1], k)
  }

  function SizeOf(rom: Rom): nat {
    match ParseU64(Trim(rom.size)) case Some(n) => n case None => 0
  }

  /** An archive with a name, a positive size and a whole SHA-256 can be verified once downloaded. */
  predicate Verifiable(rom: Rom) {
    var sha256 := Lower(Trim(rom.sha256));
    && Trim(rom.name) != [] && SizeOf(rom) > 0
    && |sha256| == 64 && forall i | 0 <= i < |sha256| :: IsHexDigit(sha256[i])
  }

  function ArchiveOf(rom: Rom): Archive {
    Archive(Trim(rom.name), SizeOf(rom), Lower(Trim(rom.sha256)), None, false)
  }

  function Archives(roms: seq<Rom>): Result<seq<Archive>, ReleaseError> {
    if roms == [] then Ok([])
    else if !Verifiable(roms[0]) then Err(Unverifiable(roms[0].name))
    else match Archives(roms[1..])
      case Err(e) => Err(e)
      case Ok(rest) => Ok([ArchiveOf(roms[0])] + rest)
  }

  /** Where a key first appears in the listing, or the listing's length. */
  function FirstIndex(roms: seq<Rom>, k: Key): nat {
    if roms == [] then 0 else if KeyOf(roms[0]) == k then 0 else 1 + FirstIndex(roms[1..], k)
  }

  /** No release is dated later, and among those with the same date none appears later. */
  ghost predicate IsNewest(roms: seq<Rom>, k: Key) {
    && (exists i | 0 <= i < |roms| :: KeyOf(roms[i]) == k)
    && forall i | 0 <= i < |roms| && KeyOf(roms[i]) != k ::
         var other := KeyOf(roms[i]);
         AtMost(other.date, k.date) && (other.date == k.date ==> FirstIndex(roms, other) < FirstIndex(roms, k))
  }

  lemma {:induction false} FirstIndexFinds(roms: seq<Rom>, k: Key)
    ensures FirstIndex(roms, k) <= |roms|
    ensures FirstIndex(roms, k) < |roms| ==> KeyOf(roms[FirstIndex(roms, k)]) == k
    ensures forall i | 0 <= i < |roms| && KeyOf(roms[i]) == k :: FirstIndex(roms, k) <= i
  {
    if roms != [] && KeyOf(roms[0]) != k {
      FirstIndexFinds(roms[1..], k);
      forall i | 0 <= i < |roms| && KeyOf(roms[i]) == k
        ensures FirstIndex(roms, k) <= i
      {
        assert roms[1..][i - 1] == roms[i];
      }
    }
  }

  /** There is only one newest release to choose. */
  lemma {:induction false} NewestIsUnique(roms: seq<Rom>, k: Key, k': Key)
    requires IsNewest(roms, k) && IsNewest(roms, k')
    ensures k == k'
  {
    if k != k' {
      AtMostTotal(k.date, k'.date);
    }
  }

  /** The release of one key, if all its archives can be verified. */
  function ReleaseWith(roms: seq<Rom>, k: Key): Result<Release, ReleaseError> {
    match Archives(Members(roms, k))
    case Ok(archives) => Ok(Release(k, archives))
    case Err(e) => Err(e)
  }

  /** The answer the newest release of a listing must give. */
  ghost predicate IsReleaseOf(roms: seq<Rom>, r: Result<Release, ReleaseError>) {
    if roms == [] then r == Err(NothingListed)
    else exists k :: IsNewest(roms, k) && r == ReleaseWith(roms, k)
  }

  datatype Group = Group(key: Key, members: seq<Rom>)

  function Keys(groups: seq<Group>): seq<Key> {
    seq(|groups|, g requires 0 <= g < |groups| => groups[g].key)
  }

  /** The groups of a listing's first `n` entries, in the order their keys first appear. */
  ghost predicate Grouped(roms: seq<Rom>, n: nat, groups: seq<Group>)
    requires n <= |roms|
  {
    && (forall g | 0 <= g < |groups| :: groups[g].members == Members(roms[..n], groups[g].key)
          && FirstIndex(roms, groups[g].key) < n)
    && (forall g, h | 0 <= g < h < |groups| :: FirstIndex(roms, groups[g].key) < FirstIndex(roms, groups[h].key))
    && (forall i | 0 <= i < n :: KeyOf(roms[i]) in Keys(groups))
  }

  /** Finds the group of a key, as the first search of the loop does. */
  method FindGroup(groups: seq<Group>, k: Key) returns (g: nat)
    ensures g <= |groups|
    ensures g < |groups| ==> groups[g].key == k
    ensures forall h | 0 <= h < g :: groups[h].key != k
  {
    g := 0;
    while g < |groups| && groups[g].key != k
      invariant g <= |groups|
      invariant forall h | 0 <= h < g :: groups[h].key != k
    {
      g := g + 1;
    }
  }

  lemma {:induction false} MembersGrow(roms: seq<Rom>, n: nat, k: Key)
    requires n < |roms|
    ensures Members(roms[..n + 1], k) == Members(roms[..n], k) + (if KeyOf(roms[n]) == k then [roms[n]] else [])
  {
    assert roms[..n + 1][..n] == roms[..n];
  }

  lemma {:induction false} JoinGroup(roms: seq<Rom>, n: nat, groups: seq<Group>, g: nat)
    requires n < |roms| && Grouped(roms, n, groups) && g < |groups| && groups[g].key == KeyOf(roms[n])
    requires forall h | 0 <= h < g :: groups[h].key != KeyOf(roms[n])
    ensures Grouped(roms, n + 1, groups[g := Group(groups[g].key, groups[g].members + [roms[n]])])
  {
    var after := groups[g := Group(groups[g].key, groups[g].members + [roms[n]])];
    forall h | 0 <= h < |after|
      ensures after[h].members == Members(roms[..n + 1], after[h].key) && FirstIndex(roms, after[h].key) < n + 1
    {
      MembersGrow(roms, n, groups[h].key);
    }
    assert Keys(after) == Keys(groups);
    assert Keys(groups)[g] == KeyOf(roms[n]);
  }

  lemma {:induction false} FirstSeenHere(roms: seq<Rom>, n: nat)
    requires n < |roms| && forall i | 0 <= i < n :: KeyOf(roms[i]) != KeyOf(roms[n])
    ensures FirstIndex(roms, KeyOf(roms[n])) == n
  {
    FirstIndexFinds(roms, KeyOf(roms[n]));
  }

  lemma {:induction false} OpenGroup(roms: seq<Rom>, n: nat, groups: seq<Group>)
    requires n < |roms| && Grouped(roms, n, groups)
    requires forall h | 0 <= h < |groups| :: groups[h].key != KeyOf(roms[n])
    ensures Grouped(roms, n + 1, groups + [Group(KeyOf(roms[n]), [roms[n]])])
  {
    hide Members, FirstIndex, KeyOf;
    var k := KeyOf(roms[n]);
    var after := groups + [Group(k, [roms[n]])];
    forall i | 0 <= i < n
      ensures KeyOf(roms[i]) != k
    {
      assert KeyOf(roms[i]) in Keys(groups);
    }
    FirstSeenHere(roms, n);
    NoMembersBefore(roms, n, k);
    forall h | 0 <= h < |after|
      ensures after[h].members == Members(roms[..n + 1], after[h].key) && FirstIndex(roms, after[h].key) < n + 1
    {
      MembersGrow(roms, n, after[h].key);
    }
    assert Keys(after) == Keys(groups) + [k];
  }

  lemma {:induction false} NothingGrouped(roms: seq<Rom>)
    ensures Grouped(roms, 0, [])
  {
  }

  method GroupByRelease(roms: seq<Rom>) returns (groups: seq<Group>)
    ensures Grouped(roms, |roms|, groups)
  {
    hide *;
    groups := [];
    NothingGrouped(roms);
    for n := 0 to |roms|
      invariant Grouped(roms, n, groups)
    {
      var k := KeyOf(roms[n]);
      var g := FindGroup(groups, k);
      if g < |groups| {
        JoinGroup(roms, n, groups, g);
        groups := groups[g := Group(groups[g].key, groups[g].members + [roms[n]])];
      } else {
        OpenGroup(roms, n, groups);
        groups := groups + [Group(k, [roms[n]])];
      }
    }
  }

  lemma {:induction false} NoMembersBefore(roms: seq<Rom>, n: nat, k: Key)
    requires n <= |roms| && forall i | 0 <= i < n :: KeyOf(roms[i]) != k
    ensures Members(roms[..n], k) == []
  {
    if n > 0 {
      NoMembersBefore(roms, n - 1, k);
      MembersGrow(roms, n - 1, k);
    }
  }

  /** The last of the groups with the greatest date, as max_by chooses it. */
  method LatestGroup(groups: seq<Group>) returns (best: nat)
    requires groups != []
    ensures best < |groups|
    ensures forall g | 0 <= g < |groups| :: AtMost(groups[g].key.date, groups[best].key.date)
    ensures forall g | best < g < |groups| :: groups[g].key.date != groups[best].key.date
  {
    best := 0;
    AtMostTotal(groups[0].key.date, groups[0].key.date);
    for n := 1 to |groups|
      invariant best < n
      invariant forall g | 0 <= g < n :: AtMost(groups[g].key.date, groups[best].key.date)
      invariant forall g | best < g < n :: groups[g].key.date != groups[best].key.date
    {
      AtMostTotal(groups[best].key.date, groups[n].key.date);
      if AtMost(groups[best].key.date, groups[n].key.date) {
        forall g | 0 <= g <= n
          ensures AtMost(groups[g].key.date, groups[n].key.date)
        {
          if g < n {
            AtMostTransitive(groups[g].key.date, groups[best].key.date, groups[n].key.date);
          } else {
            AtMostTotal(groups[n].key.date, groups[n].key.date);
          }
        }
        best := n;
      }
    }
  }

  /**
   The newest release: it is there exactly when the catalog lists an archive and
   every archive of the newest release can be verified, and it holds exactly
   that release's archives in catalog order.
   */
  method Newest(roms: seq<Rom>) returns (r: Result<Release, ReleaseError>)
    ensures IsReleaseOf(roms, r)
    ensures r.Ok? ==> exists places :: IsReleaseAt(roms, r.value, places)
    ensures r == Err(NothingListed) <==> roms == []
  {
    var groups := GroupByRelease(roms);
    if groups == [] {
      assert roms != [] ==> KeyOf(roms[0]) in Keys(groups);
      return Err(NothingListed);
    }
    var best := LatestGroup(groups);
    var k := groups[best].key;
    FirstIndexFinds(roms, k);
    assert roms[..|roms|] == roms;
    assert IsNewest(roms, k) by {
      assert KeyOf(roms[FirstIndex(roms, k)]) == k;
      forall i | 0 <= i < |roms| && KeyOf(roms[i]) != k
        ensures AtMost(KeyOf(roms[i]).date, k.date)
        ensures KeyOf(roms[i]).date == k.date ==> FirstIndex(roms, KeyOf(roms[i])) < FirstIndex(roms, k)
      {
        assert KeyOf(roms[i]) in Keys(groups);
      }
    }
    match Archives(groups[best].members) {
      case Ok(archives) => r := Ok(Release(k, archives));
      case Err(e) => r := Err(e);
    }
    assert r == ReleaseWith(roms, k);
    ArchivesFail(groups[best].members);
    if r.Ok? {
      ghost var places := ReleaseIsAt(roms, r.value);
    }
  }

  lemma {:induction false} ArchivesFail(roms: seq<Rom>)
    ensures Archives(roms) != Err(NothingListed)
  {
    if roms != [] {
      ArchivesFail(roms[1..]);
    }
  }

  /** The archives are there exactly when every entry is verifiable, one for each, all still to be fetched. */
  lemma {:induction false} ArchivesKeepEveryEntry(roms: seq<Rom>)
    ensures Archives(roms).Ok? <==> forall i | 0 <= i < |roms| :: Verifiable(roms[i])
    ensures Archives(roms).Ok? ==>
              |Archives(roms).value| == |roms|
              && forall i | 0 <= i < |roms| :: Archives(roms).value[i] == ArchiveOf(roms[i])
  {
    if roms != [] {
      ArchivesKeepEveryEntry(roms[1..]);
      assert forall i | 0 < i < |roms| :: roms[i] == roms[1..][i - 1];
      assert forall i | 0 <= i < |roms[1..]| :: roms[1..][i] == roms[i + 1];
    }
  }

  function FirstUnverifiable(roms: seq<Rom>): nat {
    if roms == [] || !Verifiable(roms[0]) then 0 else 1 + FirstUnverifiable(roms[1..])
  }

  /** A refusal names the first entry that cannot be verified. */
  lemma {:induction false} RefusalNamesTheFirst(roms: seq<Rom>)
    requires Archives(roms).Err?
    ensures var i := FirstUnverifiable(roms);
      && i < |roms| && !Verifiable(roms[i]) && Archives(roms).error == Unverifiable(roms[i].name)
      && forall j | 0 <= j < i :: Verifiable(roms[j])
  {
    if Verifiable(roms[0]) {
      RefusalNamesTheFirst(roms[1..]);
      assert forall j | 0 < j < FirstUnverifiable(roms) :: roms[j] == roms[1..][j - 1];
    }
  }

  /** Every archive of a release has a positive size and is neither located nor complete. */
  lemma {:induction false} ReleaseStartsEmpty(roms: seq<Rom>)
    requires Archives(roms).Ok?
    ensures forall a | a in Archives(roms).value :: a.size > 0 && a.remotePath.None? && !a.complete
  {
    if roms != [] {
      ReleaseStartsEmpty(roms[1..]);
    }
  }

  // The same, told by the entries' own texts.

  /** These are exactly the places of a date and a version in the listing, in order. */
  ghost predicate ArePlaces(roms: seq<Rom>, date: string, version: string, places: seq<nat>) {
    && (forall i | 0 <= i < |roms| ::
      i in places <==> Trim(roms[i].updateDate) == date && Trim(roms[i].version) == version)
    && (forall n | 0 <= n < |places| :: places[n] < |roms|)
    && (forall n, o | 0 <= n < o < |places| :: places[n] < places[o])
  }

  lemma {:induction false} MembersAreAtPlaces(roms: seq<Rom>, k: Key) returns (places: seq<nat>)
    ensures ArePlaces(roms, k.date, k.version, places) && |Members(roms, k)| == |places|
    ensures forall n | 0 <= n < |places| :: Members(roms, k)[n] == roms[places[n]]
  {
    hide Trim;
    if roms == [] {
      places := [];
    } else {
      var last := |roms| - 1;
      var before := MembersAreAtPlaces(roms[..last], k);
      places := if KeyOf(roms[last]) == k then before + [last] else before;
      PlacesGrow(roms, k, before, places);
    }
  }

  lemma {:induction false} PlacesGrow(roms: seq<Rom>, k: Key, before: seq<nat>, places: seq<nat>)
    requires roms != [] && ArePlaces(roms[..|roms| - 1], k.date, k.version, before)
    requires places == if KeyOf(roms[|roms| - 1]) == k then before + [|roms| - 1] else before
    ensures ArePlaces(roms, k.date, k.version, places)
  {
    hide Trim;
    var last := |roms| - 1;
    assert last !in before;
    forall i | 0 <= i < |roms|
      ensures i in places <==> Trim(roms[i].updateDate) == k.date && Trim(roms[i].version) == k.version
    {
      if i < last {
        assert roms[..last][i] == roms[i];
      }
    }
  }

  /** An archive is the entry's: its trimmed name, its size, and its digest in small letters, still to be fetched. */
  predicate IsArchiveOf(archive: Archive, rom: Rom) {
    && archive.fileName == Trim(rom.name) != [] && ParseU64(Trim(rom.size)) == Some(archive.size) && archive.size > 0
    && SameIgnoringCase(archive.sha256, Trim(rom.sha256)) && |archive.sha256| == 64
    && (forall c | c in archive.sha256 :: '0' <= c <= '9' || 'a' <= c <= 'f')
    && archive.remotePath == None && !archive.complete
  }

  lemma {:induction false} ArchiveOfIs(rom: Rom)
    requires Verifiable(rom)
    ensures IsArchiveOf(ArchiveOf(rom), rom)
  {
    var sha256 := Trim(rom.sha256);
    assert |Lower(sha256)| == |sha256|;
    forall i | 0 <= i < |sha256|
      ensures LowerChar(LowerChar(sha256[i])) == LowerChar(sha256[i])
      ensures '0' <= Lower(sha256)[i] <= '9' || 'a' <= Lower(sha256)[i] <= 'f'
    {
      assert IsHexDigit(Lower(sha256)[i]);
    }
    assert Lower(Lower(sha256)) == Lower(sha256);
  }

  /** A release of the entries at some places, dated no earlier than any entry and, of its date, the last to appear. */
  ghost predicate IsLatest(roms: seq<Rom>, date: string, version: string, places: seq<nat>) {
    && ArePlaces(roms, date, version, places) && places != []
    && (forall i | 0 <= i < |roms| :: AtMost(Trim(roms[i].updateDate), date))
    && (forall i | 0 <= i < |roms| && Trim(roms[i].updateDate) == date :: exists j | 0 <= j <= places[0] ::
      Trim(roms[j].updateDate) == date && Trim(roms[j].version) == Trim(roms[i].version))
  }

  lemma {:induction false} NewestIsLatest(roms: seq<Rom>, k: Key) returns (places: seq<nat>)
    requires IsNewest(roms, k)
    ensures IsLatest(roms, k.date, k.version, places) && |Members(roms, k)| == |places|
    ensures forall n | 0 <= n < |places| :: Members(roms, k)[n] == roms[places[n]]
  {
    places := MembersAreAtPlaces(roms, k);
    var i :| 0 <= i < |roms| && KeyOf(roms[i]) == k;
    assert i in places;
    FirstIndexFinds(roms, k);
    assert places[0] in places;
    forall j | 0 <= j < |roms|
      ensures AtMost(Trim(roms[j].updateDate), k.date)
      ensures Trim(roms[j].updateDate) == k.date ==> exists o | 0 <= o <= places[0] ::
                Trim(roms[o].updateDate) == k.date && Trim(roms[o].version) == Trim(roms[j].version)
    {
      if KeyOf(roms[j]) == k {
        AtMostTotal(k.date, k.date);
        assert Trim(roms[places[0]].version) == k.version;
      } else if Trim(roms[j].updateDate) == k.date {
        FirstIndexFinds(roms, KeyOf(roms[j]));
        var o := FirstIndex(roms, KeyOf(roms[j]));
        assert KeyOf(roms[o]) == KeyOf(roms[j]);
      }
    }
  }

  /**
   The release a listing gives, in the entries' own texts: it has the date and version
   of some entry, no entry is dated later, and no version of its date first appears
   later; its archives are those of exactly the entries with this date and version, in
   order, and all of them can be verified.
   */
  ghost predicate IsReleaseAt(roms: seq<Rom>, release: Release, places: seq<nat>) {
    && IsLatest(roms, release.key.date, release.key.version, places) && |release.archives| == |places|
    && forall n | 0 <= n < |places| :: IsArchiveOf(release.archives[n], roms[places[n]])
  }

  lemma {:induction false} ReleaseIsAt(roms: seq<Rom>, release: Release) returns (places: seq<nat>)
    requires IsReleaseOf(roms, Ok(release))
    ensures IsReleaseAt(roms, release, places)
  {
    var k :| IsNewest(roms, k) && Ok(release) == ReleaseWith(roms, k);
    places := NewestIsLatest(roms, k);
    ArchivesKeepEveryEntry(Members(roms, k));
    forall n | 0 <= n < |places|
      ensures IsArchiveOf(release.archives[n], roms[places[n]])
    {
      ArchiveOfIs(roms[places[n]]);
    }
  }

  lemma {:induction false} GoodArchiveIsVerifiable(archive: Archive, rom: Rom)
    requires IsArchiveOf(archive, rom)
    ensures Verifiable(rom)
  {
    var sha256 := Lower(Trim(rom.sha256));
    assert |Lower(archive.sha256)| == |archive.sha256|;
    forall i | 0 <= i < |sha256|
      ensures IsHexDigit(sha256[i])
    {
      assert Lower(archive.sha256)[i] == sha256[i] && archive.sha256[i] in archive.sha256;
    }
  }

  ghost predicate IsArchive(rom: Rom) {
    exists archive :: IsArchiveOf(archive, rom)
  }

  lemma {:induction false} IsArchiveIff(rom: Rom)
    ensures IsArchive(rom) <==> Verifiable(rom)
  {
    hide IsArchiveOf, Verifiable;
    if Verifiable(rom) {
      ArchiveOfIs(rom);
    }
    if IsArchive(rom) {
      var archive :| IsArchiveOf(archive, rom);
      GoodArchiveIsVerifiable(archive, rom);
    }
  }

  /** A refusal names the first entry of the release that would have been given which makes no archive. */
  lemma {:induction false} RefusalIsOf(roms: seq<Rom>, name: string)
    returns (date: string, version: string, places: seq<nat>, n: nat)
    requires IsReleaseOf(roms, Err(Unverifiable(name)))
    ensures IsLatest(roms, date, version, places) && n < |places| && name == roms[places[n]].name
    ensures !IsArchive(roms[places[n]]) && forall o | 0 <= o < n :: IsArchive(roms[places[o]])
  {
    var k :| IsNewest(roms, k) && Err(Unverifiable(name)) == ReleaseWith(roms, k);
    hide Trim, IsArchive, IsLatest, IsNewest, Verifiable, Members;
    date, version := k.date, k.version;
    places := NewestIsLatest(roms, k);
    RefusalNamesTheFirst(Members(roms, k));
    n := FirstUnverifiable(Members(roms, k));
    IsArchiveIff(roms[places[n]]);
    forall o | 0 <= o < n
      ensures IsArchive(roms[places[o]])
    {
      IsArchiveIff(roms[places[o]]);
    }
  }
}
