/** The actions the launcher ships with are a table the binding theorems apply to. */
module ShippedBindings {
  import opened Wrappers
  import opened Text
  import opened KeyCombos
  import opened KeyBindings
  import opened KeyBindingStorage
  import opened KeyBindingsTheorems

  const GLOBAL_ACTIONS: seq<Action> := [
    Action("search", Global, ["ctrl+k"], 2, false),
    Action("toggleSidebar", Global, ["ctrl+b"], 2, false),
    Action("openSettings", Global, ["ctrl+,"], 2, false)
  ]

  const PLAYBACK_ACTIONS: seq<Action> := [
    Action("playPause", Playback, ["ctrl+space"], 2, false),
    Action("nextTrack", Playback, ["ctrl+arrowright"], 2, false),
    Action("previousTrack", Playback, ["ctrl+arrowleft"], 2, false),
    Action("toggleMute", Playback, ["ctrl+m"], 2, false)
  ]

  const VIDEO_ACTIONS: seq<Action> := [
    Action("videoPlayPause", Video, ["space", "k"], 2, false),
    Action("videoSkipBack", Video, ["arrowleft", "j"], 2, false),
    Action("videoSkipForward", Video, ["arrowright", "l"], 2, false),
    Action("videoVolumeUp", Video, ["arrowup"], 2, false),
    Action("videoVolumeDown", Video, ["arrowdown"], 2, false),
    Action("videoMute", Video, ["m"], 2, false),
    Action("videoSubtitles", Video, ["c"], 2, false),
    Action("videoFullscreen", Video, ["f"], 2, false),
    Action("videoNext", Video, ["n"], 2, false),
    Action("videoPrevious", Video, ["p"], 2, false)
  ]

  const READER_ACTIONS: seq<Action> := [
    Action("readerNextPage", Reader, ["arrowright"], 2, false),
    Action("readerPreviousPage", Reader, ["arrowleft"], 2, false),
    Action("readerScrollBack", Reader, ["arrowup", "pageup"], 2, false),
    Action("readerScrollForward", Reader, ["arrowdown", "pagedown", "space"], 3, false),
    Action("readerFirstPage", Reader, ["home"], 2, false),
    Action("readerLastPage", Reader, ["end"], 2, false),
    Action("readerLayout", Reader, ["m"], 2, false),
    Action("readerFullscreen", Reader, ["f"], 2, false),
    Action("readerZoomIn", Reader, ["plus", "="], 2, false),
    Action("readerZoomOut", Reader, ["-"], 2, false),
    Action("readerResetZoom", Reader, ["0"], 2, false),
    Action("readerGallery", Reader, ["g"], 2, false),
    Action("readerSlideshow", Reader, ["s"], 2, false),
    Action("readerActualSize", Reader, ["z"], 2, false),
    Action("readerPreviousFolder", Reader, ["["], 2, false),
    Action("readerNextFolder", Reader, ["]"], 2, false),
    Action("readerClose", Reader, ["escape"], 1, true)
  ]

  const ALWAYS_LIVE_ACTIONS: seq<Action> := GLOBAL_ACTIONS + PLAYBACK_ACTIONS
  const ACTIONS: seq<Action> := ALWAYS_LIVE_ACTIONS + VIDEO_ACTIONS + READER_ACTIONS

  predicate IsPlainChar(c: char) {
    '!' <= c <= '~' && c != '+' && !('A' <= c <= 'Z')
  }

  /** A short key of small letters and signs that names no modifier. */
  predicate IsPlain(key: string) {
    && 0 < |key| <= 20 && key != "ctrl" && key != "meta" && key != "alt" && key != "shift"
    && forall i | 0 <= i < |key| :: IsPlainChar(key[i])
  }

  /** Such a key behind "ctrl+". */
  predicate IsCtrlPlain(combo: string) {
    && 5 < |combo| <= 25
    && combo[0] == 'c' && combo[1] == 't' && combo[2] == 'r' && combo[3] == 'l' && combo[4] == '+'
    && combo != "ctrl+ctrl" && combo != "ctrl+meta" && combo != "ctrl+alt" && combo != "ctrl+shift"
    && forall i | 5 <= i < |combo| :: IsPlainChar(combo[i])
  }

  lemma {:induction false} ReaderActions()
    ensures UniqueIds(READER_ACTIONS)
    ensures forall i | 0 <= i < |READER_ACTIONS| :: READER_ACTIONS[i].id != [] && READER_ACTIONS[i].id[0] == 'r'
                                                    && READER_ACTIONS[i].scope.Reader?
  {
  }

  lemma {:induction false} VideoActions()
    ensures UniqueIds(VIDEO_ACTIONS)
    ensures forall i | 0 <= i < |VIDEO_ACTIONS| :: VIDEO_ACTIONS[i].id != [] && VIDEO_ACTIONS[i].id[0] == 'v'
                                                   && VIDEO_ACTIONS[i].scope.Video?
  {
  }

  lemma {:induction false} AlwaysLiveActions()
    ensures UniqueIds(ALWAYS_LIVE_ACTIONS)
    ensures forall i | 0 <= i < |ALWAYS_LIVE_ACTIONS| :: ALWAYS_LIVE_ACTIONS[i].id != []
                                                         && ALWAYS_LIVE_ACTIONS[i].id[0] != 'r'
                                                         && ALWAYS_LIVE_ACTIONS[i].id[0] != 'v'
  {
  }

  // Which action of its list a default belongs to.

  function AlwaysLiveOwner(combo: string): nat {
    if combo == "ctrl+k" then 0
    else if combo == "ctrl+b" then 1
    else if combo == "ctrl+," then 2
    else if combo == "ctrl+space" then 3
    else if combo == "ctrl+arrowright" then 4
    else if combo == "ctrl+arrowleft" then 5
    else 6
  }

  function VideoOwner(combo: string): nat {
    if combo == "space" || combo == "k" then 0
    else if combo == "arrowleft" || combo == "j" then 1
    else if combo == "arrowright" || combo == "l" then 2
    else if combo == "arrowup" then 3
    else if combo == "arrowdown" then 4
    else if combo == "m" then 5
    else if combo == "c" then 6
    else if combo == "f" then 7
    else if combo == "n" then 8
    else 9
  }

  function ReaderOwner(combo: string): nat {
    if combo == "arrowright" then 0
    else if combo == "arrowleft" then 1
    else if combo == "arrowup" || combo == "pageup" then 2
    else if combo == "arrowdown" || combo == "pagedown" || combo == "space" then 3
    else if combo == "home" then 4
    else if combo == "end" then 5
    else if combo == "m" then 6
    else if combo == "f" then 7
    else if combo == "plus" || combo == "=" then 8
    else if combo == "-" then 9
    else if combo == "0" then 10
    else if combo == "g" then 11
    else if combo == "s" then 12
    else if combo == "z" then 13
    else if combo == "[" then 14
    else if combo == "]" then 15
    else 16
  }

  /** As many combinations as slots at most, all different. */
  predicate Fits(a: Action) {
    |a.defaults| <= a.slots && forall i, j | 0 <= i < j < |a.defaults| :: a.defaults[i] != a.defaults[j]
  }

  lemma {:induction false} VideoDefaultsFit(i: nat)
    requires i < |VIDEO_ACTIONS|
    ensures Fits(VIDEO_ACTIONS[i])
  {
  }

  lemma {:induction false} ReaderDefaultsFit(i: nat)
    requires i < |READER_ACTIONS|
    ensures Fits(READER_ACTIONS[i])
  {
  }

  lemma {:induction false} VideoDefault(i: nat, combo: string)
    requires i < |VIDEO_ACTIONS| && combo in VIDEO_ACTIONS[i].defaults
    ensures VideoOwner(combo) == i && IsPlain(combo)
  {
  }

  lemma {:induction false} ReaderDefault(i: nat, combo: string)
    requires i < |READER_ACTIONS| && combo in READER_ACTIONS[i].defaults
    ensures ReaderOwner(combo) == i && IsPlain(combo)
  {
  }

  lemma {:induction false} AlwaysLiveDefaultsFit(i: nat)
    requires i < |ALWAYS_LIVE_ACTIONS|
    ensures Fits(ALWAYS_LIVE_ACTIONS[i]) && AlwaysLive(ALWAYS_LIVE_ACTIONS[i].scope)
  {
  }

  lemma {:induction false} AlwaysLiveDefault(i: nat, combo: string)
    requires i < |ALWAYS_LIVE_ACTIONS| && combo in ALWAYS_LIVE_ACTIONS[i].defaults
    ensures AlwaysLiveOwner(combo) == i && IsCtrlPlain(combo)
  {
  }

  lemma {:induction false} CtrlPlainKey(combo: string)
    requires IsCtrlPlain(combo)
    ensures combo == "ctrl+" + combo[5..] && IsPlain(combo[5..])
  {
    var key := combo[5..];
    assert combo == "ctrl+" + key;
    assert "ctrl+" + "ctrl" == "ctrl+ctrl" && "ctrl+" + "meta" == "ctrl+meta";
    assert "ctrl+" + "alt" == "ctrl+alt" && "ctrl+" + "shift" == "ctrl+shift";
  }

  lemma {:induction false} PlainIsKey(key: string)
    requires IsPlain(key)
    ensures IsKey(key) && '+' !in key && (forall i | 0 <= i < |key| :: IsLowerChar(key[i])) && Units(key) == |key| <= 20
  {
    TrimmedStays(key, IsScriptSpace);
    PlainUnits(key);
  }

  lemma {:induction false} PlainIsNormal(key: string)
    requires IsPlain(key)
    ensures InNormalForm(key) && key != []
  {
    hide Normalize;
    PlainIsKey(key);
    assert Ordered({}, key) == [key];
    NormalFormIsFixed({}, key);
  }

  lemma {:induction false} CtrlFirst(key: string)
    ensures Ordered({"ctrl"}, key) == ["ctrl", key]
    ensures ModifierWeight({"ctrl"}) == 5
  {
  }

  lemma {:induction false} JoinTwo(first: string, second: string)
    ensures Join([first, second]) == first + "+" + second
  {
    assert [first, second][1..] == [second];
  }

  lemma {:induction false} CtrlIsNormal(key: string)
    requires IsPlain(key)
    ensures InNormalForm("ctrl+" + key)
  {
    hide Normalize, Ordered, ModifierWeight, Join;
    PlainIsKey(key);
    OrderedWeight({"ctrl"}, key);
    JoinUnits(Ordered({"ctrl"}, key));
    CtrlFirst(key);
    JoinTwo("ctrl", key);
    NormalFormIsFixed({"ctrl"}, key);
    assert "ctrl" + "+" == "ctrl+";
  }

  lemma {:induction false} ReaderIsGood(i: nat)
    requires i < |READER_ACTIONS|
    ensures GoodList(READER_ACTIONS[i].defaults, READER_ACTIONS[i].slots) && AllInNormalForm(READER_ACTIONS[i].defaults)
    ensures forall c | c in READER_ACTIONS[i].defaults :: ReaderOwner(c) == i && '+' !in c
  {
    ReaderDefaultsFit(i);
    hide InNormalForm, Normalize, READER_ACTIONS, ReaderOwner;
    forall c | c in READER_ACTIONS[i].defaults
      ensures InNormalForm(c) && c != [] && '+' !in c && ReaderOwner(c) == i
    {
      ReaderDefault(i, c);
      PlainIsNormal(c);
      PlainIsKey(c);
    }
  }

  lemma {:induction false} VideoIsGood(i: nat)
    requires i < |VIDEO_ACTIONS|
    ensures GoodList(VIDEO_ACTIONS[i].defaults, VIDEO_ACTIONS[i].slots) && AllInNormalForm(VIDEO_ACTIONS[i].defaults)
    ensures forall c | c in VIDEO_ACTIONS[i].defaults :: VideoOwner(c) == i && '+' !in c
  {
    VideoDefaultsFit(i);
    hide InNormalForm, Normalize, VIDEO_ACTIONS, VideoOwner;
    forall c | c in VIDEO_ACTIONS[i].defaults
      ensures InNormalForm(c) && c != [] && '+' !in c && VideoOwner(c) == i
    {
      VideoDefault(i, c);
      PlainIsNormal(c);
      PlainIsKey(c);
    }
  }

  lemma {:induction false} AlwaysLiveIsGood(i: nat)
    requires i < |ALWAYS_LIVE_ACTIONS|
    ensures GoodList(ALWAYS_LIVE_ACTIONS[i].defaults, ALWAYS_LIVE_ACTIONS[i].slots)
    ensures AllInNormalForm(ALWAYS_LIVE_ACTIONS[i].defaults)
    ensures forall c | c in ALWAYS_LIVE_ACTIONS[i].defaults :: AlwaysLiveOwner(c) == i && '+' in c
  {
    AlwaysLiveDefaultsFit(i);
    hide InNormalForm, Normalize, ALWAYS_LIVE_ACTIONS, AlwaysLiveOwner;
    forall c | c in ALWAYS_LIVE_ACTIONS[i].defaults
      ensures InNormalForm(c) && c != [] && '+' in c && AlwaysLiveOwner(c) == i
    {
      AlwaysLiveDefault(i, c);
      CtrlPlainKey(c);
      CtrlIsNormal(c[5..]);
    }
  }

  /** Where an action stands: its list, and its place in it. */
  datatype Place = AlwaysLiveAt(i: nat) | VideoAt(i: nat) | ReaderAt(i: nat)

  ghost predicate StandsAt(a: Action, place: Place) {
    match place
    case AlwaysLiveAt(i) => i < |ALWAYS_LIVE_ACTIONS| && ALWAYS_LIVE_ACTIONS[i] == a
    case VideoAt(i) => i < |VIDEO_ACTIONS| && VIDEO_ACTIONS[i] == a
    case ReaderAt(i) => i < |READER_ACTIONS| && READER_ACTIONS[i] == a
  }

  lemma {:induction false} PlaceInLists(a: Action) returns (place: Place)
    requires a in ACTIONS
    ensures StandsAt(a, place)
  {
    hide ALWAYS_LIVE_ACTIONS, VIDEO_ACTIONS, READER_ACTIONS;
    if a in ALWAYS_LIVE_ACTIONS {
      var i :| 0 <= i < |ALWAYS_LIVE_ACTIONS| && ALWAYS_LIVE_ACTIONS[i] == a;
      place := AlwaysLiveAt(i);
    } else if a in VIDEO_ACTIONS {
      var i :| 0 <= i < |VIDEO_ACTIONS| && VIDEO_ACTIONS[i] == a;
      place := VideoAt(i);
    } else {
      var i :| 0 <= i < |READER_ACTIONS| && READER_ACTIONS[i] == a;
      place := ReaderAt(i);
    }
  }

  lemma {:induction false} PlacedIsGood(a: Action, place: Place)
    requires StandsAt(a, place)
    ensures GoodList(a.defaults, a.slots) && AllInNormalForm(a.defaults)
    ensures a.id != [] && (place.VideoAt? <==> a.id[0] == 'v') && (place.ReaderAt? <==> a.id[0] == 'r')
    ensures match place
      case AlwaysLiveAt(i) => AlwaysLive(a.scope) && forall c | c in a.defaults :: '+' in c && AlwaysLiveOwner(c) == i
      case VideoAt(i) => a.scope.Video? && forall c | c in a.defaults :: '+' !in c && VideoOwner(c) == i
      case ReaderAt(i) => a.scope.Reader? && forall c | c in a.defaults :: '+' !in c && ReaderOwner(c) == i
  {
    AlwaysLiveActions();
    VideoActions();
    ReaderActions();
    hide InNormalForm, ALWAYS_LIVE_ACTIONS, VIDEO_ACTIONS, READER_ACTIONS, AlwaysLiveOwner, VideoOwner, ReaderOwner;
    match place {
      case AlwaysLiveAt(i) =>
        AlwaysLiveDefaultsFit(i);
        AlwaysLiveIsGood(i);
      case VideoAt(i) => VideoIsGood(i);
      case ReaderAt(i) => ReaderIsGood(i);
    }
  }

  lemma {:induction false} SameIdSamePlace(a: Action, b: Action, here: Place, there: Place)
    requires StandsAt(a, here) && StandsAt(b, there) && a.id == b.id
    ensures here == there
  {
    PlacedIsGood(a, here);
    PlacedIsGood(b, there);
    AlwaysLiveActions();
    VideoActions();
    ReaderActions();
    hide InNormalForm, ALWAYS_LIVE_ACTIONS, VIDEO_ACTIONS, READER_ACTIONS, AlwaysLiveOwner, VideoOwner, ReaderOwner;
  }

  lemma {:induction false} OtherPlaceOtherDefaults(a: Action, b: Action, here: Place, there: Place)
    requires StandsAt(a, here) && StandsAt(b, there) && here != there && Overlap(a.scope, b.scope)
    ensures Disjoint(a.defaults, b.defaults)
  {
    PlacedIsGood(a, here);
    PlacedIsGood(b, there);
    hide InNormalForm, ALWAYS_LIVE_ACTIONS, VIDEO_ACTIONS, READER_ACTIONS, AlwaysLiveOwner, VideoOwner, ReaderOwner;
  }

  lemma {:induction false} PlacesAreInOrder(i: nat) returns (place: Place)
    requires i < |ACTIONS|
    ensures StandsAt(ACTIONS[i], place)
    ensures i == match place
      case AlwaysLiveAt(k) => k
      case VideoAt(k) => |ALWAYS_LIVE_ACTIONS| + k
      case ReaderAt(k) => |ALWAYS_LIVE_ACTIONS| + |VIDEO_ACTIONS| + k
  {
    hide ALWAYS_LIVE_ACTIONS, VIDEO_ACTIONS, READER_ACTIONS;
    place :=
      if i < |ALWAYS_LIVE_ACTIONS| then AlwaysLiveAt(i)
      else if i < |ALWAYS_LIVE_ACTIONS| + |VIDEO_ACTIONS| then VideoAt(i - |ALWAYS_LIVE_ACTIONS|)
      else ReaderAt(i - |ALWAYS_LIVE_ACTIONS| - |VIDEO_ACTIONS|);
  }

  /** The shipped actions have unique identifiers and good defaults in normal form that conflict with no others. */
  lemma {:induction false} ShippedTableIsGood()
    ensures GoodTable(ACTIONS) && NormalDefaults(ACTIONS)
  {
    hide InNormalForm, ACTIONS, StandsAt, GoodList, AllInNormalForm;
    forall i, j | 0 <= i < j < |ACTIONS|
      ensures ACTIONS[i].id != ACTIONS[j].id
    {
      var here := PlacesAreInOrder(i);
      var there := PlacesAreInOrder(j);
      if ACTIONS[i].id == ACTIONS[j].id {
        SameIdSamePlace(ACTIONS[i], ACTIONS[j], here, there);
      }
    }
    forall a | a in ACTIONS
      ensures GoodList(a.defaults, a.slots) && AllInNormalForm(a.defaults)
    {
      var place := PlaceInLists(a);
      PlacedIsGood(a, place);
    }
    forall a, b | a in ACTIONS && b in ACTIONS && a.id != b.id && Overlap(a.scope, b.scope)
      ensures Disjoint(a.defaults, b.defaults)
    {
      var here := PlaceInLists(a);
      var there := PlaceInLists(b);
      SamePlaceSameAction(a, b, here, there);
      OtherPlaceOtherDefaults(a, b, here, there);
    }
  }

  lemma {:induction false} SamePlaceSameAction(a: Action, b: Action, here: Place, there: Place)
    requires StandsAt(a, here) && StandsAt(b, there)
    ensures here == there ==> a == b
  {
    hide ALWAYS_LIVE_ACTIONS, VIDEO_ACTIONS, READER_ACTIONS;
  }
}
