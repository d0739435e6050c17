/** Which chords ND may claim system-wide. */
module Shortcuts {
  import opened Accelerator
  import opened Basics

  datatype Id = QuickLauncher | AreaCapture | FullCapture | DelayedCapture

  const IDS: seq<Id> := [QuickLauncher, AreaCapture, FullCapture, DelayedCapture]

  function Default(id: Id): string {
    match id
    case QuickLauncher => "CommandOrControl+Shift+Space"
    case AreaCapture => "CommandOrControl+Alt+A"
    case FullCapture => "CommandOrControl+Alt+C"
    case DelayedCapture => "CommandOrControl+Alt+Shift+C"
  }

  function DefaultChord(id: Id): Chord {
    match id
    case QuickLauncher => Chord({CommandOrControl, Shift}, "Space")
    case AreaCapture => Chord({CommandOrControl, Alt}, "A")
    case FullCapture => Chord({CommandOrControl, Alt}, "C")
    case DelayedCapture => Chord({CommandOrControl, Alt, Shift}, "C")
  }

  datatype Platform = Darwin | Win32 | Linux

  datatype Conflict = Unsupported | OsReserved | NdReserved | InsufficientModifiers | Duplicate(owner: Id)

  const MEDIA_KEYS: set<string> :=
    {"MediaPlayPause", "MediaStop", "MediaNextTrack", "MediaPreviousTrack", "VolumeUp", "VolumeDown", "VolumeMute"}

  /** Single chords each system keeps for itself. */
  function ReservedChords(platform: Platform): seq<Chord> {
    match platform
    case Darwin => [
      Chord({CommandOrControl}, "Space"), Chord({CommandOrControl}, "Tab"), Chord({CommandOrControl, Shift}, "Tab"),
      Chord({CommandOrControl, Alt}, "Space"), Chord({CommandOrControl, Shift}, "3"),
      Chord({CommandOrControl, Shift}, "4"), Chord({CommandOrControl, Shift}, "5"),
      Chord({CommandOrControl, Alt}, "Escape"), Chord({CommandOrControl, Control}, "Q"),
      Chord({CommandOrControl, Alt}, "D"), Chord({Control}, "Up"), Chord({Control}, "Down"),
      Chord({Control}, "Left"), Chord({Control}, "Right")
    ]
    case Win32 => [
      Chord({CommandOrControl, Alt}, "Delete"), Chord({CommandOrControl, Shift}, "Escape"), Chord({Alt}, "F4"),
      Chord({}, "PrintScreen"), Chord({Alt}, "PrintScreen")
    ]
    case Linux => [
      Chord({CommandOrControl, Alt}, "T"), Chord({CommandOrControl, Alt}, "Delete"),
      Chord({CommandOrControl, Alt}, "Up"), Chord({CommandOrControl, Alt}, "Down"),
      Chord({CommandOrControl, Alt}, "Left"), Chord({CommandOrControl, Alt}, "Right"),
      Chord({}, "PrintScreen"), Chord({Alt}, "PrintScreen"), Chord({Shift}, "PrintScreen")
    ]
  }

  /** Ctrl+Alt+F1 to F12 switch virtual consoles. */
  predicate SwitchesConsole(c: Chord) {
    && CommandOrControl in c.modifiers && Alt in c.modifiers && Shift !in c.modifiers && Super !in c.modifiers
    && |c.key| > 0 && c.key[0] == 'F'
    && ((|c.key| == 2 && '1' <= c.key[1] <= '9') || (|c.key| == 3 && c.key[1] == '1' && '0' <= c.key[2] <= '2'))
  }

  predicate OsReserves(c: Chord, platform: Platform) {
    || (Super in c.modifiers && platform != Darwin)
    || (platform == Linux && SwitchesConsole(c))
    || exists i :: 0 <= i < |ReservedChords(platform)| && Serialize(ReservedChords(platform)[i]) == Serialize(c)
  }

  predicate NdReserves(c: Chord) {
    && (CommandOrControl in c.modifiers || Control in c.modifiers)
    && Shift !in c.modifiers
    && ((Alt in c.modifiers && c.key == "E") || (Alt !in c.modifiers && c.key == "K"))
  }

  predicate IsSelfSufficient(key: string) {
    IsFunctionKey(key) || key in MEDIA_KEYS
  }

  /** The first action, in order, that has this accelerator. */
  function OwnerOf(taken: map<Id, string>, accelerator: string, ids: seq<Id>): Option<Id> {
    if ids == [] then None
    else if ids[0] in taken && taken[ids[0]] == accelerator then Some(ids[0])
    else OwnerOf(taken, accelerator, ids[1..])
  }

  function FindConflict(c: Chord, platform: Platform, taken: map<Id, string>): Option<Conflict> {
    if !IsKeyToken(c.key) then Some(Unsupported)
    else if OsReserves(c, platform) then Some(OsReserved)
    else if NdReserves(c) then Some(NdReserved)
    else if !IsSelfSufficient(c.key) && |c.modifiers| < 2 then Some(InsufficientModifiers)
    else match OwnerOf(taken, Serialize(c), IDS)
      case Some(owner) => Some(Duplicate(owner))
      case None => None
  }

  // ---------- What the string comparisons decide ----------

  /** Bindings are stored in canonical spelling. */
  ghost predicate AllCanonical(bindings: map<Id, string>) {
    forall id {:trigger Canon(bindings[id])} :: id in bindings ==> Canon(bindings[id]) == Some(bindings[id])
  }

  lemma EveryIdIsListed(id: Id)
    ensures id in IDS
  {
    match id
    case QuickLauncher => assert IDS[0] == id;
    case AreaCapture => assert IDS[1] == id;
    case FullCapture => assert IDS[2] == id;
    case DelayedCapture => assert IDS[3] == id;
  }

  lemma {:induction false} OwnerIsFound(taken: map<Id, string>, accelerator: string, ids: seq<Id>)
    ensures var owner := OwnerOf(taken, accelerator, ids);
            && (owner.Some? ==> owner.value in taken && taken[owner.value] == accelerator)
            && (owner.None? ==> forall id :: id in ids && id in taken ==> taken[id] != accelerator)
  {
    if ids != [] {
      OwnerIsFound(taken, accelerator, ids[1..]);
    }
  }

  lemma ReservedKeysAreTokens(platform: Platform)
    ensures forall i :: 0 <= i < |ReservedChords(platform)| ==> IsKeyToken(ReservedChords(platform)[i].key)
  {
    assert IsFunctionKey("F4");
  }

  /** What macOS keeps: the chords of its menus, screenshots and Spaces. */
  predicate DarwinKeeps(c: Chord) {
    || (c.modifiers == {CommandOrControl} && c.key in ["Space", "Tab"])
    || (c.modifiers == {CommandOrControl, Shift} && c.key in ["Tab", "3", "4", "5"])
    || (c.modifiers == {CommandOrControl, Alt} && c.key in ["Space", "Escape", "D"])
    || (c.modifiers == {CommandOrControl, Control} && c.key == "Q")
    || (c.modifiers == {Control} && c.key in ["Up", "Down", "Left", "Right"])
  }

  /** What Windows keeps, besides everything with the Windows key. */
  predicate WindowsKeeps(c: Chord) {
    || (c.modifiers == {CommandOrControl, Alt} && c.key == "Delete")
    || (c.modifiers == {CommandOrControl, Shift} && c.key == "Escape")
    || (c.modifiers == {Alt} && c.key in ["F4", "PrintScreen"])
    || (c.modifiers == {} && c.key == "PrintScreen")
  }

  /** What a Linux desktop keeps, besides everything with the Super key: the consoles come with or without Control. */
  predicate LinuxKeeps(c: Chord) {
    || (c.modifiers == {CommandOrControl, Alt} && c.key in ["T", "Delete", "Up", "Down", "Left", "Right"])
    || ((c.modifiers == {} || c.modifiers == {Alt} || c.modifiers == {Shift}) && c.key == "PrintScreen")
    || ((c.modifiers == {CommandOrControl, Alt} || c.modifiers == {CommandOrControl, Control, Alt})
        && c.key in ["F1", "F2", "F3", "F4", "F5", "F6", "F7", "F8", "F9", "F10", "F11", "F12"])
  }

  /** The chord itself is one the system keeps. */
  predicate OsKeeps(c: Chord, platform: Platform) {
    match platform
    case Darwin => DarwinKeeps(c)
    case Win32 => Super in c.modifiers || WindowsKeeps(c)
    case Linux => Super in c.modifiers || LinuxKeeps(c)
  }

  lemma ConsoleKeysByName(key: string)
    ensures |key| > 0 && key[0] == 'F'
            && ((|key| == 2 && '1' <= key[1] <= '9') || (|key| == 3 && key[1] == '1' && '0' <= key[2] <= '2'))
            <==> key in ["F1", "F2", "F3", "F4", "F5", "F6", "F7", "F8", "F9", "F10", "F11", "F12"]
  {
    if |key| == 2 {
      assert key == [key[0], key[1]];
    } else if |key| == 3 {
      assert key == [key[0], key[1], key[2]];
    }
  }

  lemma ConsolesByName(c: Chord)
    ensures SwitchesConsole(c)
            <==> (c.modifiers == {CommandOrControl, Alt} || c.modifiers == {CommandOrControl, Control, Alt})
                 && c.key in ["F1", "F2", "F3", "F4", "F5", "F6", "F7", "F8", "F9", "F10", "F11", "F12"]
  {
    ConsoleKeysByName(c.key);
    if CommandOrControl in c.modifiers && Alt in c.modifiers && Shift !in c.modifiers && Super !in c.modifiers {
      var named := if Control in c.modifiers then {CommandOrControl, Control, Alt} else {CommandOrControl, Alt};
      forall m: Modifier ensures m in c.modifiers <==> m in named {
        match m case CommandOrControl => case Control => case Alt => case Shift => case Super =>
      }
      assert c.modifiers == named;
    }
  }

  lemma DarwinByName(c: Chord)
    ensures c in ReservedChords(Darwin) <==> DarwinKeeps(c)
  {
    var table := ReservedChords(Darwin);
    DarwinMenusByName(c);
    DarwinSpacesByName(c);
    assert table == table[..7] + table[7..];
  }

  lemma DarwinMenusByName(c: Chord)
    ensures c in ReservedChords(Darwin)[..7]
            <==> || (c.modifiers == {CommandOrControl} && c.key in ["Space", "Tab"])
                 || (c.modifiers == {CommandOrControl, Shift} && c.key in ["Tab", "3", "4", "5"])
                 || (c.modifiers == {CommandOrControl, Alt} && c.key == "Space")
  {
    var cmd := CommandOrControl;
    assert ReservedChords(Darwin)[..7]
        == [Chord({cmd}, "Space"), Chord({cmd}, "Tab"), Chord({cmd, Shift}, "Tab"), Chord({cmd, Alt}, "Space"),
            Chord({cmd, Shift}, "3"), Chord({cmd, Shift}, "4"), Chord({cmd, Shift}, "5")];
  }

  lemma DarwinSpacesByName(c: Chord)
    ensures c in ReservedChords(Darwin)[7..]
            <==> || (c.modifiers == {CommandOrControl, Alt} && c.key in ["Escape", "D"])
                 || (c.modifiers == {CommandOrControl, Control} && c.key == "Q")
                 || (c.modifiers == {Control} && c.key in ["Up", "Down", "Left", "Right"])
  {
    var cmd := CommandOrControl;
    assert ReservedChords(Darwin)[7..]
        == [Chord({cmd, Alt}, "Escape"), Chord({cmd, Control}, "Q"), Chord({cmd, Alt}, "D"), Chord({Control}, "Up"),
            Chord({Control}, "Down"), Chord({Control}, "Left"), Chord({Control}, "Right")];
  }

  lemma WindowsByName(c: Chord)
    ensures c in ReservedChords(Win32) <==> WindowsKeeps(c)
  {
  }

  lemma LinuxByName(c: Chord)
    ensures c in ReservedChords(Linux) || SwitchesConsole(c) <==> LinuxKeeps(c)
  {
    ConsolesByName(c);
  }

  lemma KeptByName(c: Chord, platform: Platform)
    ensures OsKeeps(c, platform)
            <==> || (Super in c.modifiers && platform != Darwin) || (platform == Linux && SwitchesConsole(c))
                 || c in ReservedChords(platform)
  {
    match platform
    case Darwin => DarwinByName(c);
    case Win32 => WindowsByName(c);
    case Linux => LinuxByName(c);
  }

  lemma SelfSufficientByName(key: string)
    ensures IsSelfSufficient(key)
            <==> || (key != "" && key[0] == 'F' && IsUpTo24(key[1..]))
                 || key in ["MediaPlayPause", "MediaStop", "MediaNextTrack", "MediaPreviousTrack", "VolumeUp",
                            "VolumeDown", "VolumeMute"]
  {
    FunctionKeysByName(key);
  }

  /** ND's inspect key, with Alt and E, and its launcher key, with K, in any window. */
  predicate NdKeeps(c: Chord) {
    && (CommandOrControl in c.modifiers || Control in c.modifiers) && Shift !in c.modifiers
    && if Alt in c.modifiers then c.key == "E" else c.key == "K"
  }

  /** Two modifiers, or a key that needs none: a function or media key. */
  predicate IsStrong(c: Chord) {
    || |c.modifiers| >= 2
    || (c.key != "" && c.key[0] == 'F' && IsUpTo24(c.key[1..]))
    || c.key in ["MediaPlayPause", "MediaStop", "MediaNextTrack", "MediaPreviousTrack", "VolumeUp", "VolumeDown",
                 "VolumeMute"]
  }

  lemma GuardsByName(c: Chord, platform: Platform)
    requires IsKeyToken(c.key)
    ensures OsReserves(c, platform) <==> OsKeeps(c, platform)
    ensures NdReserves(c) <==> NdKeeps(c)
    ensures IsSelfSufficient(c.key) || |c.modifiers| >= 2 <==> IsStrong(c)
  {
    SelfSufficientByName(c.key);
    ReservedByChord(c, platform);
  }

  /** Among canonical bindings, comparing spellings decides about chords: a chord is free exactly when its key is known,
      neither the system nor ND keeps it, it is strong enough, and no other action is bound to that chord. */
  lemma ConflictFreeIff(c: Chord, platform: Platform, taken: map<Id, string>)
    requires AllCanonical(taken)
    ensures FindConflict(c, platform, taken) == None
            <==> && IsKeyToken(c.key) && !OsKeeps(c, platform) && !NdKeeps(c) && IsStrong(c)
                 && forall id :: id in taken ==> Parse(taken[id]) != Some(c)
  {
    if IsKeyToken(c.key) {
      GuardsByName(c, platform);
      TakenByChord(c, taken);
    }
  }

  /** And the reason that is given is the first of them that applies. */
  lemma ConflictIsTheFirst(c: Chord, platform: Platform, taken: map<Id, string>)
    requires AllCanonical(taken)
    ensures match FindConflict(c, platform, taken)
            case Some(Unsupported) => !IsKeyToken(c.key)
            case Some(OsReserved) => IsKeyToken(c.key) && OsKeeps(c, platform)
            case Some(NdReserved) => IsKeyToken(c.key) && !OsKeeps(c, platform) && NdKeeps(c)
            case Some(InsufficientModifiers) =>
              IsKeyToken(c.key) && !OsKeeps(c, platform) && !NdKeeps(c) && !IsStrong(c)
            case Some(Duplicate(owner)) =>
              && IsKeyToken(c.key) && !OsKeeps(c, platform) && !NdKeeps(c) && IsStrong(c)
              && owner in taken && Parse(taken[owner]) == Some(c)
            case None => true
  {
    if IsKeyToken(c.key) {
      GuardsByName(c, platform);
      OwnerIsFound(taken, Serialize(c), IDS);
      ParseSerialize(c);
    }
  }

  lemma ReservedByChord(c: Chord, platform: Platform)
    requires IsKeyToken(c.key)
    ensures OsReserves(c, platform) <==> OsKeeps(c, platform)
  {
    var table := ReservedChords(platform);
    ReservedKeysAreTokens(platform);
    KeptByName(c, platform);
    forall i | 0 <= i < |table| ensures Serialize(table[i]) == Serialize(c) <==> table[i] == c {
      SerializeIsInjective(table[i], c);
    }
  }

  lemma TakenByChord(c: Chord, taken: map<Id, string>)
    requires IsKeyToken(c.key) && AllCanonical(taken)
    ensures OwnerOf(taken, Serialize(c), IDS) == None <==> forall id :: id in taken ==> Parse(taken[id]) != Some(c)
  {
    OwnerIsFound(taken, Serialize(c), IDS);
    ParseSerialize(c);
    forall id | id in taken ensures taken[id] == Serialize(c) <==> Parse(taken[id]) == Some(c) {
      assert Canon(taken[id]) == Some(taken[id]);
    }
    forall id | id in taken ensures id in IDS {
      EveryIdIsListed(id);
    }
  }

  /** The shipped bindings are canonical. */
  lemma DefaultsAreCanonical(id: Id)
    ensures Parse(Default(id)) == Some(DefaultChord(id)) && Canon(Default(id)) == Some(Default(id))
  {
    DefaultIsPrinted(id);
    DefaultKeyIsToken(id);
    ParseSerialize(DefaultChord(id));
  }

  lemma DefaultChordsDiffer(a: Id, b: Id)
    requires DefaultChord(a) == DefaultChord(b)
    ensures a == b
  {
    assert Shift in DefaultChord(DelayedCapture).modifiers && Shift !in DefaultChord(FullCapture).modifiers;
    assert "A"[0] != "C"[0] && |"Space"| == 5;
  }

  /** And they ask for different chords. */
  lemma DefaultsDiffer(a: Id, b: Id)
    ensures Parse(Default(a)) == Parse(Default(b)) ==> a == b
  {
    DefaultsAreCanonical(a);
    DefaultsAreCanonical(b);
    if DefaultChord(a) == DefaultChord(b) {
      DefaultChordsDiffer(a, b);
    }
  }

  lemma NobodyKeepsDefaults(id: Id, platform: Platform)
    ensures !OsKeeps(DefaultChord(id), platform) && !NdKeeps(DefaultChord(id)) && IsStrong(DefaultChord(id))
  {
    assert CommandOrControl in DefaultChord(id).modifiers && Super !in DefaultChord(id).modifiers;
    assert Alt in DefaultChord(id).modifiers || Shift in DefaultChord(id).modifiers;
    TwoModifiers(DefaultChord(id));
  }

  lemma OthersHaveOtherDefaults(id: Id, other: Id)
    requires other != id
    ensures Canon(Default(other)) == Some(Default(other)) && Parse(Default(other)) != Some(DefaultChord(id))
  {
    DefaultsAreCanonical(other);
    DefaultsAreCanonical(id);
    DefaultsDiffer(id, other);
  }

  /** And on every system each of them may be claimed, with the others taken. */
  lemma DefaultsMayBeClaimed(id: Id, platform: Platform, taken: map<Id, string>)
    requires forall other <- taken :: other != id && taken[other] == Default(other)
    ensures FindConflict(DefaultChord(id), platform, taken) == None
  {
    forall other <- taken {
      OthersHaveOtherDefaults(id, other);
    }
    DefaultKeyIsToken(id);
    NobodyKeepsDefaults(id, platform);
    ConflictFreeIff(DefaultChord(id), platform, taken);
  }

  lemma TwoModifiers(c: Chord)
    requires CommandOrControl in c.modifiers && (Alt in c.modifiers || Shift in c.modifiers)
    ensures |c.modifiers| >= 2
  {
    var second := if Alt in c.modifiers then Alt else Shift;
    var two := {CommandOrControl, second};
    assert c.modifiers == two + (c.modifiers - two);
  }

  lemma DefaultKeyIsToken(id: Id)
    ensures IsKeyToken(DefaultChord(id).key)
  {
  }

  /** The tokens of the shipped binding. */
  function DefaultParts(id: Id): seq<string> {
    match id
    case QuickLauncher => ["CommandOrControl", "Shift", "Space"]
    case AreaCapture => ["CommandOrControl", "Alt", "A"]
    case FullCapture => ["CommandOrControl", "Alt", "C"]
    case DelayedCapture => ["CommandOrControl", "Alt", "Shift", "C"]
  }

  lemma LaterModifiers()
    ensures MODIFIERS[1..] == [Control, Alt, Shift, Super]
    ensures [Control, Alt, Shift, Super][1..] == [Alt, Shift, Super]
    ensures [Alt, Shift, Super][1..] == [Shift, Super] && [Shift, Super][1..] == [Super] && [Super][1..] == []
  {
  }

  lemma DefaultHasParts(id: Id)
    ensures Parts(DefaultChord(id)) == DefaultParts(id)
  {
    var chosen := DefaultChord(id).modifiers;
    LaterModifiers();
    assert TokensOf([Super], chosen) == [];
    assert TokensOf([Shift, Super], chosen) == if Shift in chosen then ["Shift"] else [];
    assert TokensOf([Alt, Shift, Super], chosen)
        == (if Alt in chosen then ["Alt"] else []) + TokensOf([Shift, Super], chosen);
  }

  lemma DefaultPartsJoin(id: Id)
    ensures Join(DefaultParts(id)) == Default(id)
  {
    match id
    case QuickLauncher => JoinThree("CommandOrControl", "Shift", "Space");
    case AreaCapture => JoinThree("CommandOrControl", "Alt", "A");
    case FullCapture => JoinThree("CommandOrControl", "Alt", "C");
    case DelayedCapture =>
      JoinThree("Alt", "Shift", "C");
      assert DefaultParts(id)[1..] == ["Alt", "Shift", "C"];
  }

  lemma DefaultIsPrinted(id: Id)
    ensures Serialize(DefaultChord(id)) == Default(id)
  {
    DefaultHasParts(id);
    DefaultPartsJoin(id);
  }

  lemma JoinThree(a: string, b: string, c: string)
    ensures Join([a, b, c]) == a + "+" + (b + "+" + c)
  {
    assert [a, b, c][1..] == [b, c] && [b, c][1..] == [c];
    assert Join([b, c]) == b + "+" + Join([c]);
    assert a + "+" + (b + "+" + c) == a + "+" + Join([b, c]);
  }
}
