/** Key chords and their accelerator text: the parser, the printer and the round trips between them. */
module Accelerator {
  import opened Basics

  datatype Modifier = CommandOrControl | Control | Alt | Shift | Super

  datatype Chord = Chord(modifiers: set<Modifier>, key: string)

  /** The order in which modifiers are written. */
  const MODIFIERS: seq<Modifier> := [CommandOrControl, Control, Alt, Shift, Super]

  function ModifierToken(m: Modifier): string {
    match m
    case CommandOrControl => "CommandOrControl"
    case Control => "Control"
    case Alt => "Alt"
    case Shift => "Shift"
    case Super => "Super"
  }

  /** What a lower-case alias stands for. The alias table is a plain object, so two names every object
      inherits are found in it as well; they set no modifier. */
  datatype Alias = Sets(modifier: Modifier) | Inherited

  const ALIASES: map<string, Alias> := map[
    "commandorcontrol" := Sets(CommandOrControl),
    "cmdorctrl" := Sets(CommandOrControl),
    "command" := Sets(CommandOrControl),
    "cmd" := Sets(CommandOrControl),
    "control" := Sets(Control),
    "ctrl" := Sets(Control),
    "alt" := Sets(Alt),
    "option" := Sets(Alt),
    "shift" := Sets(Shift),
    "super" := Sets(Super),
    "meta" := Sets(Super),
    "constructor" := Inherited,
    "__proto__" := Inherited
  ]

  const NAMED_KEYS: map<string, string> := map[
    "Space" := "Space", "Tab" := "Tab", "Enter" := "Enter", "NumpadEnter" := "Enter", "Escape" := "Escape",
    "Backspace" := "Backspace", "Delete" := "Delete", "Insert" := "Insert", "Home" := "Home", "End" := "End",
    "PageUp" := "PageUp", "PageDown" := "PageDown", "ArrowUp" := "Up", "ArrowDown" := "Down",
    "ArrowLeft" := "Left", "ArrowRight" := "Right", "PrintScreen" := "PrintScreen", "Minus" := "Minus",
    "Equal" := "Equal", "Comma" := "Comma", "Period" := "Period", "Slash" := "Slash", "Backslash" := "Backslash",
    "Backquote" := "Backquote", "Semicolon" := "Semicolon", "Quote" := "Quote",
    "MediaPlayPause" := "MediaPlayPause", "MediaStop" := "MediaStop", "MediaTrackNext" := "MediaNextTrack",
    "MediaTrackPrevious" := "MediaPreviousTrack", "AudioVolumeUp" := "VolumeUp", "AudioVolumeDown" := "VolumeDown",
    "AudioVolumeMute" := "VolumeMute"
  ]

  const NAMED_TOKENS: set<string> := {
    "Space", "Tab", "Enter", "Escape", "Backspace", "Delete", "Insert", "Home", "End", "PageUp", "PageDown",
    "Up", "Down", "Left", "Right", "PrintScreen", "Minus", "Equal", "Comma", "Period", "Slash", "Backslash",
    "Backquote", "Semicolon", "Quote", "MediaPlayPause", "MediaStop", "MediaNextTrack", "MediaPreviousTrack",
    "VolumeUp", "VolumeDown", "VolumeMute"
  }

  /** F1 to F24. */
  predicate IsFunctionKey(s: string) {
    && |s| > 0 && s[0] == 'F'
    && ((|s| == 2 && '1' <= s[1] <= '9')
        || (|s| == 3 && s[1] == '1' && '0' <= s[2] <= '9')
        || (|s| == 3 && s[1] == '2' && '0' <= s[2] <= '4'))
  }

  /** The token a physical key code stands for. */
  function KeyToken(code: string): Option<string> {
    if |code| == 4 && code[..3] == "Key" && 'A' <= code[3] <= 'Z' then Some([code[3]])
    else if |code| == 6 && code[..5] == "Digit" && '0' <= code[5] <= '9' then Some([code[5]])
    else if IsFunctionKey(code) then Some(code)
    else if code in NAMED_KEYS then Some(NAMED_KEYS[code])
    else None
  }

  predicate IsKeyToken(s: string) {
    || (|s| == 1 && ('A' <= s[0] <= 'Z' || '0' <= s[0] <= '9'))
    || IsFunctionKey(s)
    || s in NAMED_TOKENS
  }

  /** The tokens are exactly what the codes stand for. */
  lemma TokensAreTheCodesValues(s: string)
    ensures IsKeyToken(s) <==> exists code :: KeyToken(code) == Some(s)
  {
    if IsKeyToken(s) {
      var code := CodeFor(s);
      assert KeyToken(code) == Some(s);
    }
  }

  function CodeFor(s: string): (code: string)
    requires IsKeyToken(s)
    ensures KeyToken(code) == Some(s)
  {
    if s in NAMED_TOKENS then NamedCode(s)
    else if IsFunctionKey(s) then s
    else if 'A' <= s[0] <= 'Z' then
      assert ("Key" + s)[..3] == "Key" && [("Key" + s)[3]] == s;
      "Key" + s
    else
      assert ("Digit" + s)[..5] == "Digit" && [("Digit" + s)[5]] == s;
      "Digit" + s
  }

  function NamedCode(s: string): (code: string)
    requires s in NAMED_TOKENS
    ensures code in NAMED_KEYS && NAMED_KEYS[code] == s
    ensures KeyToken(code) == Some(s)
  {
    if s == "Up" then "ArrowUp"
    else if s == "Down" then "ArrowDown"
    else if s == "Left" then "ArrowLeft"
    else if s == "Right" then "ArrowRight"
    else if s == "VolumeUp" then "AudioVolumeUp"
    else if s == "VolumeDown" then "AudioVolumeDown"
    else if s == "VolumeMute" then "AudioVolumeMute"
    else if s == "MediaNextTrack" then "MediaTrackNext"
    else if s == "MediaPreviousTrack" then "MediaTrackPrevious"
    else s
  }

  // ---------- Text ----------

  function LowerChar(c: char): char {
    if 'A' <= c <= 'Z' then c - 'A' + 'a' else c
  }

  /** Lower case of the letters an alias can contain; other letters never make an alias. */
  function Lower(s: string): (r: string)
    ensures |r| == |s|
    ensures forall i :: 0 <= i < |s| ==> r[i] == LowerChar(s[i])
  {
    seq(|s|, i requires 0 <= i < |s| => LowerChar(s[i]))
  }

  /** `split('+')`: always at least one part. */
  function Split(s: string): (parts: seq<string>)
    ensures |parts| > 0
  {
    if s == "" then [""]
    else
      var rest := Split(s[1..]);
      if s[0] == '+' then [""] + rest else [[s[0]] + rest[0]] + rest[1..]
  }

  function Join(parts: seq<string>): string
    requires |parts| > 0
  {
    if |parts| == 1 then parts[0] else parts[0] + "+" + Join(parts[1..])
  }

  predicate NoPlus(s: string) {
    forall i :: 0 <= i < |s| ==> s[i] != '+'
  }

  lemma {:induction false} SplitBeforePlus(a: string, rest: string)
    requires NoPlus(a)
    ensures Split(a + "+" + rest) == [a] + Split(rest)
  {
    if a == "" {
      assert (a + "+" + rest)[1..] == rest;
    } else {
      assert (a + "+" + rest)[1..] == a[1..] + "+" + rest;
      SplitBeforePlus(a[1..], rest);
      assert [a[0]] + a[1..] == a;
    }
  }

  lemma {:induction false} SplitWithoutPlus(a: string)
    requires NoPlus(a)
    ensures Split(a) == [a]
  {
    if a != "" {
      SplitWithoutPlus(a[1..]);
      assert [a[0]] + a[1..] == a;
    }
  }

  /** Splitting undoes joining. */
  lemma {:induction false} SplitJoin(parts: seq<string>)
    requires |parts| > 0
    requires forall i :: 0 <= i < |parts| ==> NoPlus(parts[i])
    ensures Split(Join(parts)) == parts
  {
    if |parts| == 1 {
      SplitWithoutPlus(parts[0]);
    } else {
      SplitJoin(parts[1..]);
      SplitBeforePlus(parts[0], Join(parts[1..]));
    }
  }

  /** And joining undoes splitting: the parts are the text between the plus signs. */
  lemma {:induction false} JoinSplit(s: string)
    ensures Join(Split(s)) == s
    ensures forall i :: 0 <= i < |Split(s)| ==> NoPlus(Split(s)[i])
  {
    if s != "" {
      JoinSplit(s[1..]);
      var rest := Split(s[1..]);
      assert s == [s[0]] + s[1..];
      if s[0] == '+' {
        assert ([""] + rest)[1..] == rest;
        assert Join([""] + rest) == "" + "+" + Join(rest);
      } else {
        JoinedFront(s[0], rest);
      }
    }
  }

  lemma ThreeTexts(a: string, b: string, c: string, d: string)
    ensures (a + b) + c + d == a + (b + c + d)
  {
  }

  lemma JoinedFront(c: char, parts: seq<string>)
    requires |parts| > 0
    ensures Join([[c] + parts[0]] + parts[1..]) == [c] + Join(parts)
  {
    var more := [[c] + parts[0]] + parts[1..];
    if |parts| > 1 {
      assert more[1..] == parts[1..];
      ThreeTexts([c], parts[0], "+", Join(parts[1..]));
    }
  }

  // ---------- Parsing ----------

  /** The chord built so far; the key is set at most once. */
  datatype Partial = Rejected | Building(modifiers: set<Modifier>, key: Option<string>)

  function Canonical(part: string): Option<string> {
    match KeyToken(part)
    case Some(token) => Some(token)
    case None => if IsKeyToken(part) then Some(part) else None
  }

  function AliasOf(part: string): Option<Alias> {
    if Lower(part) in ALIASES then Some(ALIASES[Lower(part)]) else None
  }

  function Add(p: Partial, raw: string): Partial {
    if p.Rejected? then Rejected else AddPart(p, Trim(raw))
  }

  function AddPart(p: Partial, part: string): Partial
    requires p.Building?
  {
    if part == "" then Rejected
    else match AliasOf(part)
      case Some(Sets(m)) => Building(p.modifiers + {m}, p.key)
      case Some(Inherited) => p
      case None => AddKey(p, Canonical(part))
  }

  function AddKey(p: Partial, key: Option<string>): Partial
    requires p.Building?
  {
    if key.None? || p.key.Some? then Rejected else Building(p.modifiers, key)
  }

  function AddAll(p: Partial, parts: seq<string>): Partial
    decreases |parts|
  {
    if parts == [] then p else AddAll(Add(p, parts[0]), parts[1..])
  }

  function Finish(p: Partial): Option<Chord> {
    if p.Building? && p.key.Some? then Some(Chord(p.modifiers, p.key.value)) else None
  }

  function Parse(accelerator: string): Option<Chord> {
    var text := Trim(accelerator);
    if text == "" then None else Finish(AddAll(Building({}, None), Split(text)))
  }

  lemma {:induction false} AddLast(p: Partial, parts: seq<string>, raw: string)
    ensures AddAll(p, parts + [raw]) == Add(AddAll(p, parts), raw)
    decreases |parts|
  {
    if parts != [] {
      assert (parts + [raw])[1..] == parts[1..] + [raw];
      AddLast(Add(p, parts[0]), parts[1..], raw);
    }
  }

  lemma {:induction false} RejectedForGood(parts: seq<string>)
    ensures AddAll(Rejected, parts) == Rejected
  {
    if parts != [] {
      RejectedForGood(parts[1..]);
    }
  }

  /** The parser as written: one pass over the parts, giving up at the first bad one. */
  method ParseAccelerator(accelerator: string) returns (chord: Option<Chord>)
    ensures chord == Parse(accelerator)
  {
    var text := Trim(accelerator);
    if text == "" {
      return None;
    }
    var modifiers: set<Modifier> := {};
    var key: Option<string> := None;
    var parts := Split(text);
    for i := 0 to |parts|
      invariant AddAll(Building({}, None), parts[..i]) == Building(modifiers, key)
    {
      AddLast(Building({}, None), parts[..i], parts[i]);
      assert parts[..i + 1] == parts[..i] + [parts[i]];
      var part := Trim(parts[i]);
      if part == "" {
        Hopeless(parts, i + 1);
        return None;
      }
      match AliasOf(part)
      case Some(Sets(m)) =>
        modifiers := modifiers + {m};
      case Some(Inherited) =>
      case None =>
        var canonical := Canonical(part);
        if canonical.None? || key.Some? {
          Hopeless(parts, i + 1);
          return None;
        }
        key := canonical;
    }
    assert parts[..|parts|] == parts;
    chord := if key.None? then None else Some(Chord(modifiers, key.value));
  }

  lemma {:induction false} AddAllInTwo(p: Partial, a: seq<string>, b: seq<string>)
    ensures AddAll(p, a + b) == AddAll(AddAll(p, a), b)
    decreases |a|
  {
    if a == [] {
      assert a + b == b;
    } else {
      assert (a + b)[1..] == a[1..] + b;
      AddAllInTwo(Add(p, a[0]), a[1..], b);
    }
  }

  lemma Hopeless(parts: seq<string>, n: nat)
    requires n <= |parts|
    requires AddAll(Building({}, None), parts[..n]) == Rejected
    ensures AddAll(Building({}, None), parts) == Rejected
  {
    assert parts == parts[..n] + parts[n..];
    AddAllInTwo(Building({}, None), parts[..n], parts[n..]);
    RejectedForGood(parts[n..]);
  }

  // ---------- The tables, by name ----------

  /** The names of each modifier, in any case of their letters. */
  predicate IsNameOf(part: string, m: Modifier) {
    match m
    case CommandOrControl => Lower(part) in ["commandorcontrol", "cmdorctrl", "command", "cmd"]
    case Control => Lower(part) in ["control", "ctrl"]
    case Alt => Lower(part) in ["alt", "option"]
    case Shift => Lower(part) == "shift"
    case Super => Lower(part) in ["super", "meta"]
  }

  predicate IsInherited(part: string) {
    Lower(part) in ["constructor", "__proto__"]
  }

  lemma AliasesByName(part: string, m: Modifier)
    ensures AliasOf(part) == Some(Sets(m)) <==> IsNameOf(part, m)
    ensures AliasOf(part) == Some(Inherited) <==> IsInherited(part)
  {
  }

  /** The text of a number from 1 to 24. */
  predicate IsUpTo24(digits: string) {
    digits in ["1", "2", "3", "4", "5", "6", "7", "8", "9", "10", "11", "12", "13", "14", "15", "16", "17", "18", "19",
               "20", "21", "22", "23", "24"]
  }

  lemma FunctionKeysByName(s: string)
    ensures IsFunctionKey(s) <==> s != "" && s[0] == 'F' && IsUpTo24(s[1..])
  {
    if s != "" {
      assert |s| == 2 ==> s[1..] == [s[1]];
      assert |s| == 3 ==> s[1..] == [s[1], s[2]];
    }
  }

  /** The keys that are named by words. */
  predicate IsNamedKey(key: string) {
    key in ["Space", "Tab", "Enter", "Escape", "Backspace", "Delete", "Insert", "Home", "End", "PageUp", "PageDown",
            "Up", "Down", "Left", "Right", "PrintScreen", "Minus", "Equal", "Comma", "Period", "Slash", "Backslash",
            "Backquote", "Semicolon", "Quote", "MediaPlayPause", "MediaStop", "MediaNextTrack", "MediaPreviousTrack",
            "VolumeUp", "VolumeDown", "VolumeMute"]
  }

  lemma NamedKeysByName(key: string)
    ensures key in NAMED_TOKENS <==> IsNamedKey(key)
  {
  }

  /** The keys ND knows: letters, digits, F1 to F24 and those named by words. */
  lemma KeyTokensByName(s: string)
    ensures IsKeyToken(s)
            <==> || (|s| == 1 && ('A' <= s[0] <= 'Z' || '0' <= s[0] <= '9'))
                 || (s != "" && s[0] == 'F' && IsUpTo24(s[1..]))
                 || IsNamedKey(s)
  {
    FunctionKeysByName(s);
    NamedKeysByName(s);
  }

  /** Some keys have a physical code of another name. */
  predicate IsCodeOf(code: string, key: string) {
    || (|key| == 1 && 'A' <= key[0] <= 'Z' && code == "Key" + key)
    || (|key| == 1 && '0' <= key[0] <= '9' && code == "Digit" + key)
    || (code == "NumpadEnter" && key == "Enter")
    || (key in ["Up", "Down", "Left", "Right"] && code == "Arrow" + key)
    || (key in ["VolumeUp", "VolumeDown", "VolumeMute"] && code == "Audio" + key)
    || (code == "MediaTrackNext" && key == "MediaNextTrack")
    || (code == "MediaTrackPrevious" && key == "MediaPreviousTrack")
  }

  lemma CodesByName(code: string, key: string)
    ensures KeyToken(code) == Some(key) && code != key <==> IsCodeOf(code, key)
  {
    LetterCodesByName(code, key);
    if IsCodeOf(code, key) {
      CodeIsRead(code, key);
    }
    NamedCodesByName(code, key);
  }

  lemma LetterCodesByName(code: string, key: string)
    ensures |code| == 4 && code[..3] == "Key" && key == [code[3]] <==> |key| == 1 && code == "Key" + key
    ensures |code| == 6 && code[..5] == "Digit" && key == [code[5]] <==> |key| == 1 && code == "Digit" + key
  {
    if |code| == 4 && code[..3] == "Key" {
      assert code == code[..3] + [code[3]];
    }
    if |code| == 6 && code[..5] == "Digit" {
      assert code == code[..5] + [code[5]];
    }
  }

  lemma RenamedByName(code: string, key: string)
    requires code in NAMED_KEYS && NAMED_KEYS[code] == key && code != key
    ensures IsCodeOf(code, key)
  {
    assert "Arrow" + "Up" == "ArrowUp" && "Arrow" + "Down" == "ArrowDown";
    assert "Arrow" + "Left" == "ArrowLeft" && "Arrow" + "Right" == "ArrowRight";
    assert "Audio" + "VolumeUp" == "AudioVolumeUp" && "Audio" + "VolumeDown" == "AudioVolumeDown";
    assert "Audio" + "VolumeMute" == "AudioVolumeMute";
    if code !in RENAMED_CODES {
      OtherCodesNameThemselves(code);
    }
  }

  lemma NamedCodesByName(code: string, key: string)
    ensures KeyToken(code) == Some(key) && code != key ==> IsCodeOf(code, key)
  {
    LetterCodesByName(code, key);
    if code in NAMED_KEYS && NAMED_KEYS[code] == key && code != key {
      RenamedByName(code, key);
    }
  }

  lemma CodeIsRead(code: string, key: string)
    requires IsCodeOf(code, key)
    ensures KeyToken(code) == Some(key) && code != key
  {
    if |key| == 1 {
      LetterCodesByName(code, key);
    } else {
      WordCodeIsRead(code, key);
    }
  }

  lemma ArrowCodes(code: string, key: string)
    requires key in ["Up", "Down", "Left", "Right"] && code == "Arrow" + key
    ensures code in ["ArrowUp", "ArrowDown", "ArrowLeft", "ArrowRight"]
    ensures code in NAMED_KEYS && NAMED_KEYS[code] == key
  {
    assert "Arrow" + "Up" == "ArrowUp" && "Arrow" + "Down" == "ArrowDown";
    assert "Arrow" + "Left" == "ArrowLeft" && "Arrow" + "Right" == "ArrowRight";
  }

  lemma VolumeCodes(code: string, key: string)
    requires key in ["VolumeUp", "VolumeDown", "VolumeMute"] && code == "Audio" + key
    ensures code in ["AudioVolumeUp", "AudioVolumeDown", "AudioVolumeMute"]
    ensures code in NAMED_KEYS && NAMED_KEYS[code] == key
  {
    assert "Audio" + "VolumeUp" == "AudioVolumeUp" && "Audio" + "VolumeDown" == "AudioVolumeDown";
    assert "Audio" + "VolumeMute" == "AudioVolumeMute";
  }

  lemma RenamedCodesAreWords(code: string)
    requires code in RENAMED_CODES
    ensures code in NAMED_KEYS && NAMED_KEYS[code] != code
    ensures KeyToken(code) == Some(NAMED_KEYS[code])
  {
    assert |code| > 6 && code[0] != 'F';
  }

  lemma WordCodeIsRead(code: string, key: string)
    requires IsCodeOf(code, key) && |key| != 1
    ensures KeyToken(code) == Some(key) && code != key
  {
    if key in ["Up", "Down", "Left", "Right"] && code == "Arrow" + key {
      ArrowCodes(code, key);
    } else if key in ["VolumeUp", "VolumeDown", "VolumeMute"] && code == "Audio" + key {
      VolumeCodes(code, key);
    }
    RenamedCodesAreWords(code);
  }

  /** What a part that names no modifier stands for: a key under its own name or its physical code. */
  lemma KeysByName(part: string, key: string)
    ensures Canonical(part) == Some(key) <==> (part == key && IsKeyToken(key)) || IsCodeOf(part, key)
  {
    CodesByName(part, key);
    if part == key && IsKeyToken(key) {
      KeyTokensAreWords(key);
    }
  }

  // ---------- What the parser accepts ----------

  predicate IsKeyPart(raw: string) {
    AliasOf(Trim(raw)) == None
  }

  predicate IsGoodPart(raw: string) {
    Trim(raw) != "" && (IsKeyPart(raw) ==> Canonical(Trim(raw)).Some?)
  }

  ghost predicate OneKeyAtMost(parts: seq<string>) {
    forall i, j :: 0 <= i < j < |parts| && IsKeyPart(parts[i]) ==> !IsKeyPart(parts[j])
  }

  ghost predicate Holds(parts: seq<string>, m: Modifier) {
    exists i :: 0 <= i < |parts| && AliasOf(Trim(parts[i])) == Some(Sets(m))
  }

  ghost predicate Names(parts: seq<string>, key: string) {
    exists i :: 0 <= i < |parts| && IsKeyPart(parts[i]) && Canonical(Trim(parts[i])) == Some(key)
  }

  /** The order and the number of modifiers do not matter; the parts may hold one key. */
  ghost predicate Describes(parts: seq<string>, p: Partial) {
    && (p.Building? <==> (forall i :: 0 <= i < |parts| ==> IsGoodPart(parts[i])) && OneKeyAtMost(parts))
    && (p.Building? ==> forall m :: m in p.modifiers <==> Holds(parts, m))
    && (p.Building? ==> forall key :: p.key == Some(key) <==> Names(parts, key))
  }

  lemma HoldsOneMore(parts: seq<string>, raw: string, m: Modifier)
    ensures Holds(parts + [raw], m) <==> Holds(parts, m) || AliasOf(Trim(raw)) == Some(Sets(m))
  {
    var more := parts + [raw];
    assert more[|parts|] == raw;
    if i :| 0 <= i < |parts| && AliasOf(Trim(parts[i])) == Some(Sets(m)) {
      assert AliasOf(Trim(more[i])) == Some(Sets(m));
    }
  }

  lemma NamesOneMore(parts: seq<string>, raw: string, key: string)
    ensures Names(parts + [raw], key) <==> Names(parts, key) || (IsKeyPart(raw) && Canonical(Trim(raw)) == Some(key))
  {
    var more := parts + [raw];
    assert more[|parts|] == raw;
    if i :| 0 <= i < |parts| && IsKeyPart(parts[i]) && Canonical(Trim(parts[i])) == Some(key) {
      assert IsKeyPart(more[i]);
    }
  }

  lemma OneKeyOneMore(parts: seq<string>, raw: string)
    ensures OneKeyAtMost(parts + [raw])
            <==> OneKeyAtMost(parts) && (IsKeyPart(raw) ==> forall i :: 0 <= i < |parts| ==> !IsKeyPart(parts[i]))
  {
    var more := parts + [raw];
    assert more[|parts|] == raw;
    assert forall i :: 0 <= i < |parts| ==> more[i] == parts[i];
  }

  lemma GoodOneMore(parts: seq<string>, raw: string)
    ensures (forall i :: 0 <= i < |parts + [raw]| ==> IsGoodPart((parts + [raw])[i]))
            <==> (forall i :: 0 <= i < |parts| ==> IsGoodPart(parts[i])) && IsGoodPart(raw)
  {
    var more := parts + [raw];
    assert more[|parts|] == raw;
    assert forall i :: 0 <= i < |parts| ==> more[i] == parts[i];
  }

  lemma DescribesOneMore(parts: seq<string>, p: Partial, raw: string)
    requires Describes(parts, p)
    ensures Describes(parts + [raw], Add(p, raw))
  {
    GoodOneMore(parts, raw);
    OneKeyOneMore(parts, raw);
    forall m {
      HoldsOneMore(parts, raw, m);
    }
    forall key {
      NamesOneMore(parts, raw, key);
    }
    if p.Building? {
      KeyTakenIff(parts, p);
    }
  }

  lemma KeyTakenIff(parts: seq<string>, p: Partial)
    requires Describes(parts, p) && p.Building?
    ensures p.key.Some? <==> exists i :: 0 <= i < |parts| && IsKeyPart(parts[i])
  {
    if p.key.Some? {
      assert Names(parts, p.key.value);
    }
    if i :| 0 <= i < |parts| && IsKeyPart(parts[i]) {
      assert IsGoodPart(parts[i]);
      assert Names(parts, Canonical(Trim(parts[i])).value);
    }
  }

  lemma NothingDescribesNothing()
    ensures Describes([], Building({}, None))
  {
  }

  lemma {:induction false} PartsDescribe(parts: seq<string>, n: nat)
    requires n <= |parts|
    ensures Describes(parts[..n], AddAll(Building({}, None), parts[..n]))
  {
    if n == 0 {
      NothingDescribesNothing();
      assert parts[..0] == [];
    } else {
      PartsDescribe(parts, n - 1);
      PartsDescribeOneMore(parts, n);
    }
  }

  lemma PartsDescribeOneMore(parts: seq<string>, n: nat)
    requires 0 < n <= |parts|
    requires Describes(parts[..n - 1], AddAll(Building({}, None), parts[..n - 1]))
    ensures Describes(parts[..n], AddAll(Building({}, None), parts[..n]))
  {
    DescribesOneMore(parts[..n - 1], AddAll(Building({}, None), parts[..n - 1]), parts[n - 1]);
    AddLast(Building({}, None), parts[..n - 1], parts[n - 1]);
    assert parts[..n] == parts[..n - 1] + [parts[n - 1]];
  }

  /** An accelerator parses to a chord exactly when its parts are known modifiers and that one key. */
  lemma ParsesExactly(accelerator: string, c: Chord)
    ensures var text := Trim(accelerator);
            var parts := Split(text);
            Parse(accelerator) == Some(c)
            <==> && text != ""
                 && (forall i :: 0 <= i < |parts| ==> IsGoodPart(parts[i])) && OneKeyAtMost(parts)
                 && (forall m :: m in c.modifiers <==> Holds(parts, m))
                 && Names(parts, c.key)
  {
    var parts := Split(Trim(accelerator));
    PartsDescribe(parts, |parts|);
    assert parts[..|parts|] == parts;
    FinishesExactly(parts, AddAll(Building({}, None), parts), c);
  }

  lemma FinishesExactly(parts: seq<string>, p: Partial, c: Chord)
    requires Describes(parts, p)
    ensures Finish(p) == Some(c)
            <==> && (forall i :: 0 <= i < |parts| ==> IsGoodPart(parts[i])) && OneKeyAtMost(parts)
                 && (forall m :: m in c.modifiers <==> Holds(parts, m))
                 && Names(parts, c.key)
  {
    if p.Building? {
      assert p.key == Some(c.key) <==> Names(parts, c.key);
      if forall m :: m in c.modifiers <==> Holds(parts, m) {
        assert p.modifiers == c.modifiers;
      }
    }
  }

  // ---------- Printing ----------

  /** The tokens of the chosen modifiers, in the order of `ms`. */
  function TokensOf(ms: seq<Modifier>, chosen: set<Modifier>): seq<string> {
    if ms == [] then []
    else if ms[0] in chosen then [ModifierToken(ms[0])] + TokensOf(ms[1..], chosen)
    else TokensOf(ms[1..], chosen)
  }

  function Parts(c: Chord): seq<string> {
    TokensOf(MODIFIERS, c.modifiers) + [c.key]
  }

  function Serialize(c: Chord): string {
    Join(Parts(c))
  }

  /** A modifier's text in front of what follows. */
  function Before(chosen: set<Modifier>, m: Modifier, name: string, rest: string): string {
    if m in chosen then name + "+" + rest else rest
  }

  /** The chosen modifiers in one fixed order, then the key, with plus signs between them. */
  lemma SerializeIs(c: Chord)
    ensures var m := c.modifiers;
            Serialize(c)
            == Before(m, CommandOrControl, "CommandOrControl",
                      Before(m, Control, "Control", Before(m, Alt, "Alt", Before(m, Shift, "Shift",
                                                                                 Before(m, Super, "Super", c.key)))))
  {
    var m := c.modifiers;
    JoinKey(m, c.key);
    JoinBehind(Super, [], m, c.key);
    JoinBehind(Shift, [Super], m, c.key);
    JoinBehind(Alt, [Shift, Super], m, c.key);
    JoinBehind(Control, [Alt, Shift, Super], m, c.key);
    JoinBehind(CommandOrControl, [Control, Alt, Shift, Super], m, c.key);
    ModifiersInTurn();
  }

  lemma ModifiersInTurn()
    ensures [Super] == [Super] + [] && [Shift, Super] == [Shift] + [Super]
    ensures [Alt, Shift, Super] == [Alt] + [Shift, Super]
    ensures [Control, Alt, Shift, Super] == [Control] + [Alt, Shift, Super]
    ensures MODIFIERS == [CommandOrControl] + [Control, Alt, Shift, Super]
  {
  }

  lemma JoinKey(chosen: set<Modifier>, key: string)
    ensures Join(TokensOf([], chosen) + [key]) == key
  {
    assert TokensOf([], chosen) + [key] == [key];
  }

  lemma JoinBehind(first: Modifier, ms: seq<Modifier>, chosen: set<Modifier>, key: string)
    ensures Join(TokensOf([first] + ms, chosen) + [key])
            == Before(chosen, first, ModifierToken(first), Join(TokensOf(ms, chosen) + [key]))
  {
    assert ([first] + ms)[1..] == ms;
    if first in chosen {
      var parts := TokensOf([first] + ms, chosen) + [key];
      assert parts[1..] == TokensOf(ms, chosen) + [key];
    }
  }

  // ---------- What tokens look like ----------

  /** No plus sign and no white space: both lie outside this range. */
  predicate IsWord(s: string) {
    s != "" && forall i :: 0 <= i < |s| ==> '0' <= s[i] <= 'z'
  }

  lemma NamedTokensAreWords(s: string)
    requires s in NAMED_TOKENS
    ensures IsWord(s)
  {
  }

  lemma NamedTokensAreNoAliases(s: string)
    requires s in NAMED_TOKENS
    ensures Lower(s) !in ALIASES
  {
    var r := Lower(s);
    assert r[0] == LowerChar(s[0]) && r[1] == LowerChar(s[1]);
  }

  lemma NamedTokensAreOtherCodes(s: string)
    requires s in NAMED_TOKENS
    ensures !(|s| == 4 && s[..3] == "Key") && !(|s| == 6 && s[..5] == "Digit") && !IsFunctionKey(s)
  {
    assert |s| == 4 ==> s[..3][0] == s[0];
    assert |s| == 6 ==> s[..5][1] == s[1];
  }

  /** The physical codes that stand for a token of another name. */
  const RENAMED_CODES: set<string> := {
    "NumpadEnter", "ArrowUp", "ArrowDown", "ArrowLeft", "ArrowRight", "MediaTrackNext", "MediaTrackPrevious",
    "AudioVolumeUp", "AudioVolumeDown", "AudioVolumeMute"
  }

  lemma OtherCodesNameThemselves(s: string)
    requires s in NAMED_KEYS && s !in RENAMED_CODES
    ensures NAMED_KEYS[s] == s
  {
  }

  lemma RenamedCodesAreNoTokens(s: string)
    requires s in RENAMED_CODES
    ensures s !in NAMED_TOKENS
  {
    assert |s| > 0 && (s[0] == 'N' || s[0] == 'A' || s[0] == 'M');
    if s[0] == 'M' {
      assert s == "MediaTrackNext" || s == "MediaTrackPrevious";
      assert s[5] == 'T';
    }
  }

  lemma NamedTokensNameThemselves(s: string)
    requires s in NAMED_TOKENS && s in NAMED_KEYS
    ensures NAMED_KEYS[s] == s
  {
    if s in RENAMED_CODES {
      RenamedCodesAreNoTokens(s);
    } else {
      OtherCodesNameThemselves(s);
    }
  }

  lemma NamedTokensStandForThemselves(s: string)
    requires s in NAMED_TOKENS
    ensures Canonical(s) == Some(s)
  {
    NamedTokensAreOtherCodes(s);
    if s in NAMED_KEYS {
      NamedTokensNameThemselves(s);
    }
  }

  lemma KeyTokensAreWords(s: string)
    requires IsKeyToken(s)
    ensures IsWord(s) && AliasOf(s) == None && Canonical(s) == Some(s)
  {
    if s in NAMED_TOKENS {
      NamedTokensAreWords(s);
      NamedTokensAreNoAliases(s);
      NamedTokensStandForThemselves(s);
    } else {
      ShortTokensAreNoAliases(s);
    }
  }

  lemma ShortTokensAreNoAliases(s: string)
    requires IsKeyToken(s) && s !in NAMED_TOKENS
    ensures AliasOf(s) == None && Canonical(s) == Some(s) && IsWord(s)
  {
    var r := Lower(s);
    assert r[0] == LowerChar(s[0]);
    assert |s| == 3 ==> r[1] == LowerChar(s[1]);
  }

  lemma ModifierTokensAreWords(m: Modifier)
    ensures IsWord(ModifierToken(m)) && AliasOf(ModifierToken(m)) == Some(Sets(m))
  {
    var r := Lower(ModifierToken(m));
    match m
    case CommandOrControl => assert r == "commandorcontrol";
    case Control => assert r == "control";
    case Alt => assert r == "alt";
    case Shift => assert r == "shift";
    case Super => assert r == "super";
  }

  // ---------- Round trips ----------

  lemma WordsTrimToThemselves(s: string)
    requires IsWord(s)
    ensures Trim(s) == s && NoPlus(s)
  {
  }

  lemma {:induction false} ModifiersAreWords(ms: seq<Modifier>, chosen: set<Modifier>)
    ensures forall k :: 0 <= k < |TokensOf(ms, chosen)| ==> IsWord(TokensOf(ms, chosen)[k])
  {
    if ms != [] {
      ModifierTokensAreWords(ms[0]);
      ModifiersAreWords(ms[1..], chosen);
    }
  }

  lemma AddsModifier(done: set<Modifier>, m: Modifier)
    ensures Add(Building(done, None), ModifierToken(m)) == Building(done + {m}, None)
  {
    ModifierTokensAreWords(m);
    WordsTrimToThemselves(ModifierToken(m));
  }

  lemma AddsKey(done: set<Modifier>, key: string)
    requires IsKeyToken(key)
    ensures Add(Building(done, None), key) == Building(done, Some(key))
  {
    KeyTokensAreWords(key);
    WordsTrimToThemselves(key);
  }

  lemma {:induction false} ModifiersAddUp(ms: seq<Modifier>, chosen: set<Modifier>, done: set<Modifier>)
    ensures AddAll(Building(done, None), TokensOf(ms, chosen))
            == Building(done + (set m | m in ms && m in chosen), None)
    decreases |ms|
  {
    if ms == [] {
      assert done + (set m | m in ms && m in chosen) == done;
    } else {
      var more := set m | m in ms[1..] && m in chosen;
      assert ms == [ms[0]] + ms[1..];
      if ms[0] in chosen {
        AddsModifier(done, ms[0]);
        ModifiersAddUp(ms[1..], chosen, done + {ms[0]});
        assert done + {ms[0]} + more == done + (set m | m in ms && m in chosen);
      } else {
        ModifiersAddUp(ms[1..], chosen, done);
        assert more == (set m | m in ms && m in chosen);
      }
    }
  }

  lemma {:induction false} JoinedWordsNeedNoTrim(parts: seq<string>)
    requires |parts| > 0
    requires forall k :: 0 <= k < |parts| ==> IsWord(parts[k])
    ensures var s := Join(parts); s != "" && !IsSpace(s[0]) && !IsSpace(s[|s| - 1]) && Trim(s) == s
  {
    assert IsWord(parts[0]);
    if |parts| > 1 {
      JoinedWordsNeedNoTrim(parts[1..]);
    }
  }

  /** Parsing what was printed gives back the chord. */
  lemma ParseSerialize(c: Chord)
    requires IsKeyToken(c.key)
    ensures Parse(Serialize(c)) == Some(c)
  {
    PartsAreWords(c);
    JoinedWordsNeedNoTrim(Parts(c));
    SplitJoin(Parts(c));
    PartsAddUp(c);
  }

  lemma PartsAreWords(c: Chord)
    requires IsKeyToken(c.key)
    ensures forall k :: 0 <= k < |Parts(c)| ==> IsWord(Parts(c)[k]) && NoPlus(Parts(c)[k])
  {
    ModifiersAreWords(MODIFIERS, c.modifiers);
    KeyTokensAreWords(c.key);
    forall k | 0 <= k < |Parts(c)| ensures IsWord(Parts(c)[k]) && NoPlus(Parts(c)[k]) {
      WordsTrimToThemselves(Parts(c)[k]);
    }
  }

  lemma PartsAddUp(c: Chord)
    requires IsKeyToken(c.key)
    ensures AddAll(Building({}, None), Parts(c)) == Building(c.modifiers, Some(c.key))
  {
    var mods := TokensOf(MODIFIERS, c.modifiers);
    AddLast(Building({}, None), mods, c.key);
    ModifiersAddUp(MODIFIERS, c.modifiers, {});
    EveryModifierIsListed(c.modifiers);
    AddsKey(c.modifiers, c.key);
  }

  lemma EveryModifierIsListed(chosen: set<Modifier>)
    ensures {} + (set m | m in MODIFIERS && m in chosen) == chosen
  {
    forall m | m in chosen ensures m in MODIFIERS {
      match m
      case CommandOrControl => assert MODIFIERS[0] == m;
      case Control => assert MODIFIERS[1] == m;
      case Alt => assert MODIFIERS[2] == m;
      case Shift => assert MODIFIERS[3] == m;
      case Super => assert MODIFIERS[4] == m;
    }
  }

  /** Different chords print differently. */
  lemma SerializeIsInjective(c: Chord, d: Chord)
    requires IsKeyToken(c.key) && IsKeyToken(d.key)
    ensures Serialize(c) == Serialize(d) <==> c == d
  {
    ParseSerialize(c);
    ParseSerialize(d);
  }

  lemma {:induction false} AddedKeysAreTokens(p: Partial, parts: seq<string>)
    requires p.Building? && p.key.Some? ==> IsKeyToken(p.key.value)
    ensures var q := AddAll(p, parts); q.Building? && q.key.Some? ==> IsKeyToken(q.key.value)
    decreases |parts|
  {
    if parts != [] {
      if p.Building? {
        CanonicalIsToken(Trim(parts[0]));
      }
      AddedKeysAreTokens(Add(p, parts[0]), parts[1..]);
    }
  }

  lemma CanonicalIsToken(part: string)
    ensures Canonical(part).Some? ==> IsKeyToken(Canonical(part).value)
  {
    if KeyToken(part).Some? {
      TokensAreTheCodesValues(KeyToken(part).value);
    }
  }

  function Canon(accelerator: string): Option<string> {
    match Parse(accelerator)
    case None => None
    case Some(c) => Some(Serialize(c))
  }

  /** Whatever the parser accepts has one canonical spelling: it means the same chord, and it is left alone. */
  lemma CanonIsStable(accelerator: string)
    requires Parse(accelerator).Some?
    ensures IsKeyToken(Parse(accelerator).value.key)
    ensures var canon := Canon(accelerator).value; Parse(canon) == Parse(accelerator) && Canon(canon) == Some(canon)
  {
    AddedKeysAreTokens(Building({}, None), Split(Trim(accelerator)));
    ParseSerialize(Parse(accelerator).value);
  }

  /** Two accelerators ask for the same chord exactly when their canonical spellings agree. */
  lemma SameChordIff(a: string, b: string)
    requires Parse(a).Some? && Parse(b).Some?
    ensures Canon(a) == Canon(b) <==> Parse(a) == Parse(b)
  {
    CanonIsStable(a);
    CanonIsStable(b);
  }
}
