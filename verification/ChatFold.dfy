/** Chat entries from session events: the fold that works in place and the one that copies what it changes. */
module ChatFold {
  import opened Basics

  const RESULT_MAX_CHARS := 2_000
  const REASONING_MAX_CHARS := 4_000

  datatype Status = Running | Finished | Failed

  datatype Entry =
    | Context(source: string, text: string)
    | User(text: string, images: seq<string>, mention: Option<string>)
    | Assistant(text: string, streaming: bool)
    | Reasoning(text: string)
    | Tool(callId: Option<string>, name: string, args: string, status: Status, result: Option<string>)
    | Todo(items: seq<string>)

  /** An event with its payload read. `images` holds the data of the image blocks. */
  datatype Event =
    | UserMessage(text: string, images: seq<string>, source: Option<string>, mention: Option<string>)
    | Chunk(text: string)
    | AssistantMessage(rawText: Option<string>, offset: Option<nat>)
    | AgentReasoning(text: string)
    | ToolCall(callId: Option<string>, name: string, args: string)
    | ToolResult(callId: Option<string>, text: string, error: Option<string>)
    | TodoWrite(todos: seq<string>)
    | OtherEvent

  /** The text clean-up the fold relies on. */
  datatype Cleanup = Cleanup(
    visible: string -> string,
    hasUserPrefix: string -> bool,
    hasAssistantPrefix: string -> bool,
    clean: string -> string)

  /** What one event does: nothing, a new entry at the end, or another value for one entry. */
  datatype Effect = Nothing | Append(entry: Entry) | Change(index: nat, entry: Entry)

  // ---------- Looking through the entries ----------

  function FirstLine(s: string): string {
    Trim(LineOf(s))
  }

  function LineOf(s: string): string {
    if s == "" || s[0] == '\n' then "" else [s[0]] + LineOf(s[1..])
  }

  predicate StartsWithImage(s: string) {
    |s| >= 2 && s[..2] == "!["
  }

  predicate HasImage(s: string) {
    s != "" && (StartsWithImage(s) || HasImage(s[1..]))
  }

  /** The `n`th assistant entry from the end, looking below `i`. */
  function AssistantFromEnd(entries: seq<Entry>, i: nat, n: nat): (found: Option<nat>)
    requires i <= |entries|
    ensures found.Some? ==> found.value < i && entries[found.value].Assistant?
  {
    if i == 0 then None
    else if entries[i - 1].Assistant? then
      if n == 0 then Some(i - 1) else AssistantFromEnd(entries, i - 1, n - 1)
    else AssistantFromEnd(entries, i - 1, n)
  }

  predicate IsMatchingTool(e: Entry, callId: Option<string>) {
    e.Tool? && e.status == Running && (callId == None || e.callId == callId)
  }

  function FirstRunning(entries: seq<Entry>, callId: Option<string>, i: nat): (found: Option<nat>)
    requires i <= |entries|
    ensures found.Some? ==> i <= found.value < |entries| && IsMatchingTool(entries[found.value], callId)
    ensures found.Some? ==> forall k :: i <= k < found.value ==> !IsMatchingTool(entries[k], callId)
    ensures found.None? ==> forall k :: i <= k < |entries| ==> !IsMatchingTool(entries[k], callId)
    decreases |entries| - i
  {
    if i == |entries| then None
    else if IsMatchingTool(entries[i], callId) then Some(i)
    else FirstRunning(entries, callId, i + 1)
  }

  predicate SameLineWithImage(existing: string, text: string) {
    |FirstLine(text)| >= 20 && FirstLine(text) == FirstLine(existing) && (HasImage(text) || HasImage(existing))
  }

  /** What a settled assistant entry means for a message: already there, to be upgraded, or unrelated. */
  function Judge(e: Entry, text: string, repeats: bool, i: nat): Option<Effect> {
    if !e.Assistant? || e.streaming then None
    else if e.text == text && repeats then Some(Nothing)
    else if (e.text == "Edit" && StartsWithImage(text)) || SameLineWithImage(e.text, text) then
      Some(Change(i, Assistant(text, false)))
    else None
  }

  function Upgrade(entries: seq<Entry>, text: string, repeats: bool, i: nat): Effect
    requires i <= |entries|
    decreases |entries| - i
  {
    if i == |entries| then Append(Assistant(text, false))
    else match Judge(entries[i], text, repeats, i)
      case Some(effect) => effect
      case None => Upgrade(entries, text, repeats, i + 1)
  }

  function Last(entries: seq<Entry>): Option<Entry> {
    if entries == [] then None else Some(entries[|entries| - 1])
  }

  // ---------- What each event does ----------

  function OfUserMessage(c: Cleanup, entries: seq<Entry>, e: Event): Effect
    requires e.UserMessage?
  {
    if e.text == "" && e.images == [] then Nothing
    else if e.source.Some? && e.source.value != "user" then
      if e.text == "" || Last(entries) == Some(Context(e.source.value, e.text)) then Nothing
      else Append(Context(e.source.value, e.text))
    else
      var visible := if e.text == "" then "" else c.visible(e.text);
      if visible == "" && e.images == [] then Nothing
      else if Last(entries).Some? && IsSameUser(Last(entries).value, visible, e.images) then Nothing
      else if c.hasUserPrefix(e.text) && HasSameUser(entries, visible, e.images) then Nothing
      else Append(User(visible, e.images, e.mention))
  }

  predicate IsSameUser(e: Entry, text: string, images: seq<string>) {
    e.User? && e.text == text && e.images == images
  }

  predicate HasSameUser(entries: seq<Entry>, text: string, images: seq<string>) {
    exists i :: 0 <= i < |entries| && IsSameUser(entries[i], text, images)
  }

  function OfAssistantMessage(c: Cleanup, entries: seq<Entry>, e: Event): Effect
    requires e.AssistantMessage?
  {
    match e.rawText
    case None => Nothing
    case Some(rawText) =>
      var cleaned := c.clean(rawText);
      var text := if cleaned == "" then rawText else cleaned;
      var replaced := if e.offset.Some? then AssistantFromEnd(entries, |entries|, e.offset.value) else None;
      match replaced
      case Some(i) => Change(i, Assistant(text, false))
      case None =>
        match Last(entries)
        case Some(Assistant(_, true)) => Change(|entries| - 1, Assistant(text, false))
        case last => Upgrade(entries, text, c.hasAssistantPrefix(rawText) || (last.Some? && last.value.Assistant?), 0)
  }

  /** The call `running` is settled; with none waiting the result stands alone. */
  function Settle(entries: seq<Entry>, running: Option<nat>, text: string, error: Option<string>): (effect: Effect)
    requires running.Some? ==> running.value < |entries| && entries[running.value].Tool?
    ensures effect.Change? ==> effect.index < |entries|
  {
    var summary := match error case Some(why) => "Error: " + why case None => text[..Min(|text|, RESULT_MAX_CHARS)];
    var status := if error.Some? then Failed else Finished;
    match running
    case None => Append(Tool(None, "tool", "", status, Some(summary)))
    case Some(i) => Change(i, entries[i].(status := status, result := Some(summary)))
  }

  function EffectOf(c: Cleanup, entries: seq<Entry>, e: Event): (effect: Effect)
    ensures effect.Change? ==> effect.index < |entries|
  {
    match e
    case UserMessage(_, _, _, _) => OfUserMessage(c, entries, e)
    case Chunk(text) =>
      if text == "" then Nothing
      else (match Last(entries)
        case Some(Assistant(said, true)) => Change(|entries| - 1, Assistant(said + text, true))
        case _ => Append(Assistant(text, true)))
    case AssistantMessage(_, _) =>
      UpgradeIsInRange(c, entries, e);
      OfAssistantMessage(c, entries, e)
    case AgentReasoning(text) =>
      if text == "" then Nothing
      else (match Last(entries)
        case Some(Reasoning(said)) =>
          if |said| >= REASONING_MAX_CHARS then Append(Reasoning(text))
          else Change(|entries| - 1, Reasoning(said + "\n" + text))
        case _ => Append(Reasoning(text)))
    case ToolCall(callId, name, args) => Append(Tool(callId, name, args, Running, None))
    case ToolResult(callId, text, error) => Settle(entries, FirstRunning(entries, callId, 0), text, error)
    case TodoWrite(todos) =>
      (match Last(entries)
       case Some(Todo(_)) => Change(|entries| - 1, Todo(todos))
       case _ => Append(Todo(todos)))
    case OtherEvent => Nothing
  }

  lemma {:induction false} UpgradeStaysInRange(entries: seq<Entry>, text: string, repeats: bool, i: nat)
    requires i <= |entries|
    ensures var effect := Upgrade(entries, text, repeats, i); effect.Change? ==> i <= effect.index < |entries|
    decreases |entries| - i
  {
    if i < |entries| {
      UpgradeStaysInRange(entries, text, repeats, i + 1);
    }
  }

  lemma UpgradeIsInRange(c: Cleanup, entries: seq<Entry>, e: Event)
    requires e.AssistantMessage?
    ensures var effect := OfAssistantMessage(c, entries, e); effect.Change? ==> effect.index < |entries|
  {
    forall text, repeats
      ensures var effect := Upgrade(entries, text, repeats, 0); effect.Change? ==> effect.index < |entries|
    {
      UpgradeStaysInRange(entries, text, repeats, 0);
    }
  }

  // ---------- What the scans find ----------

  ghost function Assistants(entries: seq<Entry>): nat {
    if entries == [] then 0
    else Assistants(entries[..|entries| - 1]) + if entries[|entries| - 1].Assistant? then 1 else 0
  }

  /** The scan finds the assistant entry with exactly `n` more behind it, and nothing when there are no more than
      `n`. */
  lemma {:induction false} AssistantFromEndCounts(entries: seq<Entry>, i: nat, n: nat)
    requires i <= |entries|
    ensures var found := AssistantFromEnd(entries, i, n);
            && (found.None? <==> Assistants(entries[..i]) <= n)
            && (found.Some? ==> Assistants(entries[..i]) == Assistants(entries[..found.value + 1]) + n)
  {
    if i > 0 {
      assert entries[..i][..i - 1] == entries[..i - 1];
      if entries[i - 1].Assistant? && n > 0 {
        AssistantFromEndCounts(entries, i - 1, n - 1);
      } else if !entries[i - 1].Assistant? {
        AssistantFromEndCounts(entries, i - 1, n);
      }
    }
  }

  /** The text up to the first line feed, without the white space around it. */
  ghost predicate IsFirstLine(line: string, s: string) {
    exists n: nat :: n <= |s| && '\n' !in s[..n] && (n == |s| || s[n] == '\n') && line == Trim(s[..n])
  }

  ghost predicate ShowsImage(s: string) {
    exists i: nat :: i + 2 <= |s| && s[i] == '!' && s[i + 1] == '['
  }

  /** A long first line in common, and an image on one side. */
  ghost predicate LooksAlike(a: string, b: string) {
    (exists line :: |line| >= 20 && IsFirstLine(line, a) && IsFirstLine(line, b)) && (ShowsImage(a) || ShowsImage(b))
  }

  lemma {:induction false} LineOfIs(s: string)
    ensures |LineOf(s)| <= |s| && LineOf(s) == s[..|LineOf(s)|] && '\n' !in LineOf(s)
    ensures |LineOf(s)| < |s| ==> s[|LineOf(s)|] == '\n'
  {
    if s != "" && s[0] != '\n' {
      LineOfIs(s[1..]);
    }
  }

  lemma FirstLineIs(line: string, s: string)
    ensures IsFirstLine(line, s) <==> line == FirstLine(s)
  {
    LineOfIs(s);
    var n := |LineOf(s)|;
    assert '\n' !in s[..n] && (n == |s| || s[n] == '\n');
    if IsFirstLine(line, s) {
      var m: nat :| m <= |s| && '\n' !in s[..m] && (m == |s| || s[m] == '\n') && line == Trim(s[..m]);
      if m < n {
        NoFeedBefore(s, n, m);
      } else if n < m {
        NoFeedBefore(s, m, n);
      }
    }
  }

  lemma NoFeedBefore(s: string, n: nat, k: nat)
    requires k < n <= |s| && '\n' !in s[..n]
    ensures s[k] != '\n'
  {
    assert s[..n][k] == s[k];
  }

  lemma {:induction false} HasImageIff(s: string)
    ensures HasImage(s) <==> ShowsImage(s)
  {
    if s != "" {
      HasImageIff(s[1..]);
      assert |s| >= 2 ==> s[..2] == [s[0], s[1]];
      if ShowsImage(s[1..]) {
        var i: nat :| i + 2 <= |s[1..]| && s[1..][i] == '!' && s[1..][i + 1] == '[';
        assert s[i + 1] == '!' && s[i + 1 + 1] == '[';
      }
      if ShowsImage(s) {
        var i: nat :| i + 2 <= |s| && s[i] == '!' && s[i + 1] == '[';
        if i > 0 {
          assert s[1..][i - 1] == '!' && s[1..][i - 1 + 1] == '[';
        }
      }
    }
  }

  lemma LooksAlikeIff(existing: string, text: string)
    ensures SameLineWithImage(existing, text) <==> LooksAlike(existing, text)
  {
    FirstLineIs(FirstLine(text), text);
    FirstLineIs(FirstLine(text), existing);
    HasImageIff(text);
    HasImageIff(existing);
    if LooksAlike(existing, text) {
      var line :| |line| >= 20 && IsFirstLine(line, existing) && IsFirstLine(line, text);
      FirstLineIs(line, text);
      FirstLineIs(line, existing);
    }
  }

  /** A settled assistant entry that says the same, or that this text is the finished form of. */
  ghost predicate Matches(e: Entry, text: string, repeats: bool) {
    && e.Assistant? && !e.streaming
    && (|| (e.text == text && repeats)
        || (e.text == "Edit" && |text| >= 2 && text[0] == '!' && text[1] == '[')
        || LooksAlike(e.text, text))
  }

  lemma JudgesMatches(e: Entry, text: string, repeats: bool, i: nat)
    ensures Judge(e, text, repeats, i)
            == if !Matches(e, text, repeats) then None
               else Some(if e.text == text && repeats then Nothing else Change(i, Assistant(text, false)))
  {
    if e.Assistant? {
      LooksAlikeIff(e.text, text);
      assert |text| >= 2 ==> text[..2] == [text[0], text[1]];
    }
  }

  /** The effect is decided by the first entry from `i` on that matches; with none the message is new. */
  ghost predicate DecidedByFirstMatch(entries: seq<Entry>, text: string, repeats: bool, i: nat, effect: Effect) {
    || (effect == Append(Assistant(text, false))
        && forall k :: i <= k < |entries| ==> !Matches(entries[k], text, repeats))
    || exists j: nat :: FirstMatch(entries, text, repeats, i, j)
                   && effect == if entries[j].text == text && repeats then Nothing
                                else Change(j, Assistant(text, false))
  }

  ghost predicate FirstMatch(entries: seq<Entry>, text: string, repeats: bool, i: nat, j: nat) {
    && i <= j < |entries| && Matches(entries[j], text, repeats)
    && forall k :: i <= k < j ==> !Matches(entries[k], text, repeats)
  }

  lemma {:induction false} UpgradeTakesTheFirstMatch(entries: seq<Entry>, text: string, repeats: bool, i: nat)
    requires i <= |entries|
    ensures DecidedByFirstMatch(entries, text, repeats, i, Upgrade(entries, text, repeats, i))
    decreases |entries| - i
  {
    if i < |entries| {
      JudgesMatches(entries[i], text, repeats, i);
      if Matches(entries[i], text, repeats) {
        assert FirstMatch(entries, text, repeats, i, i);
      } else {
        UpgradeTakesTheFirstMatch(entries, text, repeats, i + 1);
        forall j: nat | FirstMatch(entries, text, repeats, i + 1, j) ensures FirstMatch(entries, text, repeats, i, j) {
        }
      }
    }
  }

  /** The entry to be replaced: the assistant entry with `n` more behind it. */
  ghost predicate IsFromEnd(entries: seq<Entry>, n: nat, i: nat) {
    i < |entries| && entries[i].Assistant? && Assistants(entries) == Assistants(entries[..i + 1]) + n
  }

  /** What a message of the assistant does: it replaces the entry it names, if there is one; otherwise it settles
      the reply that is streaming at the end; otherwise the first settled entry that matches decides. */
  ghost predicate TakesUp(entries: seq<Entry>, text: string, offset: Option<nat>, repeats: bool, effect: Effect) {
    if offset.Some? && offset.value < Assistants(entries) then
      exists i: nat :: IsFromEnd(entries, offset.value, i) && effect == Change(i, Assistant(text, false))
    else if Last(entries).Some? && Last(entries).value.Assistant? && Last(entries).value.streaming then
      effect == Change(|entries| - 1, Assistant(text, false))
    else
      DecidedByFirstMatch(entries, text, repeats, 0, effect)
  }

  /** A legacy prefix, or a reply at the very end, lets a message be taken for a repetition. */
  function MayRepeat(c: Cleanup, entries: seq<Entry>, rawText: string): bool {
    c.hasAssistantPrefix(rawText) || (Last(entries).Some? && Last(entries).value.Assistant?)
  }

  function Cleaned(c: Cleanup, rawText: string): string {
    if c.clean(rawText) == "" then rawText else c.clean(rawText)
  }

  lemma AssistantMessageTakesUp(c: Cleanup, entries: seq<Entry>, rawText: string, offset: Option<nat>)
    ensures TakesUp(entries, Cleaned(c, rawText), offset, MayRepeat(c, entries, rawText),
                    OfAssistantMessage(c, entries, AssistantMessage(Some(rawText), offset)))
  {
    assert entries[..|entries|] == entries;
    if offset.Some? {
      AssistantFromEndCounts(entries, |entries|, offset.value);
    }
    UpgradeTakesTheFirstMatch(entries, Cleaned(c, rawText), MayRepeat(c, entries, rawText), 0);
  }

  // ---------- Folding values ----------

  function Apply(effect: Effect, entries: seq<Entry>): seq<Entry>
    requires effect.Change? ==> effect.index < |entries|
  {
    match effect
    case Nothing => entries
    case Append(entry) => entries + [entry]
    case Change(i, entry) => entries[i := entry]
  }

  function Fold(c: Cleanup, entries: seq<Entry>, e: Event): seq<Entry> {
    Apply(EffectOf(c, entries, e), entries)
  }

  function FoldAll(c: Cleanup, entries: seq<Entry>, events: seq<Event>): seq<Entry>
    decreases |events|
  {
    if events == [] then entries else FoldAll(c, Fold(c, entries, events[0]), events[1..])
  }

  /** Events that arrive after the history was loaded leave what loading the longer history would. */
  lemma {:induction false} HistoryThenLive(c: Cleanup, entries: seq<Entry>, history: seq<Event>, live: seq<Event>)
    ensures FoldAll(c, entries, history + live) == FoldAll(c, FoldAll(c, entries, history), live)
    decreases |history|
  {
    if history == [] {
      assert history + live == live;
    } else {
      assert (history + live)[1..] == history[1..] + live;
      HistoryThenLive(c, Fold(c, entries, history[0]), history[1..], live);
    }
  }

  /** The history fold is the left fold of the fold of one event. */
  lemma FoldOneMore(c: Cleanup, entries: seq<Entry>, events: seq<Event>, e: Event)
    ensures FoldAll(c, entries, events + [e]) == Fold(c, FoldAll(c, entries, events), e)
  {
    HistoryThenLive(c, entries, events, [e]);
    assert FoldAll(c, FoldAll(c, entries, events), [e]) == FoldAll(c, Fold(c, FoldAll(c, entries, events), e), []);
  }

  // ---------- What the reader sees ----------

  predicate EndsStreaming(entries: seq<Entry>) {
    Last(entries).Some? && Last(entries).value.Assistant? && Last(entries).value.streaming
  }

  function Concat(texts: seq<string>): string {
    if texts == [] then "" else texts[0] + Concat(texts[1..])
  }

  function Chunks(texts: seq<string>): (events: seq<Event>)
    ensures |events| == |texts| && forall i :: 0 <= i < |texts| ==> events[i] == Chunk(texts[i])
  {
    seq(|texts|, i requires 0 <= i < |texts| => Chunk(texts[i]))
  }

  lemma LastOf(entries: seq<Entry>, last: Entry)
    ensures Last(entries + [last]) == Some(last)
    ensures forall e :: (entries + [last])[|entries| := e] == entries + [e]
  {
  }

  lemma {:induction false} ChunksExtend(c: Cleanup, entries: seq<Entry>, said: string, texts: seq<string>)
    ensures FoldAll(c, entries + [Assistant(said, true)], Chunks(texts))
            == entries + [Assistant(said + Concat(texts), true)]
    decreases |texts|
  {
    if texts == [] {
      assert said + "" == said;
    } else {
      LastOf(entries, Assistant(said, true));
      assert said + texts[0] + Concat(texts[1..]) == said + Concat(texts);
      assert Chunks(texts)[1..] == Chunks(texts[1..]);
      if texts[0] == "" {
        assert said + "" == said;
      }
      ChunksExtend(c, entries, said + texts[0], texts[1..]);
    }
  }

  /** A streamed reply is one entry, and its text is the chunks in their order. */
  lemma {:induction false} ChunksAreJoined(c: Cleanup, entries: seq<Entry>, texts: seq<string>)
    requires !EndsStreaming(entries)
    ensures FoldAll(c, entries, Chunks(texts))
            == if Concat(texts) == "" then entries else entries + [Assistant(Concat(texts), true)]
    decreases |texts|
  {
    if texts != [] {
      assert Chunks(texts)[1..] == Chunks(texts[1..]);
      if texts[0] == "" {
        ChunksAreJoined(c, entries, texts[1..]);
        assert Concat(texts) == Concat(texts[1..]);
      } else {
        ChunksExtend(c, entries, texts[0], texts[1..]);
      }
    }
  }

  /** The final message takes the place of what was streamed. */
  lemma StreamedReplyIsSettled(c: Cleanup, entries: seq<Entry>, texts: seq<string>, rawText: string)
    requires !EndsStreaming(entries) && Concat(texts) != ""
    ensures FoldAll(c, entries, Chunks(texts) + [AssistantMessage(Some(rawText), None)])
            == entries + [Assistant(Cleaned(c, rawText), false)]
  {
    ChunksAreJoined(c, entries, texts);
    FoldOneMore(c, entries, Chunks(texts), AssistantMessage(Some(rawText), None));
    LastOf(entries, Assistant(Concat(texts), true));
  }

  /** A failed call shows its error, a finished one as much of the text as is kept. */
  function Outcome(callId: Option<string>, name: string, args: string, text: string, error: Option<string>): Entry {
    match error
    case Some(why) => Tool(callId, name, args, Failed, Some("Error: " + why))
    case None => Tool(callId, name, args, Finished, Some(if |text| <= 2_000 then text else text[..2_000]))
  }

  /** Some call waits for this result; `i` is the oldest. */
  ghost predicate IsOldestWaiting(entries: seq<Entry>, callId: Option<string>, i: nat) {
    && i < |entries| && entries[i].Tool? && entries[i].status == Running
    && (callId == None || entries[i].callId == callId)
    && forall k :: 0 <= k < i && entries[k].Tool? && entries[k].status == Running ==>
         callId != None && entries[k].callId != callId
  }

  /** A result goes to the oldest call that waits for it and leaves everything else; with none waiting it stands
      alone. */
  lemma ResultsGoToTheirCalls(c: Cleanup, entries: seq<Entry>, callId: Option<string>, text: string,
                              error: Option<string>)
    ensures var next := Fold(c, entries, ToolResult(callId, text, error));
            || (exists i: nat ::
                  && IsOldestWaiting(entries, callId, i)
                  && next == entries[i := Outcome(entries[i].callId, entries[i].name, entries[i].args, text, error)])
            || (&& (forall i: nat :: !IsOldestWaiting(entries, callId, i))
                && next == entries + [Outcome(None, "tool", "", text, error)])
  {
    assert |text| <= 2_000 ==> text[..|text|] == text;
    match FirstRunning(entries, callId, 0)
    case Some(i) => assert IsOldestWaiting(entries, callId, i);
    case None =>
      forall i: nat ensures !IsOldestWaiting(entries, callId, i) {
        assert i < |entries| ==> !IsMatchingTool(entries[i], callId);
      }
  }

  /** A call and its result make one entry. */
  lemma CallAndResultAreOneEntry(c: Cleanup, entries: seq<Entry>, id: string, name: string, args: string, text: string,
                                 error: Option<string>)
    requires forall e <- entries :: e.Tool? && e.status == Running ==> e.callId != Some(id)
    ensures FoldAll(c, entries, [ToolCall(Some(id), name, args), ToolResult(Some(id), text, error)])
            == entries + [Outcome(Some(id), name, args, text, error)]
  {
    var call, result := ToolCall(Some(id), name, args), ToolResult(Some(id), text, error);
    var waiting := entries + [Tool(Some(id), name, args, Running, None)];
    assert Fold(c, entries, call) == waiting;
    assert [call, result][1..] == [result] && [result][1..] == [];
    assert FoldAll(c, waiting, [result]) == Fold(c, waiting, result);
    ResultsGoToTheirCalls(c, waiting, Some(id), text, error);
    assert IsOldestWaiting(waiting, Some(id), |entries|);
    forall k: nat | k < |entries| ensures !IsOldestWaiting(waiting, Some(id), k) {
      assert waiting[k] == entries[k] && entries[k] in entries;
    }
  }

  function Lines(texts: seq<string>): string {
    if texts == [] then "" else if |texts| == 1 then texts[0]
    else Lines(texts[..|texts| - 1]) + "\n" + texts[|texts| - 1]
  }

  function Reasonings(texts: seq<string>): (events: seq<Event>)
    ensures |events| == |texts| && forall i :: 0 <= i < |texts| ==> events[i] == AgentReasoning(texts[i])
  {
    seq(|texts|, i requires 0 <= i < |texts| => AgentReasoning(texts[i]))
  }

  lemma OneMoreReasoning(texts: seq<string>)
    requires texts != []
    ensures var n := |texts| - 1; Reasonings(texts) == Reasonings(texts[..n]) + [AgentReasoning(texts[n])]
  {
  }

  lemma ReasoningBegins(c: Cleanup, entries: seq<Entry>, text: string)
    requires text != "" && !(Last(entries).Some? && Last(entries).value.Reasoning?)
    ensures FoldAll(c, entries, Reasonings([text])) == entries + [Reasoning(text)]
  {
    assert Reasonings([text]) == [AgentReasoning(text)];
    FoldOneMore(c, entries, [], AgentReasoning(text));
    assert [] + [AgentReasoning(text)] == [AgentReasoning(text)];
  }

  /** No more than the last piece makes it 4,000 characters long. */
  ghost predicate StaysShort(texts: seq<string>) {
    forall n :: 0 < n < |texts| ==> |Lines(texts[..n])| < 4_000
  }

  lemma OneLessStaysShort(texts: seq<string>)
    requires StaysShort(texts) && |texts| > 1
    ensures StaysShort(texts[..|texts| - 1]) && |Lines(texts[..|texts| - 1])| < 4_000
  {
    var before := texts[..|texts| - 1];
    forall k | 0 < k < |before| ensures |Lines(before[..k])| < 4_000 {
      assert before[..k] == texts[..k];
    }
  }

  /** Reasoning is joined line by line, up to the piece that makes it 4,000 characters long. */
  lemma {:induction false} ReasoningIsJoined(c: Cleanup, entries: seq<Entry>, texts: seq<string>)
    requires texts != [] && (forall t <- texts :: t != "") && !(Last(entries).Some? && Last(entries).value.Reasoning?)
    requires StaysShort(texts)
    ensures FoldAll(c, entries, Reasonings(texts)) == entries + [Reasoning(Lines(texts))]
    decreases |texts|
  {
    var n := |texts| - 1;
    var before := texts[..n];
    assert texts[n] in texts;
    if n == 0 {
      ReasoningBegins(c, entries, texts[0]);
      assert texts == [texts[0]];
    } else {
      OneLessStaysShort(texts);
      assert forall t <- before :: t in texts;
      ReasoningIsJoined(c, entries, before);
      OneMoreReasoning(texts);
      FoldOneMore(c, entries, Reasonings(before), AgentReasoning(texts[n]));
      ReasoningGoesOn(c, entries, Lines(before), texts[n]);
    }
  }

  lemma ReasoningGoesOn(c: Cleanup, entries: seq<Entry>, said: string, text: string)
    requires |said| < 4_000 && text != ""
    ensures Fold(c, entries + [Reasoning(said)], AgentReasoning(text)) == entries + [Reasoning(said + "\n" + text)]
  {
    LastOf(entries, Reasoning(said));
  }

  /** And from there on it goes into an entry of its own. */
  lemma LongReasoningStartsAnew(c: Cleanup, entries: seq<Entry>, said: string, text: string)
    requires |said| >= 4_000 && text != ""
    ensures Fold(c, entries + [Reasoning(said)], AgentReasoning(text)) == entries + [Reasoning(said), Reasoning(text)]
  {
    LastOf(entries, Reasoning(said));
    assert entries + [Reasoning(said)] + [Reasoning(text)] == entries + [Reasoning(said), Reasoning(text)];
  }

  ghost predicate Repeats(c: Cleanup, entries: seq<Entry>, text: string, visible: string, images: seq<string>) {
    || (entries != [] && IsSameUser(entries[|entries| - 1], visible, images))
    || (c.hasUserPrefix(text) && exists e <- entries :: IsSameUser(e, visible, images))
  }

  /** A prompt is shown once, as what the user typed and attached, unless there is nothing to show or it repeats the
      last entry or, with a legacy prefix, any earlier prompt. */
  lemma PromptsAreShownOnce(c: Cleanup, entries: seq<Entry>, e: Event)
    requires e.UserMessage? && (e.source.None? || e.source.value == "user")
    ensures var visible := if e.text == "" then "" else c.visible(e.text);
            Fold(c, entries, e)
            == if (visible == "" && e.images == []) || Repeats(c, entries, e.text, visible, e.images) then entries
               else entries + [User(visible, e.images, e.mention)]
  {
    var visible := if e.text == "" then "" else c.visible(e.text);
    if HasSameUser(entries, visible, e.images) {
      var i :| 0 <= i < |entries| && IsSameUser(entries[i], visible, e.images);
      assert entries[i] in entries;
    }
  }

  /** Whatever comes from elsewhere is never taken for the user's. */
  lemma ContextIsNoPrompt(c: Cleanup, entries: seq<Entry>, e: Event)
    requires e.UserMessage? && e.source.Some? && e.source.value != "user"
    ensures var context := Context(e.source.value, e.text);
            Fold(c, entries, e)
            == if e.text == "" || (entries != [] && entries[|entries| - 1] == context) then entries
               else entries + [context]
  {
  }

  function Todos(lists: seq<seq<string>>): (events: seq<Event>)
    ensures |events| == |lists| && forall i :: 0 <= i < |lists| ==> events[i] == TodoWrite(lists[i])
  {
    seq(|lists|, i requires 0 <= i < |lists| => TodoWrite(lists[i]))
  }

  /** Of lists written one after the other the last one stays. */
  lemma {:induction false} LastTodoStays(c: Cleanup, entries: seq<Entry>, lists: seq<seq<string>>)
    requires lists != [] && !(Last(entries).Some? && Last(entries).value.Todo?)
    ensures FoldAll(c, entries, Todos(lists)) == entries + [Todo(lists[|lists| - 1])]
    decreases |lists|
  {
    var n := |lists| - 1;
    assert Todos(lists) == Todos(lists[..n]) + [TodoWrite(lists[n])];
    FoldOneMore(c, entries, Todos(lists[..n]), TodoWrite(lists[n]));
    if n > 0 {
      LastTodoStays(c, entries, lists[..n]);
      LastOf(entries, Todo(lists[n - 1]));
    }
  }

  // ---------- Waiting calls are conserved ----------

  ghost function Waiting(entries: seq<Entry>): nat {
    if entries == [] then 0
    else Waiting(entries[..|entries| - 1]) + if IsMatchingTool(entries[|entries| - 1], None) then 1 else 0
  }

  lemma {:induction false} WaitingAfterChange(entries: seq<Entry>, i: nat, entry: Entry)
    requires i < |entries|
    ensures Waiting(entries[i := entry])
            == Waiting(entries) - (if IsMatchingTool(entries[i], None) then 1 else 0)
               + (if IsMatchingTool(entry, None) then 1 else 0)
  {
    var n := |entries| - 1;
    if i < n {
      WaitingAfterChange(entries[..n], i, entry);
      assert entries[i := entry][..n] == entries[..n][i := entry];
    } else {
      assert entries[i := entry][..n] == entries[..n];
    }
  }

  ghost predicate WritesAssistants(entries: seq<Entry>, effect: Effect) {
    && (effect.Append? ==> effect.entry.Assistant?)
    && (effect.Change? ==> effect.index < |entries| && entries[effect.index].Assistant? && effect.entry.Assistant?)
  }

  lemma {:induction false} UpgradesChangeAssistants(entries: seq<Entry>, text: string, repeats: bool, i: nat)
    requires i <= |entries|
    ensures WritesAssistants(entries, Upgrade(entries, text, repeats, i))
    decreases |entries| - i
  {
    if i < |entries| {
      UpgradesChangeAssistants(entries, text, repeats, i + 1);
    }
  }

  /** A call adds one waiting entry; a result settles exactly one when some entry waits for it, the
      oldest; no other event starts or settles a call. */
  lemma CallsAreSettledOneByOne(c: Cleanup, entries: seq<Entry>, e: Event)
    ensures Waiting(Fold(c, entries, e))
            == Waiting(entries) + (if e.ToolCall? then 1 else 0)
               - if e.ToolResult? && FirstRunning(entries, e.callId, 0).Some? then 1 else 0
  {
    match EffectOf(c, entries, e)
    case Nothing =>
      CallsAndResultsHaveEffects(c, entries, e);
    case Append(entry) =>
      assert (entries + [entry])[..|entries|] == entries;
      KindsStayApart(c, entries, e);
    case Change(i, entry) =>
      WaitingAfterChange(entries, i, entry);
      KindsStayApart(c, entries, e);
  }

  lemma CallsAndResultsHaveEffects(c: Cleanup, entries: seq<Entry>, e: Event)
    ensures e.ToolCall? || e.ToolResult? ==> EffectOf(c, entries, e) != Nothing
  {
  }

  /** Only tool events write tool entries, and only over tool entries. */
  lemma KindsStayApart(c: Cleanup, entries: seq<Entry>, e: Event)
    ensures var effect := EffectOf(c, entries, e);
            effect.Append? ==>
              && (IsMatchingTool(effect.entry, None) <==> e.ToolCall?)
              && (e.ToolResult? ==> FirstRunning(entries, e.callId, 0).None?)
    ensures var effect := EffectOf(c, entries, e);
            effect.Change? ==>
              && !e.ToolCall? && !IsMatchingTool(effect.entry, None)
              && (IsMatchingTool(entries[effect.index], None) <==> e.ToolResult?)
              && (e.ToolResult? ==> FirstRunning(entries, e.callId, 0) == Some(effect.index))
  {
    match e
    case AssistantMessage(rawText, offset) => AssistantsStayAssistants(c, entries, e);
    case ToolResult(callId, text, error) =>
    case UserMessage(_, _, _, _) =>
    case Chunk(_) =>
    case AgentReasoning(_) =>
    case ToolCall(_, _, _) =>
    case TodoWrite(_) =>
    case OtherEvent =>
  }

  lemma AssistantsStayAssistants(c: Cleanup, entries: seq<Entry>, e: Event)
    requires e.AssistantMessage?
    ensures WritesAssistants(entries, OfAssistantMessage(c, entries, e))
  {
    forall text, repeats ensures WritesAssistants(entries, Upgrade(entries, text, repeats, 0)) {
      UpgradesChangeAssistants(entries, text, repeats, 0);
    }
  }

  // ---------- Deciding, with loops ----------

  method FindAssistantFromEnd(entries: seq<Entry>, offset: nat) returns (found: Option<nat>)
    ensures found == AssistantFromEnd(entries, |entries|, offset)
  {
    var seenFromEnd := 0;
    var i := |entries|;
    while i > 0
      invariant 0 <= i <= |entries| && seenFromEnd <= offset
      invariant AssistantFromEnd(entries, |entries|, offset) == AssistantFromEnd(entries, i, offset - seenFromEnd)
    {
      i := i - 1;
      if entries[i].Assistant? {
        if seenFromEnd == offset {
          return Some(i);
        }
        seenFromEnd := seenFromEnd + 1;
      }
    }
    found := None;
  }

  method FindRunning(entries: seq<Entry>, callId: Option<string>) returns (found: Option<nat>)
    ensures found == FirstRunning(entries, callId, 0)
  {
    for i := 0 to |entries|
      invariant FirstRunning(entries, callId, 0) == FirstRunning(entries, callId, i)
    {
      if IsMatchingTool(entries[i], callId) {
        return Some(i);
      }
    }
    found := None;
  }

  method FindUpgrade(entries: seq<Entry>, text: string, repeats: bool) returns (effect: Effect)
    ensures effect == Upgrade(entries, text, repeats, 0)
  {
    for i := 0 to |entries|
      invariant Upgrade(entries, text, repeats, 0) == Upgrade(entries, text, repeats, i)
    {
      var judged := Judge(entries[i], text, repeats, i);
      if judged.Some? {
        return judged.value;
      }
    }
    effect := Append(Assistant(text, false));
  }

  method DecideAssistantMessage(c: Cleanup, entries: seq<Entry>, rawText: string, offset: Option<nat>)
    returns (effect: Effect)
    ensures effect == OfAssistantMessage(c, entries, AssistantMessage(Some(rawText), offset))
    ensures TakesUp(entries, Cleaned(c, rawText), offset, MayRepeat(c, entries, rawText), effect)
  {
    AssistantMessageTakesUp(c, entries, rawText, offset);
    var cleaned := c.clean(rawText);
    var text := if cleaned == "" then rawText else cleaned;
    if offset.Some? {
      var replaced := FindAssistantFromEnd(entries, offset.value);
      if replaced.Some? {
        return Change(replaced.value, Assistant(text, false));
      }
    }
    var last := Last(entries);
    if last.Some? && last.value.Assistant? && last.value.streaming {
      return Change(|entries| - 1, Assistant(text, false));
    }
    effect := FindUpgrade(entries, text, c.hasAssistantPrefix(rawText) || (last.Some? && last.value.Assistant?));
  }

  method Decide(c: Cleanup, entries: seq<Entry>, e: Event) returns (effect: Effect)
    ensures effect == EffectOf(c, entries, e)
  {
    match e
    case AssistantMessage(Some(rawText), offset) =>
      effect := DecideAssistantMessage(c, entries, rawText, offset);
    case ToolResult(callId, text, error) =>
      var running := FindRunning(entries, callId);
      effect := Settle(entries, running, text, error);
    case _ =>
      effect := EffectOf(c, entries, e);
  }

  // ---------- Folding objects ----------

  class Cell {
    var entry: Entry

    constructor (entry: Entry)
      ensures this.entry == entry
    {
      this.entry := entry;
    }
  }

  class Thread {
    var items: seq<Cell>

    constructor (items: seq<Cell>)
      ensures this.items == items
    {
      this.items := items;
    }
  }

  function Values(items: seq<Cell>): (vs: seq<Entry>)
    reads items
    ensures |vs| == |items|
    ensures forall i :: 0 <= i < |items| ==> vs[i] == items[i].entry
  {
    seq(|items|, i requires 0 <= i < |items| reads items => items[i].entry)
  }

  ghost predicate NoAliases(items: seq<Cell>) {
    forall i, j :: 0 <= i < j < |items| ==> items[i] != items[j]
  }

  /** The entry at `index` in a form that may be changed: itself, or a copy put in its place. */
  method Own(thread: Thread, index: nat, copying: bool) returns (cell: Cell)
    requires index < |thread.items|
    modifies thread
    ensures if copying then fresh(cell) && thread.items == old(thread.items)[index := cell]
            else cell == old(thread.items)[index] && thread.items == old(thread.items)
    ensures cell.entry == old(thread.items[index].entry)
  {
    if copying {
      cell := new Cell(thread.items[index].entry);
      thread.items := thread.items[index := cell];
    } else {
      cell := thread.items[index];
    }
  }

  /** Which objects make up the list afterwards: the same ones, one new one at the end, or one replaced
      by a copy; without copying no object is replaced. */
  ghost predicate KeepsIdentity(effect: Effect, before: seq<Cell>, after: seq<Cell>, copying: bool)
    requires effect.Change? ==> effect.index < |before|
  {
    match effect
    case Nothing => after == before
    case Append(_) => |after| == |before| + 1 && after[..|before|] == before
    case Change(i, _) => if copying then |after| == |before| && after == before[i := after[i]] else after == before
  }

  /** One event, on the entries themselves or on copies of what it changes. */
  method FoldEventInto(thread: Thread, c: Cleanup, e: Event, copying: bool)
    requires copying || NoAliases(thread.items)
    modifies thread, if copying then {} else set cell | cell in thread.items
    ensures Values(thread.items) == Fold(c, old(Values(thread.items)), e)
    ensures KeepsIdentity(EffectOf(c, old(Values(thread.items)), e), old(thread.items), thread.items, copying)
    ensures var effect := EffectOf(c, old(Values(thread.items)), e);
            copying && effect.Change? ==> fresh(thread.items[effect.index])
    ensures forall cell :: cell in thread.items ==> cell in old(thread.items) || fresh(cell)
    ensures !copying ==> NoAliases(thread.items)
  {
    var entries := Values(thread.items);
    var effect := Decide(c, entries, e);
    match effect
    case Nothing =>
    case Append(entry) =>
      var cell := new Cell(entry);
      thread.items := thread.items + [cell];
      assert Values(thread.items) == entries + [entry];
    case Change(i, entry) =>
      var owned := Own(thread, i, copying);
      owned.entry := entry;
      assert Values(thread.items) == entries[i := entry];
  }

  /** The whole history, in place: the entries are this call's own until it returns them. */
  method FoldHistory(c: Cleanup, events: seq<Event>) returns (items: seq<Cell>)
    ensures Values(items) == FoldAll(c, [], events)
    ensures fresh(set cell | cell in items) && NoAliases(items)
  {
    var thread := new Thread([]);
    assert events[..0] == [];
    for i := 0 to |events|
      invariant fresh(thread) && (forall cell :: cell in thread.items ==> fresh(cell)) && NoAliases(thread.items)
      invariant Values(thread.items) == FoldAll(c, [], events[..i])
    {
      FoldOneMore(c, [], events[..i], events[i]);
      assert events[..i + 1] == events[..i] + [events[i]];
      FoldEventInto(thread, c, events[i], false);
    }
    assert events[..|events|] == events;
    items := thread.items;
  }

  /** One event on copies. Nothing that existed is changed, so the list given still reads the same;
      every entry the event does not touch is the same object afterwards. */
  method FoldEvent(entries: seq<Cell>, c: Cleanup, e: Event) returns (next: seq<Cell>)
    ensures Values(next) == Fold(c, Values(entries), e)
    ensures KeepsIdentity(EffectOf(c, Values(entries), e), entries, next, true)
    ensures Values(entries) == old(Values(entries))
  {
    var thread := new Thread(entries);
    FoldEventInto(thread, c, e, true);
    next := thread.items;
  }
}
