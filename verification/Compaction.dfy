/** The token saver: bound the provider context while keeping the policy and complete recent turns. */
module Compaction {
  import opened Basics
  import opened Transcript

  const MAX_CONTEXT_CHARS: nat := 96_000
  const COMPACT_SUMMARY_CHARS: nat := 8_000
  const SUMMARY_HEADER :=
    "ND Token Saver compacted earlier conversation context. " +
    "The following is a bounded recovery summary; recent complete turns follow.\n"

  // ---------- Where the kept suffix starts ----------

  function FirstConversation(messages: seq<Message>): nat {
    if |messages| > 0 && messages[0].role == System then 1 else 0
  }

  function Budget(messages: seq<Message>): nat {
    Monus(MAX_CONTEXT_CHARS,
          (if FirstConversation(messages) == 1 then |messages[0].content| else 0) + COMPACT_SUMMARY_CHARS)
  }

  /** The backward scan after it has passed every index from `i` on; `best` is the last user index seen. */
  function ScanFrom(messages: seq<Message>, first: nat, budget: nat, i: nat, best: nat): (k: nat)
    requires first <= i <= |messages|
    requires best <= |messages|
    ensures k <= |messages|
  {
    if i == first then best
    else if messages[i - 1].role != User then ScanFrom(messages, first, budget, i - 1, best)
    else if TotalChars(messages[i - 1..]) >= budget then i - 1
    else ScanFrom(messages, first, budget, i - 1, i - 1)
  }

  function SuffixStart(messages: seq<Message>, first: nat, budget: nat): (k: nat)
    requires first <= |messages|
    ensures k <= |messages|
  {
    ScanFrom(messages, first, budget, |messages|, Monus(|messages|, 1))
  }

  /** A user turn that, kept from its start, already uses the whole budget. */
  ghost predicate Heavy(messages: seq<Message>, first: nat, budget: nat, i: nat) {
    first <= i < |messages| && messages[i].role == User && TotalChars(messages[i..]) >= budget
  }

  ghost predicate UserAt(messages: seq<Message>, first: nat, i: nat) {
    first <= i < |messages| && messages[i].role == User
  }

  /** What the scan looks for, without the scan: the last heavy user turn when there is one,
      otherwise the first user turn. */
  ghost predicate IsSuffixStart(messages: seq<Message>, first: nat, budget: nat, k: nat) {
    && UserAt(messages, first, k)
    && (Heavy(messages, first, budget, k)
        ==> forall i :: k < i ==> !Heavy(messages, first, budget, i))
    && (!Heavy(messages, first, budget, k)
        ==> forall i :: (UserAt(messages, first, i) ==> k <= i) && !Heavy(messages, first, budget, i))
  }

  /** `best` is the first user turn from `i` on, if there is one. */
  ghost predicate IsBestFrom(messages: seq<Message>, first: nat, i: nat, best: nat) {
    || (forall j :: i <= j ==> !UserAt(messages, first, j))
    || (i <= best && UserAt(messages, first, best) && forall j :: i <= j && UserAt(messages, first, j) ==> best <= j)
  }

  lemma BestIsSuffixStart(messages: seq<Message>, first: nat, budget: nat, best: nat)
    requires exists j :: UserAt(messages, first, j)
    requires forall j :: first <= j ==> !Heavy(messages, first, budget, j)
    requires IsBestFrom(messages, first, first, best)
    ensures IsSuffixStart(messages, first, budget, best)
  {
    var j :| UserAt(messages, first, j);
  }

  lemma {:induction false} ScanFinds(messages: seq<Message>, first: nat, budget: nat, i: nat, best: nat)
    requires first <= i <= |messages| && best <= |messages|
    requires forall j :: i <= j ==> !Heavy(messages, first, budget, j)
    requires exists j :: UserAt(messages, first, j)
    requires IsBestFrom(messages, first, i, best)
    ensures IsSuffixStart(messages, first, budget, ScanFrom(messages, first, budget, i, best))
  {
    if i == first {
      BestIsSuffixStart(messages, first, budget, best);
    } else if messages[i - 1].role != User {
      assert !UserAt(messages, first, i - 1);
      ScanFinds(messages, first, budget, i - 1, best);
    } else {
      assert UserAt(messages, first, i - 1);
      if TotalChars(messages[i - 1..]) < budget {
        ScanFinds(messages, first, budget, i - 1, i - 1);
      }
    }
  }

  lemma SuffixStartFound(messages: seq<Message>, first: nat, budget: nat)
    requires first <= |messages|
    requires exists j :: UserAt(messages, first, j)
    ensures IsSuffixStart(messages, first, budget, SuffixStart(messages, first, budget))
  {
    ScanFinds(messages, first, budget, |messages|, Monus(|messages|, 1));
  }

  lemma SuffixStartIsUnique(messages: seq<Message>, first: nat, budget: nat, k: nat, l: nat)
    requires IsSuffixStart(messages, first, budget, k)
    requires IsSuffixStart(messages, first, budget, l)
    ensures k == l
  {
    if Heavy(messages, first, budget, k) && Heavy(messages, first, budget, l) {
      assert !(k < l) && !(l < k);
    } else if !Heavy(messages, first, budget, k) && !Heavy(messages, first, budget, l) {
      assert k <= l && l <= k;
    }
  }

  // ---------- The summary ----------

  /** Unicode White_Space, which Rust's `trim` removes. */
  predicate IsWhite(c: char) {
    var u := c as int;
    || 0x09 <= u <= 0x0D || u == 0x20 || u == 0x85 || u == 0xA0 || u == 0x1680
    || 0x2000 <= u <= 0x200A || u == 0x2028 || u == 0x2029 || u == 0x202F || u == 0x205F || u == 0x3000
  }

  predicate Blank(s: string) {
    forall c <- s :: IsWhite(c)
  }

  function SummaryLine(m: Message, excerpt: string): string {
    RoleName(m.role) + ": " + excerpt + "\n"
  }

  function Excerpt(summary: string, m: Message): string {
    m.content[..Min(|m.content|, Min(Monus(COMPACT_SUMMARY_CHARS, |summary|), 1_000))]
  }

  function SummaryFrom(summary: string, dropped: seq<Message>): string
    decreases |dropped|
  {
    if dropped == [] then summary
    else if dropped[0].role == Tool then SummaryFrom(summary, dropped[1..])
    else if Monus(COMPACT_SUMMARY_CHARS, |summary|) < 64 then summary
    else
      var excerpt := Excerpt(summary, dropped[0]);
      SummaryFrom(if Blank(excerpt) then summary else summary + SummaryLine(dropped[0], excerpt), dropped[1..])
  }

  /** The longest line frame is "assistant: " and the line feed: 12 characters around the excerpt. */
  lemma {:induction false} SummaryIsBounded(summary: string, dropped: seq<Message>)
    requires |summary| <= COMPACT_SUMMARY_CHARS + 12
    ensures |SummaryFrom(summary, dropped)| <= COMPACT_SUMMARY_CHARS + 12
    decreases |dropped|
  {
    if dropped != [] {
      if dropped[0].role == Tool {
        SummaryIsBounded(summary, dropped[1..]);
      } else if Monus(COMPACT_SUMMARY_CHARS, |summary|) >= 64 {
        var excerpt := Excerpt(summary, dropped[0]);
        assert |RoleName(dropped[0].role)| <= 9;
        SummaryIsBounded(if Blank(excerpt) then summary else summary + SummaryLine(dropped[0], excerpt), dropped[1..]);
      }
    }
  }

  // ---------- What the summary says ----------

  function Concat(texts: seq<string>): string {
    if texts == [] then "" else Concat(texts[..|texts| - 1]) + texts[|texts| - 1]
  }

  /** The room left behind what is written. */
  function RoomAfter(written: string): nat {
    Monus(8_000, |written|)
  }

  /** What one message adds: a line with its role and as much of its text as there is room for, up to 1,000 characters.
      Tool results, blank excerpts and everything behind the point where fewer than 64 characters are left add none. */
  predicate IsEntry(m: Message, room: nat, text: string) {
    var excerpt := m.content[..Min(|m.content|, Min(room, 1_000))];
    if m.role == Tool || room < 64 || Blank(excerpt) then text == ""
    else text == (if m.role == User then "user: " else if m.role == Assistant then "assistant: " else "system: ")
                 + excerpt + "\n"
  }

  /** What each message adds, in order. */
  ghost predicate AreEntries(header: string, dropped: seq<Message>, texts: seq<string>) {
    |texts| == |dropped| && forall i :: 0 <= i < |dropped| ==> IsEntryAt(header, dropped, texts, i)
  }

  predicate IsEntryAt(header: string, dropped: seq<Message>, texts: seq<string>, i: nat)
    requires i < |texts| == |dropped|
  {
    IsEntry(dropped[i], RoomAfter(header + Concat(texts[..i])), texts[i])
  }

  ghost predicate IsSummary(dropped: seq<Message>, summary: string) {
    exists texts :: AreEntries(SUMMARY_HEADER, dropped, texts) && summary == SUMMARY_HEADER + Concat(texts)
  }

  lemma {:induction false} ConcatFront(first: string, texts: seq<string>)
    ensures Concat([first] + texts) == first + Concat(texts)
  {
    if texts == [] {
      assert [first] + texts == [first] && [first][..0] == [];
    } else {
      var n := |texts| - 1;
      ConcatFront(first, texts[..n]);
      assert ([first] + texts)[..n + 1] == [first] + texts[..n];
    }
  }

  lemma LaterEntry(header: string, dropped: seq<Message>, first: string, texts: seq<string>, i: nat)
    requires i < |texts| && |dropped| == |texts| + 1 && IsEntryAt(header + first, dropped[1..], texts, i)
    ensures IsEntryAt(header, dropped, [first] + texts, i + 1)
  {
    assert ([first] + texts)[..i + 1] == [first] + texts[..i];
    ConcatFront(first, texts[..i]);
    assert header + (first + Concat(texts[..i])) == header + first + Concat(texts[..i]);
  }

  lemma FirstEntry(header: string, dropped: seq<Message>, texts: seq<string>)
    requires |dropped| == |texts| > 0 && IsEntry(dropped[0], RoomAfter(header), texts[0])
    ensures IsEntryAt(header, dropped, texts, 0)
  {
    assert header + Concat(texts[..0]) == header;
  }

  /** The entries that follow once the first one is written. */
  lemma EntriesFollow(header: string, dropped: seq<Message>, first: string, texts: seq<string>)
    requires dropped != [] && IsEntry(dropped[0], RoomAfter(header), first)
    requires AreEntries(header + first, dropped[1..], texts)
    ensures AreEntries(header, dropped, [first] + texts)
    ensures header + Concat([first] + texts) == header + first + Concat(texts)
  {
    ConcatFront(first, texts);
    forall i | 0 <= i < |dropped| ensures IsEntryAt(header, dropped, [first] + texts, i) {
      if i == 0 {
        FirstEntry(header, dropped, [first] + texts);
      } else {
        assert IsEntryAt(header + first, dropped[1..], texts, i - 1);
        LaterEntry(header, dropped, first, texts, i - 1);
      }
    }
  }

  /** Once there is no room, nothing is added. */
  lemma {:induction false} NothingFits(header: string, dropped: seq<Message>) returns (texts: seq<string>)
    requires RoomAfter(header) < 64
    ensures AreEntries(header, dropped, texts) && header + Concat(texts) == header
  {
    texts := [];
    if dropped != [] {
      texts := NothingFits(header, dropped[1..]);
      assert header + "" == header;
      EntriesFollow(header, dropped, "", texts);
      texts := [""] + texts;
    }
  }

  lemma EntryIsWritten(summary: string, m: Message)
    requires m.role != Tool && RoomAfter(summary) >= 64
    ensures var excerpt := Excerpt(summary, m);
            IsEntry(m, RoomAfter(summary), if Blank(excerpt) then "" else SummaryLine(m, excerpt))
  {
    assert RoleName(m.role) + ": " == if m.role == User then "user: " else if m.role == Assistant then "assistant: "
                                      else "system: ";
  }

  lemma {:induction false} SummaryHasEntries(summary: string, dropped: seq<Message>) returns (texts: seq<string>)
    ensures AreEntries(summary, dropped, texts) && SummaryFrom(summary, dropped) == summary + Concat(texts)
    decreases |dropped|
  {
    if dropped == [] {
      texts := [];
    } else if dropped[0].role == Tool {
      texts := SummaryHasEntries(summary, dropped[1..]);
      assert summary + "" == summary;
      EntriesFollow(summary, dropped, "", texts);
      texts := [""] + texts;
    } else if RoomAfter(summary) < 64 {
      texts := NothingFits(summary, dropped);
    } else {
      var excerpt := Excerpt(summary, dropped[0]);
      var line := if Blank(excerpt) then "" else SummaryLine(dropped[0], excerpt);
      EntryIsWritten(summary, dropped[0]);
      assert summary + line == if Blank(excerpt) then summary else summary + line;
      texts := SummaryHasEntries(summary + line, dropped[1..]);
      EntriesFollow(summary, dropped, line, texts);
      texts := [line] + texts;
    }
  }

  /** The summary is the header and, message by message, what each of them adds. */
  lemma SummaryIsTheEntries(dropped: seq<Message>)
    ensures IsSummary(dropped, SummaryFrom(SUMMARY_HEADER, dropped))
  {
    var texts := SummaryHasEntries(SUMMARY_HEADER, dropped);
  }

  /** Nothing else is a summary of these messages. */
  lemma SummaryIsUnique(dropped: seq<Message>, summary: string, other: string)
    requires IsSummary(dropped, summary) && IsSummary(dropped, other)
    ensures summary == other
  {
    var a :| AreEntries(SUMMARY_HEADER, dropped, a) && summary == SUMMARY_HEADER + Concat(a);
    var b :| AreEntries(SUMMARY_HEADER, dropped, b) && other == SUMMARY_HEADER + Concat(b);
    EntriesAreUnique(SUMMARY_HEADER, dropped, a, b, |dropped|);
    assert a[..|a|] == a && b[..|b|] == b;
  }

  lemma EntryIsUnique(m: Message, room: nat, text: string, other: string)
    requires IsEntry(m, room, text) && IsEntry(m, room, other)
    ensures text == other
  {
  }

  lemma {:induction false} EntriesAreUnique(header: string, dropped: seq<Message>, a: seq<string>, b: seq<string>,
                                            n: nat)
    requires AreEntries(header, dropped, a) && AreEntries(header, dropped, b) && n <= |dropped|
    ensures a[..n] == b[..n]
  {
    if n > 0 {
      EntriesAreUnique(header, dropped, a, b, n - 1);
      assert IsEntryAt(header, dropped, a, n - 1) && IsEntryAt(header, dropped, b, n - 1);
      EntryIsUnique(dropped[n - 1], RoomAfter(header + Concat(a[..n - 1])), a[n - 1], b[n - 1]);
      assert a[..n] == a[..n - 1] + [a[n - 1]] && b[..n] == b[..n - 1] + [b[n - 1]];
    }
  }

  // ---------- The whole compaction ----------

  function Kept(messages: seq<Message>, k: nat): seq<Message>
    requires FirstConversation(messages) <= k <= |messages|
  {
    messages[..FirstConversation(messages)]
    + [Text(System, SummaryFrom(SUMMARY_HEADER, messages[FirstConversation(messages)..k]))]
    + messages[k..]
  }

  /** The compacted transcript, or None when the transcript stays as it is. */
  function Compacted(enabled: bool, messages: seq<Message>): Option<seq<Message>> {
    if !enabled || TotalChars(messages) <= MAX_CONTEXT_CHARS then None
    else
      var first := FirstConversation(messages);
      var k := SuffixStart(messages, first, Budget(messages));
      if k <= first then None else Some(Kept(messages, k))
  }

  /** The transcript a round continues with. */
  function AfterCompaction(enabled: bool, messages: seq<Message>): seq<Message> {
    match Compacted(enabled, messages) case None => messages case Some(next) => next
  }

  /** What a compaction makes of a transcript: the policy, if there is one, the summary of what is dropped, and an exact
      suffix. The suffix starts at the last user turn that fills the budget of 88,000 characters without the policy,
      otherwise at the first user turn; without any user turn only the last message is kept. */
  ghost predicate IsCompaction(messages: seq<Message>, k: nat, summary: string, out: seq<Message>) {
    var first := if messages != [] && messages[0].role == System then 1 else 0;
    var budget := Monus(96_000, (if first == 1 then |messages[0].content| else 0) + 8_000);
    && first < k < |messages|
    && (if exists i :: UserAt(messages, first, i) then IsSuffixStart(messages, first, budget, k)
        else k == |messages| - 1)
    && IsSummary(messages[first..k], summary)
    && out == messages[..first] + [Text(System, summary)] + messages[k..]
  }

  lemma {:induction false} ScanWithoutUsers(messages: seq<Message>, first: nat, budget: nat, i: nat, best: nat)
    requires first <= i <= |messages| && best <= |messages| && forall j :: !UserAt(messages, first, j)
    ensures ScanFrom(messages, first, budget, i, best) == best
  {
    if i > first {
      assert !UserAt(messages, first, i - 1);
      ScanWithoutUsers(messages, first, budget, i - 1, best);
    }
  }

  /** Every compaction, of any transcript, is of that form. */
  lemma CompactionIsExact(messages: seq<Message>)
    requires Compacted(true, messages).Some?
    ensures exists k, summary :: IsCompaction(messages, k, summary, Compacted(true, messages).value)
  {
    var first, budget := FirstConversation(messages), Budget(messages);
    var k := SuffixStart(messages, first, budget);
    var summary := SummaryFrom(SUMMARY_HEADER, messages[first..k]);
    SummaryIsTheEntries(messages[first..k]);
    if exists i :: UserAt(messages, first, i) {
      SuffixStartFound(messages, first, budget);
    } else {
      ScanWithoutUsers(messages, first, budget, |messages|, Monus(|messages|, 1));
    }
    assert IsCompaction(messages, k, summary, Compacted(true, messages).value);
  }

  /** The policy is kept, one summary replaces the dropped part, and the rest is an exact suffix
      of the old conversation starting with a user turn. */
  lemma CompactionKeepsStructure(enabled: bool, messages: seq<Message>)
    requires Grounded(messages)
    requires Compacted(enabled, messages).Some?
    ensures exists k, summary ::
              && 1 < k < |messages|
              && messages[k].role == User
              && |summary| <= COMPACT_SUMMARY_CHARS + 12
              && Compacted(enabled, messages).value == [messages[0], Text(System, summary)] + messages[k..]
    ensures Grounded(Compacted(enabled, messages).value)
    ensures WellFormed(messages) ==> WellFormed(Compacted(enabled, messages).value)
    ensures Settled(messages, |messages|)
            ==> Settled(Compacted(enabled, messages).value, |Compacted(enabled, messages).value|)
  {
    assert UserAt(messages, 1, var i :| 1 <= i < |messages| && messages[i].role == User; i);
    SuffixStartFound(messages, 1, Budget(messages));
    var k := SuffixStart(messages, 1, Budget(messages));
    var summary := SummaryFrom(SUMMARY_HEADER, messages[1..k]);
    HeaderIsShort();
    SummaryIsBounded(SUMMARY_HEADER, messages[1..k]);
    var out := Compacted(enabled, messages).value;
    assert messages[..1] == [messages[0]];
    assert out == [messages[0], Text(System, summary)] + messages[k..];
    assert out[2].role == User;
    if WellFormed(messages) {
      CutKeepsWellFormed(messages, k, [messages[0], Text(System, summary)]);
    }
    if Settled(messages, |messages|) {
      CutKeepsSettled(messages, k, [messages[0], Text(System, summary)]);
    }
  }

  lemma HeaderIsShort()
    ensures |SUMMARY_HEADER| <= COMPACT_SUMMARY_CHARS
  {
  }

  /** With a policy that leaves room, the result exceeds the context limit by at most the summary's
      frame and the oldest kept turn. */
  lemma CompactionBoundsTheContext(enabled: bool, messages: seq<Message>, k: nat, turnEnd: nat)
    requires Grounded(messages) && WellFormed(messages)
    requires |messages[0].content| + COMPACT_SUMMARY_CHARS <= MAX_CONTEXT_CHARS
    requires Compacted(enabled, messages).Some?
    requires k == SuffixStart(messages, 1, Budget(messages))
    requires k < turnEnd <= |messages|
    requires turnEnd == |messages| || messages[turnEnd].role == User
    ensures TotalChars(Compacted(enabled, messages).value)
            <= MAX_CONTEXT_CHARS + 12 + TotalChars(messages[k..turnEnd])
  {
    assert UserAt(messages, 1, var i :| 1 <= i < |messages| && messages[i].role == User; i);
    SuffixStartFound(messages, 1, Budget(messages));
    var summary := SummaryFrom(SUMMARY_HEADER, messages[1..k]);
    HeaderIsShort();
    SummaryIsBounded(SUMMARY_HEADER, messages[1..k]);
    SizeOfCompacted(messages[0], summary, messages[k..]);
    LaterTurnsFit(messages, k, turnEnd);
  }

  lemma SizeOfCompacted(policy: Message, summary: string, kept: seq<Message>)
    requires policy.toolCalls == []
    ensures TotalChars([policy, Text(System, summary)] + kept) == |policy.content| + |summary| + TotalChars(kept)
  {
    var head := [policy, Text(System, summary)];
    TotalOfSuffix(head, 0);
    TotalOfSuffix(head, 1);
    assert head[0..] == head && head[2..] == [];
    TotalOfConcat(head, kept);
  }

  lemma LaterTurnsFit(messages: seq<Message>, k: nat, turnEnd: nat)
    requires k < turnEnd <= |messages|
    requires IsSuffixStart(messages, 1, Budget(messages), k)
    requires turnEnd == |messages| || messages[turnEnd].role == User
    ensures TotalChars(messages[k..]) <= TotalChars(messages[k..turnEnd]) + Budget(messages)
  {
    assert messages[k..] == messages[k..turnEnd] + messages[turnEnd..];
    TotalOfConcat(messages[k..turnEnd], messages[turnEnd..]);
    if turnEnd < |messages| {
      assert UserAt(messages, 1, turnEnd);
      assert !Heavy(messages, 1, Budget(messages), turnEnd);
    }
  }

  /** Compaction declines exactly when it is off, the transcript has at most 96,000 characters, or the conversation's
      first message is a user turn and no later turn alone fills the budget. */
  lemma CompactionDeclinesExactlyWhen(enabled: bool, messages: seq<Message>)
    requires Grounded(messages)
    ensures var budget := Monus(96_000, |messages[0].content| + 8_000);
            Compacted(enabled, messages) == None
            <==> || !enabled || TotalChars(messages) <= 96_000
                 || (messages[1].role == User && forall i :: 1 < i ==> !Heavy(messages, 1, budget, i))
  {
    assert UserAt(messages, 1, var i :| 1 <= i < |messages| && messages[i].role == User; i);
    var budget := Budget(messages);
    SuffixStartFound(messages, 1, budget);
    var k := SuffixStart(messages, 1, budget);
    if messages[1].role == User && forall i :: 1 < i ==> !Heavy(messages, 1, budget, i) {
      assert UserAt(messages, 1, 1);
      assert IsSuffixStart(messages, 1, budget, 1);
      SuffixStartIsUnique(messages, 1, budget, k, 1);
    }
  }

  /** A scan over a transcript cut at its suffix start finds the cut. */
  lemma CutIsFoundAgain(messages: seq<Message>, once: seq<Message>, budget: nat, k: nat)
    requires IsSuffixStart(messages, 1, budget, k)
    requires |once| == |messages| - k + 2 && once[1].role != User
    requires forall i :: 2 <= i < |once| ==> once[i] == messages[i - 2 + k]
    ensures IsSuffixStart(once, 1, budget, 2)
  {
    forall i | 2 <= i
      ensures Heavy(once, 1, budget, i) == Heavy(messages, 1, budget, i - 2 + k)
      ensures UserAt(once, 1, i) ==> UserAt(messages, 1, i - 2 + k)
    {
      if i < |once| {
        assert once[i..] == messages[i - 2 + k..];
      }
    }
  }

  /** Compacting twice with nothing appended in between keeps the suffix of the first time. */
  lemma CompactingAgainKeepsTheSuffix(messages: seq<Message>)
    requires Grounded(messages)
    requires Compacted(true, messages).Some?
    ensures var once := Compacted(true, messages).value;
            var twice := AfterCompaction(true, once);
            |twice| == |once| && twice[0] == once[0] && twice[2..] == once[2..]
  {
    assert UserAt(messages, 1, var i :| 1 <= i < |messages| && messages[i].role == User; i);
    var budget := Budget(messages);
    SuffixStartFound(messages, 1, budget);
    var k := SuffixStart(messages, 1, budget);
    var once := Compacted(true, messages).value;
    assert once == Kept(messages, k);
    assert Budget(once) == budget;
    if Compacted(true, once).Some? {
      CutIsFoundAgain(messages, once, budget, k);
      SuffixStartFound(once, 1, budget);
      SuffixStartIsUnique(once, 1, budget, SuffixStart(once, 1, budget), 2);
      assert Compacted(true, once).value == Kept(once, 2);
    }
  }
}
