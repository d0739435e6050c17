/** Conversation messages as the agent stores them and sends them to a provider. */
module Transcript {
  import opened Basics

  datatype Role = System | User | Assistant | Tool

  /** `arguments` is the compact JSON text; `operation` is its "operation" member when that is a string. */
  datatype ToolCall = ToolCall(id: string, name: string, arguments: string, operation: Option<string>)

  datatype Message = Message(role: Role, content: string, toolCalls: seq<ToolCall>, toolCallId: Option<string>)

  function Text(role: Role, content: string): Message {
    Message(role, content, [], None)
  }

  function ToolResult(call: ToolCall, output: string): Message {
    Message(Tool, output, [], Some(call.id))
  }

  function RoleName(role: Role): string {
    match role
    case System => "system"
    case User => "user"
    case Assistant => "assistant"
    case Tool => "tool"
  }

  /** Bytes of one character in UTF-8: tool names are measured in bytes, contents in characters. */
  function Utf8Width(c: char): nat {
    if c as int < 0x80 then 1 else if c as int < 0x800 then 2 else if c as int < 0x1_0000 then 3 else 4
  }

  function Utf8Length(s: string): nat {
    if s == "" then 0 else Utf8Width(s[0]) + Utf8Length(s[1..])
  }

  function CallChars(calls: seq<ToolCall>): nat {
    if calls == [] then 0
    else |calls[0].arguments| + Utf8Length(calls[0].name) + CallChars(calls[1..])
  }

  function Size(m: Message): nat {
    |m.content| + CallChars(m.toolCalls)
  }

  function TotalChars(messages: seq<Message>): nat {
    if messages == [] then 0 else Size(messages[0]) + TotalChars(messages[1..])
  }

  /** All contents, all arguments and all names of called tools, laid end to end. */
  function ContentsOf(messages: seq<Message>): string {
    if messages == [] then "" else messages[0].content + ContentsOf(messages[1..])
  }

  function ArgumentsOf(calls: seq<ToolCall>): string {
    if calls == [] then "" else calls[0].arguments + ArgumentsOf(calls[1..])
  }

  function NamesOf(calls: seq<ToolCall>): string {
    if calls == [] then "" else calls[0].name + NamesOf(calls[1..])
  }

  function AllCalls(messages: seq<Message>): seq<ToolCall> {
    if messages == [] then [] else messages[0].toolCalls + AllCalls(messages[1..])
  }

  /** How many characters of the text have at least this code. */
  function AtLeast(s: string, code: nat): nat {
    if s == "" then 0 else (if s[0] as int >= code then 1 else 0) + AtLeast(s[1..], code)
  }

  /** UTF-8 takes one byte for a character, and one more from each of three codes on. */
  lemma {:induction false} Utf8LengthIs(s: string)
    ensures Utf8Length(s) == |s| + AtLeast(s, 0x80) + AtLeast(s, 0x800) + AtLeast(s, 0x1_0000)
  {
    if s != "" {
      Utf8LengthIs(s[1..]);
    }
  }

  lemma {:induction false} Utf8OfConcat(a: string, b: string)
    ensures Utf8Length(a + b) == Utf8Length(a) + Utf8Length(b)
  {
    if a == "" {
      assert a + b == b;
    } else {
      assert (a + b)[1..] == a[1..] + b;
      Utf8OfConcat(a[1..], b);
    }
  }

  lemma {:induction false} CallCharsAre(calls: seq<ToolCall>)
    ensures CallChars(calls) == |ArgumentsOf(calls)| + Utf8Length(NamesOf(calls))
  {
    if calls != [] {
      CallCharsAre(calls[1..]);
      Utf8OfConcat(calls[0].name, NamesOf(calls[1..]));
    }
  }

  lemma {:induction false} CallCharsOfConcat(a: seq<ToolCall>, b: seq<ToolCall>)
    ensures CallChars(a + b) == CallChars(a) + CallChars(b)
  {
    if a == [] {
      assert a + b == b;
    } else {
      assert (a + b)[1..] == a[1..] + b;
      CallCharsOfConcat(a[1..], b);
    }
  }

  lemma {:induction false} TotalSplits(messages: seq<Message>)
    ensures TotalChars(messages) == |ContentsOf(messages)| + CallChars(AllCalls(messages))
  {
    if messages != [] {
      TotalSplits(messages[1..]);
      CallCharsOfConcat(messages[0].toolCalls, AllCalls(messages[1..]));
    }
  }

  /** What a transcript counts: every character of its contents and arguments, and every byte of the tools' names. */
  lemma TotalCharsCountsEverything(messages: seq<Message>)
    ensures var names := NamesOf(AllCalls(messages));
            TotalChars(messages)
            == |ContentsOf(messages)| + |ArgumentsOf(AllCalls(messages))|
               + |names| + AtLeast(names, 0x80) + AtLeast(names, 0x800) + AtLeast(names, 0x1_0000)
  {
    TotalSplits(messages);
    CallCharsAre(AllCalls(messages));
    Utf8LengthIs(NamesOf(AllCalls(messages)));
  }

  lemma {:induction false} TotalOfConcat(a: seq<Message>, b: seq<Message>)
    ensures TotalChars(a + b) == TotalChars(a) + TotalChars(b)
  {
    if a == [] {
      assert a + b == b;
    } else {
      assert (a + b)[1..] == a[1..] + b;
      TotalOfConcat(a[1..], b);
    }
  }

  lemma TotalOfSuffix(messages: seq<Message>, i: nat)
    requires i < |messages|
    ensures TotalChars(messages[i..]) == Size(messages[i]) + TotalChars(messages[i + 1..])
  {
    assert messages[i..][1..] == messages[i + 1..];
  }

  lemma {:induction false} TotalShrinks(messages: seq<Message>, i: nat, j: nat)
    requires i <= j <= |messages|
    ensures TotalChars(messages[j..]) <= TotalChars(messages[i..])
    decreases j - i
  {
    if i < j {
      TotalOfSuffix(messages, i);
      TotalShrinks(messages, i + 1, j);
    }
  }

  /** Message `i` is the answer to a call of the assistant message `j`: only earlier
      answers stand between them, and answers come in the order of the calls. */
  ghost predicate Answers(messages: seq<Message>, i: nat, j: nat)
    requires i < |messages|
  {
    && j < i
    && messages[j].role == Assistant
    && i - j <= |messages[j].toolCalls|
    && messages[i].toolCallId == Some(messages[j].toolCalls[i - j - 1].id)
    && forall k :: j < k < i ==> messages[k].role == Tool
  }

  /** Each tool result follows its own call, and only assistant messages carry calls. A call may still
      be without a result: `AnswersAll` says that none is. */
  ghost predicate WellFormed(messages: seq<Message>) {
    && (forall i :: 0 <= i < |messages| && messages[i].role == Tool ==> exists j: nat :: Answers(messages, i, j))
    && (forall i :: 0 <= i < |messages| && messages[i].role != Assistant ==> messages[i].toolCalls == [])
  }

  /** The policy comes first and at least one user turn follows it. */
  ghost predicate Grounded(messages: seq<Message>) {
    && |messages| > 0
    && messages[0].role == System
    && exists i :: 1 <= i < |messages| && messages[i].role == User
  }

  /** The transcript ends with an assistant message holding `calls` and the answers to the first `done` of them. */
  ghost predicate OpenRound(messages: seq<Message>, calls: seq<ToolCall>, done: nat) {
    && done < |messages|
    && done <= |calls|
    && messages[|messages| - 1 - done].role == Assistant
    && messages[|messages| - 1 - done].toolCalls == calls
    && forall k :: |messages| - done <= k < |messages| ==> messages[k].role == Tool
  }

  lemma PushKeepsWellFormed(messages: seq<Message>, m: Message)
    requires WellFormed(messages)
    requires m.role != Tool
    requires m.role != Assistant ==> m.toolCalls == []
    ensures WellFormed(messages + [m])
  {
    var next := messages + [m];
    forall i | 0 <= i < |next| && next[i].role == Tool
      ensures exists j: nat :: Answers(next, i, j)
    {
      var j: nat :| Answers(messages, i, j);
      assert Answers(next, i, j);
    }
  }

  lemma AnswerKeepsWellFormed(messages: seq<Message>, calls: seq<ToolCall>, done: nat, output: string)
    requires WellFormed(messages)
    requires OpenRound(messages, calls, done)
    requires done < |calls|
    ensures WellFormed(messages + [ToolResult(calls[done], output)])
    ensures OpenRound(messages + [ToolResult(calls[done], output)], calls, done + 1)
  {
    var next := messages + [ToolResult(calls[done], output)];
    forall i | 0 <= i < |next| && next[i].role == Tool
      ensures exists j: nat :: Answers(next, i, j)
    {
      if i == |messages| {
        assert Answers(next, i, |messages| - 1 - done);
      } else {
        var j: nat :| Answers(messages, i, j);
        assert Answers(next, i, j);
      }
    }
  }

  /** Cutting a well-formed transcript at a user message, behind any plain preamble, keeps every
      answer behind its call. */
  lemma CutKeepsWellFormed(messages: seq<Message>, k: nat, preamble: seq<Message>)
    requires WellFormed(messages)
    requires k < |messages| && messages[k].role == User
    requires forall m <- preamble :: m.role == System && m.toolCalls == []
    ensures WellFormed(preamble + messages[k..])
  {
    var next := preamble + messages[k..];
    forall i | 0 <= i < |next| && next[i].role == Tool
      ensures exists j: nat :: Answers(next, i, j)
    {
      assert i >= |preamble|;
      var old_i := i - |preamble| + k;
      var j: nat :| Answers(messages, old_i, j);
      assert k < j;
      assert Answers(next, i, j - k + |preamble|);
    }
  }

  // ---------- Complete turns ----------

  ghost predicate InLastTurn(messages: seq<Message>, i: nat) {
    i < |messages| && forall k :: i < k < |messages| ==> messages[k].role != User
  }

  /** Every call of the last turn made before `end` has been answered. */
  ghost predicate Settled(messages: seq<Message>, end: nat) {
    forall i :: 0 <= i < end && InLastTurn(messages, i) && messages[i].role == Assistant ==>
      && i + |messages[i].toolCalls| < |messages|
      && forall k :: i < k <= i + |messages[i].toolCalls| ==> messages[k].role == Tool
  }

  lemma NewTurnIsSettled(messages: seq<Message>)
    requires |messages| > 0 && messages[|messages| - 1].role == User
    ensures Settled(messages, |messages|)
  {
    assert forall i :: 0 <= i < |messages| - 1 ==> !InLastTurn(messages, i);
  }

  lemma ReplyOpensRound(messages: seq<Message>, reply: Message)
    requires Settled(messages, |messages|) && reply.role == Assistant
    ensures OpenRound(messages + [reply], reply.toolCalls, 0)
    ensures Settled(messages + [reply], |messages|)
  {
    var next := messages + [reply];
    forall i | 0 <= i < |messages| && InLastTurn(next, i)
      ensures InLastTurn(messages, i)
    {
      assert forall k :: i < k < |messages| ==> next[k] == messages[k];
    }
  }

  lemma AnswerKeepsSettled(messages: seq<Message>, answer: Message, end: nat)
    requires Settled(messages, end) && end <= |messages| && answer.role == Tool
    ensures Settled(messages + [answer], end)
  {
    var next := messages + [answer];
    forall i | 0 <= i < end && InLastTurn(next, i)
      ensures InLastTurn(messages, i)
    {
      assert forall k :: i < k < |messages| ==> next[k] == messages[k];
    }
  }

  lemma AnsweredRoundIsSettled(messages: seq<Message>, calls: seq<ToolCall>)
    requires OpenRound(messages, calls, |calls|)
    requires Settled(messages, |messages| - 1 - |calls|)
    ensures Settled(messages, |messages|)
  {
  }

  lemma CutKeepsSettled(messages: seq<Message>, k: nat, preamble: seq<Message>)
    requires Settled(messages, |messages|) && k < |messages|
    requires forall m <- preamble :: m.role == System
    ensures Settled(preamble + messages[k..], |preamble + messages[k..]|)
  {
    var next := preamble + messages[k..];
    forall i | 0 <= i < |next| && InLastTurn(next, i) && next[i].role == Assistant
      ensures i + |next[i].toolCalls| < |next|
      ensures forall j :: i < j <= i + |next[i].toolCalls| ==> next[j].role == Tool
    {
      assert i >= |preamble|;
      var was := i - |preamble| + k;
      forall j | was < j < |messages|
        ensures messages[j].role != User
      {
        assert next[j - k + |preamble|] == messages[j];
      }
      assert InLastTurn(messages, was);
    }
  }

  // ---------- Earlier turns ----------

  /** Right behind the assistant message stand the answers to all its calls. */
  ghost predicate Answered(messages: seq<Message>, i: nat)
    requires i < |messages|
  {
    && i + |messages[i].toolCalls| < |messages|
    && forall k :: i < k <= i + |messages[i].toolCalls| ==> messages[k].role == Tool
  }

  /** No call anywhere in the transcript is without its result. */
  ghost predicate AnswersAll(messages: seq<Message>) {
    forall i :: 0 <= i < |messages| && messages[i].role == Assistant ==> Answered(messages, i)
  }

  /** When the user message `k` opened its turn, the turn before it had answered every call it made. */
  ghost predicate PreviousTurnSettled(messages: seq<Message>, k: nat)
    requires k < |messages|
  {
    Settled(messages[..k], k)
  }

  lemma {:induction false} NextUser(messages: seq<Message>, i: nat) returns (next: Option<nat>)
    requires i < |messages|
    ensures next.None? ==> InLastTurn(messages, i)
    ensures next.Some? ==> i < next.value < |messages| && messages[next.value].role == User
                           && InLastTurn(messages[..next.value], i)
    decreases |messages| - i
  {
    if i + 1 == |messages| {
      next := None;
    } else if messages[i + 1].role == User {
      next := Some(i + 1);
    } else {
      next := NextUser(messages, i + 1);
    }
  }

  lemma AnswerIsKept(messages: seq<Message>, k: nat, i: nat)
    requires i < k < |messages| && messages[k].role == User
    ensures Answered(messages[..k], i) <==> Answered(messages, i)
  {
    assert forall j :: 0 <= j < k ==> messages[..k][j] == messages[j];
  }

  /** A transcript whose last turn is settled answers every call exactly when each earlier turn it still
      holds had answered its own before the next one began. */
  lemma AnswersAllIff(messages: seq<Message>)
    requires Settled(messages, |messages|)
    ensures AnswersAll(messages)
            <==> forall k :: 0 <= k < |messages| && messages[k].role == User ==> PreviousTurnSettled(messages, k)
  {
    if AnswersAll(messages) {
      forall k, i | 0 <= i < k < |messages| && messages[k].role == User && messages[i].role == Assistant
        ensures Answered(messages[..k], i)
      {
        AnswerIsKept(messages, k, i);
      }
      forall k | 0 <= k < |messages| && messages[k].role == User
        ensures PreviousTurnSettled(messages, k)
      {
        assert forall i :: 0 <= i < k && messages[..k][i].role == Assistant ==> Answered(messages[..k], i);
      }
    }
    if forall k :: 0 <= k < |messages| && messages[k].role == User ==> PreviousTurnSettled(messages, k) {
      forall i | 0 <= i < |messages| && messages[i].role == Assistant
        ensures Answered(messages, i)
      {
        var next := NextUser(messages, i);
        if next.Some? {
          assert PreviousTurnSettled(messages, next.value);
          assert messages[..next.value][i] == messages[i];
          AnswerIsKept(messages, next.value, i);
        }
      }
    }
  }

  /** Every call of every turn but the last has its result. */
  ghost predicate EarlierAnswered(messages: seq<Message>) {
    forall i :: 0 <= i < |messages| && messages[i].role == Assistant && !InLastTurn(messages, i) ==>
      Answered(messages, i)
  }

  lemma AnswersAllSplits(messages: seq<Message>)
    ensures AnswersAll(messages) <==> EarlierAnswered(messages) && Settled(messages, |messages|)
  {
  }

  /** What is pushed within a turn does not touch the turns before it. */
  lemma PushKeepsEarlier(messages: seq<Message>, m: Message)
    requires m.role != User
    ensures EarlierAnswered(messages + [m]) <==> EarlierAnswered(messages)
  {
    var next := messages + [m];
    forall i | 0 <= i < |messages| && !InLastTurn(messages, i)
      ensures !InLastTurn(next, i) && (Answered(next, i) <==> Answered(messages, i))
    {
      var u :| i < u < |messages| && messages[u].role == User;
      assert next[u].role == User;
      AnswerIsKept(next, u, i);
      AnswerIsKept(messages, u, i);
      assert next[..u] == messages[..u];
    }
    forall i | 0 <= i < |messages| && InLastTurn(messages, i)
      ensures InLastTurn(next, i)
    {
    }
  }

  /** A new prompt makes the last turn an earlier one. */
  lemma PromptClosesTurn(messages: seq<Message>, prompt: Message)
    requires prompt.role == User
    ensures EarlierAnswered(messages + [prompt]) <==> AnswersAll(messages)
  {
    var next := messages + [prompt];
    assert next[..|messages|] == messages;
    forall i | 0 <= i < |messages|
      ensures !InLastTurn(next, i) && (Answered(next, i) <==> Answered(messages, i))
    {
      assert next[|messages|].role == User;
      AnswerIsKept(next, |messages|, i);
    }
  }

  lemma CutKeepsEarlier(messages: seq<Message>, k: nat, preamble: seq<Message>)
    requires EarlierAnswered(messages) && k <= |messages|
    requires forall m <- preamble :: m.role == System
    ensures EarlierAnswered(preamble + messages[k..])
  {
    var next := preamble + messages[k..];
    forall i | 0 <= i < |next| && next[i].role == Assistant && !InLastTurn(next, i)
      ensures Answered(next, i)
    {
      var was := i - |preamble| + k;
      assert next[i] == messages[was];
      var u :| i < u < |next| && next[u].role == User;
      assert messages[u - |preamble| + k] == next[u];
      assert !InLastTurn(messages, was);
      forall j | i < j <= i + |next[i].toolCalls|
        ensures next[j].role == Tool
      {
        assert next[j] == messages[j - |preamble| + k];
      }
    }
  }

  /** An open round leaves calls without results exactly when it is not full. */
  lemma RoundSettledIff(messages: seq<Message>, calls: seq<ToolCall>, done: nat)
    requires OpenRound(messages, calls, done) && Settled(messages, |messages| - 1 - done)
    ensures Settled(messages, |messages|) <==> done == |calls|
  {
    var i := |messages| - 1 - done;
    assert InLastTurn(messages, i);
    if done == |calls| {
      AnsweredRoundIsSettled(messages, calls);
    }
  }
}
