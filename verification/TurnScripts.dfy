/** Every turn that the permission mode admits can be carried through: whatever the provider replies and the host
    answers, some run files exactly that. */
module TurnScripts {
  import opened Basics
  import opened Transcript
  import opened Compaction
  import opened EventLog
  import opened TurnEngine
  import opened TurnFrames
  import opened TurnOwnership
  import opened TurnSafety

  // ---------- Scripts ----------

  /** A call and what the host answers to it. */
  datatype Item = Item(call: ToolCall, text: string)

  /** A reply with calls. */
  datatype Round = Round(text: string, items: seq<Item>)

  /** Only what changes something needs more than a turn that reads. */
  predicate Permitted(mode: Mode, call: ToolCall) {
    IsTool(call.name) && (mode == ReadOnly ==> OnlyReads(call))
  }

  predicate IsScript(mode: Mode, rounds: seq<Round>) {
    |rounds| < 24 && forall r <- rounds :: IsPermitted(mode, r)
  }

  predicate IsPermitted(mode: Mode, r: Round) {
    r.items != [] && forall x <- r.items :: Permitted(mode, x.call)
  }

  function CallsOf(items: seq<Item>): (calls: seq<ToolCall>)
    ensures |calls| == |items| && forall i :: 0 <= i < |items| ==> calls[i] == items[i].call
  {
    seq(|items|, i requires 0 <= i < |items| => items[i].call)
  }

  /** What of an answer is kept. */
  function Shown(text: string): string {
    if |text| <= 16_384 then text else text[..16_384] + "\n[ND output truncated]"
  }

  function ResultsOf(items: seq<Item>): (results: seq<Message>)
    ensures |results| == |items|
    ensures forall i :: 0 <= i < |items| ==> results[i] == ToolResult(items[i].call, Shown(items[i].text))
  {
    seq(|items|, i requires 0 <= i < |items| => ToolResult(items[i].call, Shown(items[i].text)))
  }

  function Played(rounds: seq<Round>): seq<Message> {
    if rounds == [] then []
    else [Message(Assistant, rounds[0].text, CallsOf(rounds[0].items), None)] + ResultsOf(rounds[0].items)
         + Played(rounds[1..])
  }

  // ---------- Single steps ----------

  /** The worker stands here, not cancelled, and the serve thread is free. */
  ghost predicate Stands(s: State, t: nat, w: Worker) {
    && t in s.workers && s.workers[t] == w && w.sid in s.sessions && t !in s.flags && s.serve == Idle && !w.compact
  }

  /** The worker's step that goes from one state to the other. */
  ghost predicate Went(a: State, s: State, n: State, t: nat, w: Worker, eff: Effect, w': Worker)
    requires w.sid in s.sessions
  {
    && Leads(a, n) && w'.sid == w.sid && Stands(n, t, w') && n.sessions[w.sid] == SessionAfter(s.sessions[w.sid], eff)
    && n.approvals == s.approvals && n.hostReplies == s.hostReplies
    && n.pendingApprovals == ApprovalsAfter(s.pendingApprovals, eff)
    && n.pendingHosts == HostsAfter(s.pendingHosts, eff)
    && (Saves(eff) ==> w.sid in n.disk && n.disk[w.sid] == n.sessions[w.sid])
  }

  lemma Goes(a: State, s: State, t: nat, w: Worker, eff: Effect, w': Worker) returns (n: State)
    requires Leads(a, s) && Stands(s, t, w) && w'.sid == w.sid && w'.compact == w.compact
    requires !eff.Exit? && (eff.OpenApproval? || eff.OpenHost? ==> eff.id !in s.issued)
    requires Local(t, w, ViewOf(s, t, w), eff, w')
    ensures Went(a, s, n, t, w, eff, w')
  {
    var step := Work(t, eff, w');
    LeadsOneStep(a, s, step);
    n := After(s, step);
  }

  lemma FreshId(taken: set<nat>) returns (id: nat)
    ensures id !in taken
  {
    id := Above(taken);
  }

  lemma {:induction false} Above(taken: set<nat>) returns (bound: nat)
    ensures forall id <- taken :: id < bound
  {
    if taken == {} {
      bound := 0;
    } else {
      var some :| some in taken;
      var rest := Above(taken - {some});
      bound := if some < rest then rest else some + 1;
      assert forall id <- taken :: id == some || id in taken - {some};
    }
  }

  /** The user approves, or the host answers. */
  lemma UserApproves(a: State, s: State, t: nat, w: Worker, id: nat) returns (n: State)
    requires Leads(a, s) && Stands(s, t, w) && id in s.pendingApprovals
    ensures Leads(a, n) && Stands(n, t, w) && n.sessions == s.sessions
    ensures id in n.approvals && n.approvals[id]
  {
    LeadsOneStep(a, s, Respond(id, true));
    n := After(s, Respond(id, true));
  }

  lemma HostGives(a: State, s: State, t: nat, w: Worker, id: nat, text: string) returns (n: State)
    requires Leads(a, s) && Stands(s, t, w) && id in s.pendingHosts
    ensures Leads(a, n) && Stands(n, t, w) && n.sessions == s.sessions
    ensures id in n.hostReplies && n.hostReplies[id] == Output(text)
  {
    LeadsOneStep(a, s, HostAnswer(id, Output(text)));
    n := After(s, HostAnswer(id, Output(text)));
  }

  // ---------- One call ----------

  lemma CallIsTakenUp(s: State, t: nat, w: Worker) returns (n: State)
    requires Stands(s, t, w) && w.pc.CallTop? && w.index < |w.calls|
    ensures Leads(s, n) && Stands(n, t, w.(pc := Announce)) && n.sessions[w.sid] == s.sessions[w.sid]
  {
    LeadsNowhere(s);
    n := Goes(s, s, t, w, Silent, w.(pc := Announce));
  }

  lemma CallIsRecorded(s: State, t: nat, w: Worker) returns (n: State)
    requires Stands(s, t, w) && w.pc.Announce? && w.index < |w.calls| && w.calls[w.index].name in TOOL_NAMES
    ensures Leads(s, n) && Stands(n, t, w.(pc := Decide)) && n.sessions[w.sid].messages == s.sessions[w.sid].messages
  {
    var messages := s.sessions[w.sid].messages;
    LeadsNowhere(s);
    n := Goes(s, s, t, w, Record(messages, CallRecorded(Key(t, w), w.calls[w.index]), Sent), w.(pc := SaveCall));
    n := Goes(s, n, t, w.(pc := SaveCall), Save, w.(pc := Decide));
  }

  lemma CallIsAnnounced(s: State, t: nat, w: Worker) returns (n: State)
    requires Stands(s, t, w) && w.pc.CallTop? && w.index < |w.calls| && Permitted(w.mode, w.calls[w.index])
    ensures Leads(s, n) && Stands(n, t, w.(pc := Decide)) && n.sessions[w.sid].messages == s.sessions[w.sid].messages
  {
    var s1 := CallIsTakenUp(s, t, w);
    n := CallIsRecorded(s1, t, w.(pc := Announce));
    LeadsOn(s, s1, n);
  }

  lemma CallIsShown(s: State, t: nat, w: Worker, id: nat) returns (n: State)
    requires Stands(s, t, w) && w.pc.Asking? && w.index < |w.calls| && id !in s.issued
    ensures Leads(s, n) && Stands(n, t, w.(pc := Waiting(id))) && n.sessions[w.sid] == s.sessions[w.sid]
    ensures id in n.pendingApprovals
  {
    LeadsNowhere(s);
    n := Goes(s, s, t, w, OpenApproval(id), w.(pc := AskEmit(id)));
    n := Goes(s, n, t, w.(pc := AskEmit(id)), Say(ApprovalRequested(id, Key(t, w))), w.(pc := Waiting(id)));
  }

  /** The user is asked under a fresh id and approves. */
  lemma CallIsAsked(s: State, t: nat, w: Worker) returns (n: State, id: nat)
    requires Stands(s, t, w) && w.pc.Asking? && w.index < |w.calls|
    ensures Leads(s, n) && Stands(n, t, w.(pc := WaitPoll(id))) && n.sessions[w.sid] == s.sessions[w.sid]
    ensures id in n.approvals && n.approvals[id]
  {
    id := FreshId(s.issued.Keys);
    n := CallIsShown(s, t, w, id);
    n := UserApproves(s, n, t, w.(pc := Waiting(id)), id);
    n := Goes(s, n, t, w.(pc := Waiting(id)), Silent, w.(pc := WaitPoll(id)));
  }

  lemma ApprovalIsSeen(s: State, t: nat, w: Worker, id: nat) returns (n: State)
    requires Stands(s, t, w) && w.pc == WaitPoll(id) && w.index < |w.calls| && id in s.approvals && s.approvals[id]
    ensures Leads(s, n) && Stands(n, t, w.(pc := WaitDone(id, Some(true)))) && n.sessions[w.sid] == s.sessions[w.sid]
  {
    LeadsNowhere(s);
    n := Goes(s, s, t, w, Silent, w.(pc := WaitDone(id, Some(true))));
  }

  lemma ApprovalIsTaken(s: State, t: nat, w: Worker, id: nat) returns (n: State)
    requires Stands(s, t, w) && w.pc == WaitPoll(id) && w.index < |w.calls| && id in s.approvals && s.approvals[id]
    ensures Leads(s, n) && Stands(n, t, w.(pc := Sending)) && n.sessions[w.sid] == s.sessions[w.sid]
  {
    n := ApprovalIsSeen(s, t, w, id);
    n := Goes(s, n, t, w.(pc := WaitDone(id, Some(true))), CloseApproval(id), w.(pc := Resolve(id, Some(true))));
    n := Goes(s, n, t, w.(pc := Resolve(id, Some(true))), Say(ApprovalResolved(id, true)), w.(pc := Sending));
  }

  lemma DecisionByName(mode: Mode, call: ToolCall)
    requires Permitted(mode, call)
    ensures RequiresApproval(mode, call)
            == if OnlyReads(call) || mode == FullAccess || call.name == "nd_workspace_write" then Granted else Ask
  {
  }

  lemma CallIsCleared(s: State, t: nat, w: Worker) returns (n: State)
    requires Stands(s, t, w) && w.pc.Decide? && w.index < |w.calls| && Permitted(w.mode, w.calls[w.index])
    ensures Leads(s, n) && Stands(n, t, w.(pc := Sending)) && n.sessions[w.sid] == s.sessions[w.sid]
  {
    DecisionByName(w.mode, w.calls[w.index]);
    LeadsNowhere(s);
    if RequiresApproval(w.mode, w.calls[w.index]) == Granted {
      n := Goes(s, s, t, w, Silent, w.(pc := Sending));
    } else {
      var s1 := Goes(s, s, t, w, Silent, w.(pc := Asking));
      var s2, id := CallIsAsked(s1, t, w.(pc := Asking));
      LeadsOn(s, s1, s2);
      n := ApprovalIsTaken(s2, t, w.(pc := WaitPoll(id)), id);
      LeadsOn(s, s2, n);
    }
  }

  lemma HostIsAsked(s: State, t: nat, w: Worker, id: nat) returns (n: State)
    requires Stands(s, t, w) && w.pc.Sending? && w.index < |w.calls| && id !in s.issued
    ensures Leads(s, n) && Stands(n, t, w.(pc := HostWait(id))) && n.sessions[w.sid] == s.sessions[w.sid]
    ensures id in n.pendingHosts
  {
    LeadsNowhere(s);
    n := Goes(s, s, t, w, OpenHost(id), w.(pc := HostEmit(id)));
    n := Goes(s, n, t, w.(pc := HostEmit(id)), Say(HostTool(id, w.sid, Key(t, w), w.calls[w.index], w.mode)),
              w.(pc := HostWait(id)));
  }

  lemma CallIsSent(s: State, t: nat, w: Worker, text: string) returns (n: State, id: nat)
    requires Stands(s, t, w) && w.pc.Sending? && w.index < |w.calls|
    ensures Leads(s, n) && Stands(n, t, w.(pc := HostPoll(id))) && n.sessions[w.sid] == s.sessions[w.sid]
    ensures id in n.hostReplies && n.hostReplies[id] == Output(text)
  {
    id := FreshId(s.issued.Keys);
    n := HostIsAsked(s, t, w, id);
    n := HostGives(s, n, t, w.(pc := HostWait(id)), id, text);
    n := Goes(s, n, t, w.(pc := HostWait(id)), Silent, w.(pc := HostPoll(id)));
  }

  lemma AnswerIsSeen(s: State, t: nat, w: Worker, id: nat, text: string) returns (n: State)
    requires Stands(s, t, w) && w.pc == HostPoll(id) && w.index < |w.calls|
    requires id in s.hostReplies && s.hostReplies[id] == Output(text)
    ensures Leads(s, n) && Stands(n, t, w.(pc := HostDone(id, Some(Output(text)))))
    ensures n.sessions[w.sid] == s.sessions[w.sid]
  {
    LeadsNowhere(s);
    n := Goes(s, s, t, w, Silent, w.(pc := HostDone(id, Some(Output(text)))));
  }

  lemma AnswerIsShown(s: State, t: nat, w: Worker, id: nat, text: string) returns (n: State)
    requires Stands(s, t, w) && w.pc == HostDone(id, Some(Output(text))) && w.index < |w.calls|
    ensures Leads(s, n) && Stands(n, t, w.(pc := PushResult(Shown(text)))) && n.sessions[w.sid] == s.sessions[w.sid]
  {
    assert Clip(text) == Shown(text);
    LeadsNowhere(s);
    n := Goes(s, s, t, w, CloseHost(id), w.(pc := PushResult(Shown(text))));
  }

  lemma ResultIsPushed(s: State, t: nat, w: Worker, output: string) returns (n: State)
    requires Stands(s, t, w) && w.pc == PushResult(output) && w.index < |w.calls|
    ensures Leads(s, n) && Stands(n, t, w.(pc := SaveResult))
    ensures n.sessions[w.sid].messages == s.sessions[w.sid].messages + [ToolResult(w.calls[w.index], output)]
  {
    var messages := s.sessions[w.sid].messages + [ToolResult(w.calls[w.index], output)];
    LeadsNowhere(s);
    n := Goes(s, s, t, w, Record(messages, ResultRecorded(Key(t, w), output), Sent), w.(pc := SaveResult));
  }

  lemma ResultIsFiled(s: State, t: nat, w: Worker, output: string) returns (n: State)
    requires Stands(s, t, w) && w.pc == PushResult(output) && w.index < |w.calls|
    ensures Leads(s, n) && Stands(n, t, w.(index := w.index + 1, pc := CallTop))
    ensures n.sessions[w.sid].messages == s.sessions[w.sid].messages + [ToolResult(w.calls[w.index], output)]
  {
    n := ResultIsPushed(s, t, w, output);
    n := Goes(s, n, t, w.(pc := SaveResult), Save, w.(index := w.index + 1, pc := CallTop));
  }

  lemma ClearedCallIsSent(s: State, t: nat, w: Worker, text: string) returns (n: State)
    requires Stands(s, t, w) && w.pc.Sending? && w.index < |w.calls|
    ensures Leads(s, n) && Stands(n, t, w.(pc := PushResult(Shown(text)))) && n.sessions[w.sid] == s.sessions[w.sid]
  {
    var s1, id := CallIsSent(s, t, w, text);
    var s2 := AnswerIsSeen(s1, t, w.(pc := HostPoll(id)), id, text);
    LeadsOn(s, s1, s2);
    n := AnswerIsShown(s2, t, w.(pc := HostDone(id, Some(Output(text)))), id, text);
    LeadsOn(s, s2, n);
  }

  lemma CallIsLetThrough(s: State, t: nat, w: Worker) returns (n: State)
    requires Stands(s, t, w) && w.pc.CallTop? && w.index < |w.calls| && Permitted(w.mode, w.calls[w.index])
    ensures Leads(s, n) && Stands(n, t, w.(pc := Sending)) && n.sessions[w.sid].messages == s.sessions[w.sid].messages
  {
    var s1 := CallIsAnnounced(s, t, w);
    n := CallIsCleared(s1, t, w.(pc := Decide));
    LeadsOn(s, s1, n);
  }

  lemma CallIsAnswered(s: State, t: nat, w: Worker, text: string) returns (n: State)
    requires Stands(s, t, w) && w.pc.CallTop? && w.index < |w.calls| && Permitted(w.mode, w.calls[w.index])
    ensures Leads(s, n) && Stands(n, t, w.(index := w.index + 1))
    ensures n.sessions[w.sid].messages == s.sessions[w.sid].messages + [ToolResult(w.calls[w.index], Shown(text))]
  {
    var s1 := CallIsLetThrough(s, t, w);
    var s2 := ClearedCallIsSent(s1, t, w.(pc := Sending), text);
    LeadsOn(s, s1, s2);
    n := ResultIsFiled(s2, t, w.(pc := PushResult(Shown(text))), Shown(text));
    LeadsOn(s, s2, n);
  }

  // ---------- Rounds ----------

  lemma OneAnswerMore(messages: seq<Message>, results: seq<Message>, i: nat)
    requires i < |results|
    ensures messages + [results[i]] + results[i + 1..] == messages + results[i..]
  {
  }

  lemma {:induction false} CallsAreAnswered(s: State, t: nat, w: Worker, items: seq<Item>) returns (n: State)
    requires Stands(s, t, w) && w.pc.CallTop? && w.calls == CallsOf(items) && w.index <= |items|
    requires forall x <- items :: Permitted(w.mode, x.call)
    ensures Leads(s, n) && Stands(n, t, w.(index := |items|))
    ensures n.sessions[w.sid].messages == s.sessions[w.sid].messages + ResultsOf(items)[w.index..]
    decreases |items| - w.index
  {
    if w.index == |items| {
      LeadsNowhere(s);
      n := s;
    } else {
      assert items[w.index] in items;
      var s1 := CallIsAnswered(s, t, w, items[w.index].text);
      n := CallsAreAnswered(s1, t, w.(index := w.index + 1), items);
      LeadsOn(s, s1, n);
      OneAnswerMore(s.sessions[w.sid].messages, ResultsOf(items), w.index);
    }
  }

  lemma RoundIsEntered(s: State, t: nat, w: Worker) returns (n: State)
    requires Stands(s, t, w) && w.pc.RoundTop? && w.round < 24
    ensures Leads(s, n) && Stands(n, t, w.(pc := Calling)) && n.sessions[w.sid] == s.sessions[w.sid]
  {
    LeadsNowhere(s);
    n := Goes(s, s, t, w, Silent, w.(pc := Compacting));
    n := Goes(s, n, t, w.(pc := Compacting), Silent, w.(pc := Calling));
  }

  lemma ModelReplies(s: State, t: nat, w: Worker, reply: Reply) returns (n: State)
    requires Stands(s, t, w) && w.pc.Calling?
    ensures Leads(s, n) && Stands(n, t, w.(pc := Returned(reply))) && n.sessions[w.sid] == s.sessions[w.sid]
  {
    LeadsNowhere(s);
    n := Goes(s, s, t, w, Silent, w.(pc := Requesting));
    n := Goes(s, n, t, w.(pc := Requesting), Say(ModelCall(t)), w.(pc := Streaming));
    n := Goes(s, n, t, w.(pc := Streaming), Say(ModelReplied(t, w.sid, reply)), w.(pc := Returned(reply)));
  }

  lemma ModelIsAsked(s: State, t: nat, w: Worker, reply: Reply) returns (n: State)
    requires Stands(s, t, w) && w.pc.RoundTop? && w.round < 24
    ensures Leads(s, n) && Stands(n, t, w.(pc := Returned(reply))) && n.sessions[w.sid] == s.sessions[w.sid]
  {
    var s1 := RoundIsEntered(s, t, w);
    n := ModelReplies(s1, t, w.(pc := Calling), reply);
    LeadsOn(s, s1, n);
  }

  lemma ReplyIsTaken(s: State, t: nat, w: Worker, reply: Reply) returns (n: State)
    requires Stands(s, t, w) && w.pc == Returned(reply) && !reply.usage
    ensures Leads(s, n) && Stands(n, t, w.(pc := PushReply(reply))) && n.sessions[w.sid] == s.sessions[w.sid]
  {
    LeadsNowhere(s);
    n := Goes(s, s, t, w, Silent, w.(pc := RecordUsage(reply)));
    n := Goes(s, n, t, w.(pc := RecordUsage(reply)), Silent, w.(pc := PushReply(reply)));
  }

  lemma ReplyIsPushed(s: State, t: nat, w: Worker, reply: Reply) returns (n: State)
    requires Stands(s, t, w) && w.pc == PushReply(reply)
    ensures Leads(s, n) && Stands(n, t, w.(pc := SaveReply(reply)))
    ensures n.sessions[w.sid].messages
            == s.sessions[w.sid].messages + [Message(Assistant, reply.text, reply.toolCalls, None)]
  {
    var messages := s.sessions[w.sid].messages + [Message(Assistant, reply.text, reply.toolCalls, None)];
    LeadsNowhere(s);
    var eff := if reply.text == "" then Write(messages) else Record(messages, AssistantMessage(reply.text), Sent);
    n := Goes(s, s, t, w, eff, w.(pc := SaveReply(reply)));
  }

  lemma ReplyIsFiled(s: State, t: nat, w: Worker, text: string, calls: seq<ToolCall>) returns (n: State)
    requires Stands(s, t, w) && w.pc.RoundTop? && w.round < 24
    ensures Leads(s, n)
    ensures Stands(n, t, if calls == [] then w.(pc := Finishing(true))
                         else w.(calls := calls, index := 0, pc := CallTop))
    ensures n.sessions[w.sid].messages == s.sessions[w.sid].messages + [Message(Assistant, text, calls, None)]
  {
    var reply := Reply(text, calls, false);
    var s1 := ModelIsAsked(s, t, w, reply);
    var s2 := ReplyIsTaken(s1, t, w.(pc := Returned(reply)), reply);
    LeadsOn(s, s1, s2);
    var s3 := ReplyIsPushed(s2, t, w.(pc := PushReply(reply)), reply);
    LeadsOn(s, s2, s3);
    n := Goes(s, s3, t, w.(pc := SaveReply(reply)), Save,
              if calls == [] then w.(pc := Finishing(true)) else w.(calls := calls, index := 0, pc := CallTop));
  }

  lemma RoundIsPlayed(s: State, t: nat, w: Worker, r: Round) returns (n: State)
    requires Stands(s, t, w) && w.pc.RoundTop? && w.round < 24 && w.calls == [] && w.index == 0
    requires IsPermitted(w.mode, r)
    ensures Leads(s, n) && Stands(n, t, w.(round := w.round + 1))
    ensures n.sessions[w.sid].messages
            == s.sessions[w.sid].messages + [Message(Assistant, r.text, CallsOf(r.items), None)] + ResultsOf(r.items)
  {
    var calls := CallsOf(r.items);
    var s1 := ReplyIsFiled(s, t, w, r.text, calls);
    var s2 := CallsAreAnswered(s1, t, w.(calls := calls, index := 0, pc := CallTop), r.items);
    LeadsOn(s, s1, s2);
    assert ResultsOf(r.items)[0..] == ResultsOf(r.items);
    n := Goes(s, s2, t, w.(calls := calls, index := |calls|, pc := CallTop), Silent, w.(round := w.round + 1));
  }

  lemma {:induction false} RoundsArePlayed(s: State, t: nat, w: Worker, rounds: seq<Round>) returns (n: State)
    requires Stands(s, t, w) && w.pc.RoundTop? && w.round + |rounds| < 24 && w.calls == [] && w.index == 0
    requires forall r <- rounds :: IsPermitted(w.mode, r)
    ensures Leads(s, n) && Stands(n, t, w.(round := w.round + |rounds|))
    ensures n.sessions[w.sid].messages == s.sessions[w.sid].messages + Played(rounds)
    decreases |rounds|
  {
    if rounds == [] {
      LeadsNowhere(s);
      n := s;
    } else {
      var s1 := RoundIsPlayed(s, t, w, rounds[0]);
      n := RoundsArePlayed(s1, t, w.(round := w.round + 1), rounds[1..]);
      LeadsOn(s, s1, n);
      PlayedInTurn(s.sessions[w.sid].messages, rounds);
    }
  }

  lemma PlayedInTurn(messages: seq<Message>, rounds: seq<Round>)
    requires rounds != []
    ensures messages + [Message(Assistant, rounds[0].text, CallsOf(rounds[0].items), None)] + ResultsOf(rounds[0].items)
            + Played(rounds[1..])
            == messages + Played(rounds)
  {
    var reply := [Message(Assistant, rounds[0].text, CallsOf(rounds[0].items), None)];
    Regroup(messages, reply, ResultsOf(rounds[0].items), Played(rounds[1..]));
  }

  lemma Regroup<T>(a: seq<T>, b: seq<T>, c: seq<T>, d: seq<T>)
    ensures a + b + c + d == a + (b + c + d)
  {
  }

  lemma TurnIsPlayed(s: State, t: nat, w: Worker, rounds: seq<Round>, last: string) returns (n: State)
    requires Stands(s, t, w) && w == Worker(w.sid, w.mode, false, 0, [], 0, RoundTop) && IsScript(w.mode, rounds)
    ensures Leads(s, n) && t in n.workers && n.workers[t].pc.Unregister? && w.sid in n.sessions && w.sid in n.disk
    ensures n.sessions[w.sid].messages
            == s.sessions[w.sid].messages + Played(rounds) + [Message(Assistant, last, [], None)]
    ensures !n.sessions[w.sid].running && n.disk[w.sid] == n.sessions[w.sid]
  {
    var s1 := RoundsArePlayed(s, t, w, rounds);
    var s2 := ReplyIsFiled(s1, t, w.(round := |rounds|), last, []);
    LeadsOn(s, s1, s2);
    n := Goes(s, s2, t, w.(round := |rounds|, pc := Finishing(true)), Stop(true),
              w.(round := |rounds|, pc := Unregister));
  }

  // ---------- The whole turn ----------

  lemma TurnIsStarted(s: State, sid: SessionId, prompt: string, mode: Mode) returns (n: State)
    requires s.serve == Idle && sid in s.sessions && !s.sessions[sid].running && IsPrompt(prompt)
    requires s.nextTurn !in s.flags
    ensures Leads(s, n) && Stands(n, s.nextTurn, Worker(sid, mode, false, 0, [], 0, RoundTop))
    ensures n.sessions[sid].messages == Opening(s.sessions[sid].messages, prompt)
  {
    var s1 := StartIsSaved(s, sid, prompt, mode);
    var s2 := After(s1, Register);
    var s3 := After(s2, AnnounceStart(true));
    LeadsOneStep(s, s1, Register);
    LeadsOneStep(s, s2, AnnounceStart(true));
    LeadsOneStep(s, s3, Spawn);
    n := After(s3, Spawn);
  }

  lemma StartIsSaved(s: State, sid: SessionId, prompt: string, mode: Mode) returns (n: State)
    requires s.serve == Idle && sid in s.sessions && !s.sessions[sid].running && IsPrompt(prompt)
    ensures Leads(s, n) && n.serve == Starting(sid, s.nextTurn, mode, false, StartRegister)
    ensures sid in n.sessions && n.sessions[sid].messages == Opening(s.sessions[sid].messages, prompt)
    ensures n.flags == s.flags
  {
    var begin := Begin(sid, prompt, mode, false, true);
    LeadsNowhere(s);
    LeadsOneStep(s, s, begin);
    var s1 := After(s, begin);
    LeadsOneStep(s, s1, CompactAtStart(true));
    var s2 := After(s1, CompactAtStart(true));
    LeadsOneStep(s, s2, SaveAtStart(Saved));
    n := After(s2, SaveAtStart(Saved));
  }

  /** From any reachable state in which the session is idle, and for any prompt, any fewer than 24 rounds of replies
      whose calls the mode permits, any answers of the host to them and any last reply, some run leads to the end of
      that turn: its transcript, in memory and on disk, is the old one, the prompt, and exactly these replies with
      exactly these answers, each behind its call. Calls that need it are approved on the way. */
  lemma EveryScriptIsPlayed(s: State, sid: SessionId, prompt: string, mode: Mode, rounds: seq<Round>, last: string)
    requires Reachable(s) && s.serve == Idle && sid in s.sessions && !s.sessions[sid].running && IsPrompt(prompt)
    requires IsScript(mode, rounds)
    ensures exists n ::
              && Leads(s, n) && sid in n.sessions && sid in n.disk
              && n.sessions[sid].messages
                 == (if s.sessions[sid].messages == [] then [Text(System, POLICY)] else s.sessions[sid].messages)
                    + [Text(User, prompt)] + Played(rounds) + [Message(Assistant, last, [], None)]
              && !n.sessions[sid].running && n.disk[sid] == n.sessions[sid]
  {
    assert FlagsAreDrawn(INITIAL);
    var steps :| Runs(INITIAL, steps, s);
    RunDrawsFlags(INITIAL, steps, s);
    var s1 := TurnIsStarted(s, sid, prompt, mode);
    var n := TurnIsPlayed(s1, s.nextTurn, Worker(sid, mode, false, 0, [], 0, RoundTop), rounds, last);
    LeadsOn(s, s1, n);
  }
}
