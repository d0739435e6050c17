/** Where every message of a transcript comes from: prompts are what clients sent, replies what the provider returned,
    and each result is what the host answered to that very call, or the reason why it was denied. */
module TurnSources {
  import opened Basics
  import opened Transcript
  import opened Compaction
  import opened EventLog
  import opened TurnEngine
  import opened TurnFrames
  import opened TurnOwnership
  import opened TurnSafety
  import opened TurnOnce
  import opened TurnTranscripts

  // ---------- Results and denials ----------

  /** A result shows the host's text, and of a long one as much as fits and a notice. */
  predicate Shows(output: string, text: string) {
    if |text| <= 16_384 then output == text else output == text[..16_384] + "\n[ND output truncated]"
  }

  /** The call was sent under its own id, and this is what the host answered to it. */
  ghost predicate IsResult(log: seq<Obs>, sid: SessionId, key: CallKey, call: ToolCall, mode: Mode, output: string) {
    exists id: nat, text: string ::
      HostTool(id, sid, key, call, mode) in log && HostAnswered(id, Output(text)) in log && Shows(output, text)
  }

  /** The user was asked and refused or did not answer in time, or could not be asked or told. */
  ghost predicate IsRefusal(log: seq<Obs>, id: nat, key: CallKey, output: string) {
    || (ApprovalRequested(id, key) in log && output == "Tool denied: ND agent approval timed out or canceled")
    || (ApprovalRequested(id, key) in log && Responded(id, false) in log
        && output == "Tool denied: ND agent tool was rejected")
    || (ApprovalLost(id, key) in log && "Tool denied: " <= output)
  }

  predicate NeedsApproval(mode: Mode, call: ToolCall) {
    mode == WorkspaceWrite && !OnlyReads(call) && call.name != "nd_workspace_write"
  }

  ghost predicate IsDenial(log: seq<Obs>, key: CallKey, call: ToolCall, mode: Mode, output: string) {
    || (mode == ReadOnly && !OnlyReads(call) && output == "Tool denied: ND Agent permission mode is read only")
    || (NeedsApproval(mode, call) && exists id: nat :: IsRefusal(log, id, key, output))
  }

  ghost predicate IsTold(log: seq<Obs>, sid: SessionId, key: CallKey, call: ToolCall, mode: Mode, output: string) {
    IsResult(log, sid, key, call, mode, output) || IsDenial(log, key, call, mode, output)
  }

  lemma ResultGrows(log: seq<Obs>, more: seq<Obs>, sid: SessionId, key: CallKey, call: ToolCall, mode: Mode,
                    output: string)
    requires IsResult(log, sid, key, call, mode, output)
    ensures IsResult(log + more, sid, key, call, mode, output)
  {
    var id: nat, text: string :|
      HostTool(id, sid, key, call, mode) in log && HostAnswered(id, Output(text)) in log && Shows(output, text);
    assert HostTool(id, sid, key, call, mode) in log + more && HostAnswered(id, Output(text)) in log + more;
  }

  lemma DenialGrows(log: seq<Obs>, more: seq<Obs>, key: CallKey, call: ToolCall, mode: Mode, output: string)
    requires IsDenial(log, key, call, mode, output)
    ensures IsDenial(log + more, key, call, mode, output)
  {
    if mode != ReadOnly {
      var id: nat :| IsRefusal(log, id, key, output);
      assert IsRefusal(log + more, id, key, output);
    }
  }

  lemma ToldGrows(log: seq<Obs>, more: seq<Obs>, sid: SessionId, key: CallKey, call: ToolCall, mode: Mode,
                  output: string)
    requires IsTold(log, sid, key, call, mode, output)
    ensures IsTold(log + more, sid, key, call, mode, output)
  {
    if IsResult(log, sid, key, call, mode, output) {
      ResultGrows(log, more, sid, key, call, mode, output);
    } else {
      DenialGrows(log, more, key, call, mode, output);
    }
  }

  // ---------- Sources ----------

  /** The client sent this prompt, which stands here trimmed. */
  ghost predicate Prompted(log: seq<Obs>, sid: SessionId, prompt: string) {
    && prompt != "" && !IsWhite(prompt[0]) && !IsWhite(prompt[|prompt| - 1])
    && exists o <- log :: (o.EventFrame? || o.EventLost?) && o.sid == sid && o.event.data == UserMessage(prompt)
  }

  /** The provider returned this text with these calls. */
  ghost predicate Replied(log: seq<Obs>, sid: SessionId, text: string, calls: seq<ToolCall>) {
    exists turn: nat, usage: bool :: ModelReplied(turn, sid, Reply(text, calls, usage)) in log
  }

  ghost predicate Filed(log: seq<Obs>, sid: SessionId, m: Message) {
    exists key, call, mode :: m == ToolResult(call, m.content) && IsTold(log, sid, key, call, mode, m.content)
  }

  predicate IsPolicyOrSummary(m: Message) {
    m == Text(System, POLICY) || (m == Text(System, m.content) && SUMMARY_HEADER <= m.content)
  }

  ghost predicate Sourced(log: seq<Obs>, sid: SessionId, m: Message) {
    match m.role
    case System => IsPolicyOrSummary(m)
    case User => m == Text(User, m.content) && Prompted(log, sid, m.content)
    case Assistant => m.toolCallId == None && Replied(log, sid, m.content, m.toolCalls)
    case Tool => Filed(log, sid, m)
  }

  ghost predicate RecordSourced(log: seq<Obs>, sid: SessionId, data: EventData) {
    match data
    case UserMessage(text) => Prompted(log, sid, text)
    case AssistantMessage(text) => exists calls :: Replied(log, sid, text, calls)
    case CallRecorded(key, call) => IsTool(call.name)
    case ResultRecorded(key, output) => exists call, mode :: IsTold(log, sid, key, call, mode, output)
    case _ => true
  }

  ghost predicate AllSourced(log: seq<Obs>, sid: SessionId, session: Session) {
    && (forall m <- session.messages :: Sourced(log, sid, m))
    && (forall e <- session.log.events :: RecordSourced(log, sid, e.data))
  }

  lemma SourcedGrows(log: seq<Obs>, more: seq<Obs>, sid: SessionId, m: Message)
    requires Sourced(log, sid, m)
    ensures Sourced(log + more, sid, m)
  {
    match m.role
    case System =>
    case User =>
      var o :| o in log && (o.EventFrame? || o.EventLost?) && o.sid == sid && o.event.data == UserMessage(m.content);
      assert o in log + more;
    case Assistant =>
      var turn: nat, usage: bool :| ModelReplied(turn, sid, Reply(m.content, m.toolCalls, usage)) in log;
      assert ModelReplied(turn, sid, Reply(m.content, m.toolCalls, usage)) in log + more;
    case Tool =>
      var key, call, mode :| m == ToolResult(call, m.content) && IsTold(log, sid, key, call, mode, m.content);
      ToldGrows(log, more, sid, key, call, mode, m.content);
  }

  lemma RecordSourcedGrows(log: seq<Obs>, more: seq<Obs>, sid: SessionId, data: EventData)
    requires RecordSourced(log, sid, data)
    ensures RecordSourced(log + more, sid, data)
  {
    match data
    case UserMessage(text) =>
      var o :| o in log && (o.EventFrame? || o.EventLost?) && o.sid == sid && o.event.data == UserMessage(text);
      assert o in log + more;
    case AssistantMessage(text) =>
      var calls :| Replied(log, sid, text, calls);
      var turn: nat, usage: bool :| ModelReplied(turn, sid, Reply(text, calls, usage)) in log;
      assert ModelReplied(turn, sid, Reply(text, calls, usage)) in log + more;
      assert Replied(log + more, sid, text, calls);
    case ResultRecorded(key, output) =>
      var call, mode :| IsTold(log, sid, key, call, mode, output);
      ToldGrows(log, more, sid, key, call, mode, output);
    case _ =>
  }

  lemma AllSourcedGrows(log: seq<Obs>, more: seq<Obs>, sid: SessionId, session: Session)
    requires AllSourced(log, sid, session)
    ensures AllSourced(log + more, sid, session)
  {
    forall m <- session.messages ensures Sourced(log + more, sid, m) {
      SourcedGrows(log, more, sid, m);
    }
    forall e <- session.log.events ensures RecordSourced(log + more, sid, e.data) {
      RecordSourcedGrows(log, more, sid, e.data);
    }
  }

  // ---------- One worker ----------

  predicate HoldsReply(pc: Pc) {
    pc.Returned? || pc.RecordUsage? || pc.PushReply?
  }

  /** The worker waits for the user's answer under this id. */
  predicate AsksUnder(pc: Pc, id: nat) {
    (pc.Waiting? || pc.WaitPoll? || pc.WaitDone? || pc.Resolve?) && pc.id == id
  }

  predicate AsksHostUnder(pc: Pc, id: nat) {
    (pc.HostWait? || pc.HostPoll? || pc.HostDone?) && pc.hostId == id
  }

  /** What a worker knows about the reply it takes up and the call it stands at. */
  ghost predicate Knows(turn: nat, w: Worker, log: seq<Obs>) {
    && (HoldsReply(w.pc) ==> Replied(log, w.sid, w.pc.reply.text, w.pc.reply.toolCalls))
    && (InCall(w.pc) && w.index < |w.calls| ==> KnowsCall(turn, w, w.calls[w.index], log))
  }

  ghost predicate KnowsCall(turn: nat, w: Worker, call: ToolCall, log: seq<Obs>) {
    && (PhaseOf(w.pc) == AskingUser ==> NeedsApproval(w.mode, call))
    && (forall id: nat :: AsksUnder(w.pc, id) ==> ApprovalRequested(id, Key(turn, w)) in log)
    && (w.pc.WaitDone? && w.pc.answer.Some? ==> Responded(w.pc.id, w.pc.answer.value) in log)
    && (w.pc.Resolve? && w.pc.answer.Some? ==> Responded(w.pc.id, w.pc.answer.value) in log)
    && (forall id: nat :: AsksHostUnder(w.pc, id) ==> HostTool(id, w.sid, Key(turn, w), call, w.mode) in log)
    && (w.pc.HostDone? && w.pc.result.Some? ==> HostAnswered(w.pc.hostId, w.pc.result.value) in log)
    && (w.pc.PushResult? ==> IsResult(log, w.sid, Key(turn, w), call, w.mode, w.pc.output))
    && (w.pc.PushDenial? ==> IsDenial(log, Key(turn, w), call, w.mode, w.pc.reason))
  }

  lemma RepliedGrows(log: seq<Obs>, more: seq<Obs>, sid: SessionId, text: string, calls: seq<ToolCall>)
    requires Replied(log, sid, text, calls)
    ensures Replied(log + more, sid, text, calls)
  {
    var turn: nat, usage: bool :| ModelReplied(turn, sid, Reply(text, calls, usage)) in log;
    assert ModelReplied(turn, sid, Reply(text, calls, usage)) in log + more;
  }

  lemma KnowsGrows(turn: nat, w: Worker, log: seq<Obs>, more: seq<Obs>)
    requires Knows(turn, w, log)
    ensures Knows(turn, w, log + more)
  {
    if HoldsReply(w.pc) {
      RepliedGrows(log, more, w.sid, w.pc.reply.text, w.pc.reply.toolCalls);
    } else if InCall(w.pc) && w.index < |w.calls| {
      KnowsCallGrows(turn, w, w.calls[w.index], log, more);
    }
  }

  lemma KnowsCallGrows(turn: nat, w: Worker, call: ToolCall, log: seq<Obs>, more: seq<Obs>)
    requires KnowsCall(turn, w, call, log)
    ensures KnowsCall(turn, w, call, log + more)
  {
    assert forall o <- log :: o in log + more;
    if w.pc.PushResult? {
      ResultGrows(log, more, w.sid, Key(turn, w), call, w.mode, w.pc.output);
    } else if w.pc.PushDenial? {
      DenialGrows(log, more, Key(turn, w), call, w.mode, w.pc.reason);
    }
  }

  // ---------- What a step adds to the session ----------

  /** No message, and a record that needs no source. */
  predicate AddsNothing(session: Session, eff: Effect) {
    && SessionAfter(session, eff).messages == session.messages
    && (eff.Record? ==> eff.data.Chunk? || eff.data.Usage? || eff.data.AgentError? || eff.data.ContextCompacted?
                        || (eff.data.CallRecorded? && IsTool(eff.data.call.name)))
  }

  predicate AddsReply(w: Worker, session: Session, eff: Effect) {
    && w.pc.PushReply?
    && SessionAfter(session, eff).messages
       == session.messages + [Message(Assistant, w.pc.reply.text, w.pc.reply.toolCalls, None)]
    && (if w.pc.reply.text == "" then eff.Write? else eff.Record? && eff.data == AssistantMessage(w.pc.reply.text))
  }

  predicate AddsAnswer(turn: nat, w: Worker, session: Session, eff: Effect) {
    && (w.pc.PushResult? || w.pc.PushDenial?) && w.index < |w.calls|
    && var output := if w.pc.PushResult? then w.pc.output else w.pc.reason;
    && eff.Record? && eff.data == ResultRecorded(Key(turn, w), output)
    && eff.messages == session.messages + [ToolResult(w.calls[w.index], output)]
  }

  /** All that a step can do to the transcript. */
  predicate Adds(turn: nat, w: Worker, session: Session, eff: Effect) {
    || AddsNothing(session, eff)
    || (eff.Record? && eff.data.ContextCompacted? && eff.messages == AfterCompaction(w.compact, session.messages))
    || AddsReply(w, session, eff)
    || AddsAnswer(turn, w, session, eff)
  }

  lemma AskingModelAdds(turn: nat, w: Worker, v: View, eff: Effect, w': Worker)
    requires PhaseOf(w.pc) == AskingModel && AskModel(turn, w, v, eff, w')
    ensures Adds(turn, w, v.session, eff)
  {
    if w.pc.Compacting? {
      match Compacted(w.compact, v.session.messages) case None => case Some(_) =>
    }
  }

  lemma TakingReplyAdds(turn: nat, w: Worker, v: View, eff: Effect, w': Worker)
    requires PhaseOf(w.pc) == TakingReply && TakeReply(w, v, eff, w')
    ensures Adds(turn, w, v.session, eff)
  {
  }

  lemma FilingAdds(turn: nat, w: Worker, v: View, eff: Effect, w': Worker)
    requires PhaseOf(w.pc) == FilingCall && w.index < |w.calls| && FileCall(turn, w, v, eff, w')
    ensures Adds(turn, w, v.session, eff)
  {
  }

  lemma WorkerAdds(turn: nat, w: Worker, v: View, eff: Effect, w': Worker)
    requires Local(turn, w, v, eff, w')
    ensures Adds(turn, w, v.session, eff)
  {
    match PhaseOf(w.pc)
    case AskingModel => AskingModelAdds(turn, w, v, eff, w');
    case TakingReply => TakingReplyAdds(turn, w, v, eff, w');
    case FilingCall => FilingAdds(turn, w, v, eff, w');
    case AskingUser => AskUserStays(turn, w, v, eff, w');
    case AskingHost =>
    case Ending =>
  }

  lemma CompactionInventsNothing(enabled: bool, messages: seq<Message>)
    ensures forall m <- AfterCompaction(enabled, messages) :: m in messages || IsPolicyOrSummary(m)
  {
    if Compacted(enabled, messages).Some? {
      SummaryKeepsHeader(SUMMARY_HEADER,
                         messages[FirstConversation(messages)..SuffixStart(messages, FirstConversation(messages),
                                                                           Budget(messages))]);
    }
  }

  lemma {:induction false} SummaryKeepsHeader(summary: string, dropped: seq<Message>)
    ensures summary <= SummaryFrom(summary, dropped)
    decreases |dropped|
  {
    if dropped != [] {
      if dropped[0].role == Tool {
        SummaryKeepsHeader(summary, dropped[1..]);
      } else if Monus(COMPACT_SUMMARY_CHARS, |summary|) >= 64 {
        var excerpt := Excerpt(summary, dropped[0]);
        var next := if Blank(excerpt) then summary else summary + SummaryLine(dropped[0], excerpt);
        SummaryKeepsHeader(next, dropped[1..]);
      }
    }
  }

  lemma AnswerIsSourced(turn: nat, w: Worker, log: seq<Obs>, output: string)
    requires w.index < |w.calls| && IsTold(log, w.sid, Key(turn, w), w.calls[w.index], w.mode, output)
    ensures Sourced(log, w.sid, ToolResult(w.calls[w.index], output))
    ensures RecordSourced(log, w.sid, ResultRecorded(Key(turn, w), output))
  {
  }

  lemma AddedIsSourced(turn: nat, w: Worker, session: Session, eff: Effect, log: seq<Obs>)
    requires Knows(turn, w, log) && Adds(turn, w, session, eff)
    ensures forall m <- SessionAfter(session, eff).messages :: m in session.messages || Sourced(log, w.sid, m)
    ensures eff.Record? ==> RecordSourced(log, w.sid, eff.data)
  {
    if AddsAnswer(turn, w, session, eff) {
      AnswerIsSourced(turn, w, log, eff.data.output);
    } else if !AddsNothing(session, eff) && !AddsReply(w, session, eff) {
      CompactionInventsNothing(w.compact, session.messages);
    }
  }

  // ---------- What a step lets the worker know ----------

  lemma AskingModelLearns(turn: nat, w: Worker, v: View, eff: Effect, w': Worker, log: seq<Obs>)
    requires PhaseOf(w.pc) == AskingModel && AskModel(turn, w, v, eff, w')
    ensures Knows(turn, w', log + Emits(w.sid, v.session, eff))
  {
    if w.pc.Compacting? {
      match Compacted(w.compact, v.session.messages) case None => case Some(_) =>
    } else if w'.pc.Returned? {
      var reply := w'.pc.reply;
      assert (log + [eff.obs])[|log|] == ModelReplied(turn, w.sid, Reply(reply.text, reply.toolCalls, reply.usage));
    }
  }

  lemma HoldingReplyLearns(turn: nat, w: Worker, v: View, eff: Effect, w': Worker, log: seq<Obs>)
    requires (w.pc.Returned? || w.pc.RecordUsage?) && TakeReply(w, v, eff, w') && Knows(turn, w, log)
    ensures Knows(turn, w', log)
  {
  }

  lemma FilingReplyLearns(turn: nat, w: Worker, v: View, eff: Effect, w': Worker, log: seq<Obs>)
    requires (w.pc.PushReply? || w.pc.SaveReply? || w.pc.CallTop?) && TakeReply(w, v, eff, w')
    ensures Knows(turn, w', log)
  {
  }

  lemma TakingReplyLearns(turn: nat, w: Worker, v: View, eff: Effect, w': Worker, log: seq<Obs>)
    requires PhaseOf(w.pc) == TakingReply && TakeReply(w, v, eff, w') && Knows(turn, w, log)
    ensures Knows(turn, w', log)
  {
    if w.pc.Returned? || w.pc.RecordUsage? {
      HoldingReplyLearns(turn, w, v, eff, w', log);
    } else {
      FilingReplyLearns(turn, w, v, eff, w', log);
    }
  }

  lemma DecisionIsByName(mode: Mode, call: ToolCall)
    ensures RequiresApproval(mode, call) == Ask ==> NeedsApproval(mode, call)
    ensures RequiresApproval(mode, call) == Refused ==> mode == ReadOnly && !OnlyReads(call)
  {
  }

  lemma DecidingLearns(turn: nat, w: Worker, v: View, eff: Effect, w': Worker, log: seq<Obs>)
    requires w.pc.Decide? && w.index < |w.calls| && FileCall(turn, w, v, eff, w')
    ensures Knows(turn, w', log)
  {
    DecisionIsByName(w.mode, w.calls[w.index]);
    assert w' == w.(pc := w'.pc);
  }

  lemma FilingLearns(turn: nat, w: Worker, v: View, eff: Effect, w': Worker, log: seq<Obs>)
    requires PhaseOf(w.pc) == FilingCall && w.index < |w.calls| && FileCall(turn, w, v, eff, w')
    ensures Knows(turn, w', log)
  {
    if w.pc.Decide? {
      DecidingLearns(turn, w, v, eff, w', log);
    }
  }

  lemma LosingLearns(turn: nat, w: Worker, id: nat, eff: Effect, w': Worker, log: seq<Obs>)
    requires w.index < |w.calls| && LosingFrame(turn, w, id, eff, w') && NeedsApproval(w.mode, w.calls[w.index])
    ensures Knows(turn, w', log + [eff.obs])
  {
    assert (log + [eff.obs])[|log|] == eff.obs;
    assert IsRefusal(log + [eff.obs], id, Key(turn, w), w'.pc.reason);
  }

  lemma WaitingLearns(turn: nat, w: Worker, v: View, eff: Effect, w': Worker, log: seq<Obs>)
    requires w.pc.Asking? || w.pc.Waiting? || w.pc.WaitPoll? || w.pc.WaitDone?
    requires w.index < |w.calls| && AskUser(turn, w, v, eff, w') && Knows(turn, w, log)
    requires forall id <- v.approvals :: Responded(id, v.approvals[id]) in log
    ensures !eff.Say? && Knows(turn, w', log)
  {
    assert !w.pc.Asking? ==> AsksUnder(w.pc, w.pc.id);
  }

  lemma AskEmitLearns(turn: nat, w: Worker, v: View, eff: Effect, w': Worker, log: seq<Obs>)
    requires w.pc.AskEmit? && w.index < |w.calls| && AskUser(turn, w, v, eff, w') && Knows(turn, w, log)
    ensures eff.Say? && Knows(turn, w', log + [eff.obs])
  {
    if eff.obs.ApprovalLost? {
      LosingLearns(turn, w, w.pc.id, eff, w', log);
    } else {
      assert (log + [eff.obs])[|log|] == eff.obs;
    }
  }

  lemma RefusedLearns(turn: nat, w: Worker, w': Worker, id: nat, log: seq<Obs>)
    requires w.index < |w.calls| && NeedsApproval(w.mode, w.calls[w.index])
    requires w' == w.(pc := w'.pc) && w'.pc.PushDenial? && IsRefusal(log, id, Key(turn, w), w'.pc.reason)
    ensures Knows(turn, w', log)
  {
  }

  lemma ToldLearns(turn: nat, w: Worker, w': Worker, id: nat, allowed: bool, log: seq<Obs>)
    requires w.index < |w.calls| && NeedsApproval(w.mode, w.calls[w.index])
    requires ApprovalRequested(id, Key(turn, w)) in log && Responded(id, allowed) in log
    requires w' == w.(pc := if allowed then Sending else PushDenial(REJECTED))
    ensures Knows(turn, w', log)
  {
    if !allowed {
      RefusedLearns(turn, w, w', id, log);
    }
  }

  lemma ResolvingLearns(turn: nat, w: Worker, v: View, eff: Effect, w': Worker, log: seq<Obs>)
    requires w.pc.Resolve? && w.index < |w.calls| && AskUser(turn, w, v, eff, w') && Knows(turn, w, log)
    ensures Knows(turn, w', log + if eff.Say? then [eff.obs] else [])
  {
    match w.pc.answer
    case None =>
      RefusedLearns(turn, w, w', w.pc.id, log);
      assert log + [] == log;
    case Some(allowed) =>
      if eff.obs.ApprovalLost? {
        LosingLearns(turn, w, w.pc.id, eff, w', log);
      } else {
        ToldLearns(turn, w, w', w.pc.id, allowed, log);
        KnowsGrows(turn, w', log, [eff.obs]);
      }
  }

  lemma AskingUserLearns(turn: nat, w: Worker, v: View, eff: Effect, w': Worker, log: seq<Obs>)
    requires PhaseOf(w.pc) == AskingUser && w.index < |w.calls| && AskUser(turn, w, v, eff, w') && Knows(turn, w, log)
    requires forall id <- v.approvals :: Responded(id, v.approvals[id]) in log
    ensures Knows(turn, w', log + if eff.Say? then [eff.obs] else [])
  {
    if w.pc.Resolve? {
      ResolvingLearns(turn, w, v, eff, w', log);
    } else if w.pc.AskEmit? {
      AskEmitLearns(turn, w, v, eff, w', log);
    } else {
      WaitingLearns(turn, w, v, eff, w', log);
      assert log + [] == log;
    }
  }

  lemma WaitingForHostLearns(turn: nat, w: Worker, v: View, eff: Effect, w': Worker, log: seq<Obs>)
    requires w.pc.HostWait? || w.pc.HostPoll? || w.pc.HostDone?
    requires w.index < |w.calls| && AskHost(turn, w, v, eff, w') && Knows(turn, w, log)
    requires forall id <- v.hostReplies :: HostAnswered(id, v.hostReplies[id]) in log
    ensures !eff.Say? && Knows(turn, w', log)
  {
    assert AsksHostUnder(w.pc, w.pc.hostId);
    if w.pc.HostDone? && w'.pc.PushResult? {
      assert Shows(w'.pc.output, w.pc.result.value.text);
    }
  }

  lemma SendingLearns(turn: nat, w: Worker, v: View, eff: Effect, w': Worker, log: seq<Obs>)
    requires w.pc.Sending? || w.pc.HostEmit?
    requires w.index < |w.calls| && AskHost(turn, w, v, eff, w')
    ensures Knows(turn, w', log + if eff.Say? then [eff.obs] else [])
  {
    assert eff.Say? ==> (log + [eff.obs])[|log|] == eff.obs;
  }

  lemma AskingHostLearns(turn: nat, w: Worker, v: View, eff: Effect, w': Worker, log: seq<Obs>)
    requires PhaseOf(w.pc) == AskingHost && w.index < |w.calls| && AskHost(turn, w, v, eff, w') && Knows(turn, w, log)
    requires forall id <- v.hostReplies :: HostAnswered(id, v.hostReplies[id]) in log
    ensures Knows(turn, w', log + if eff.Say? then [eff.obs] else [])
  {
    if w.pc.Sending? || w.pc.HostEmit? {
      SendingLearns(turn, w, v, eff, w', log);
    } else {
      WaitingForHostLearns(turn, w, v, eff, w', log);
      assert log + [] == log;
    }
  }

  lemma EmitsWhatItSays(turn: nat, w: Worker, v: View, eff: Effect, w': Worker)
    requires Local(turn, w, v, eff, w') && (PhaseOf(w.pc) == AskingUser || PhaseOf(w.pc) == AskingHost)
    ensures Emits(w.sid, v.session, eff) == if eff.Say? then [eff.obs] else []
  {
    if PhaseOf(w.pc) == AskingUser {
      AskUserStays(turn, w, v, eff, w');
    }
  }

  lemma AskingLearns(turn: nat, w: Worker, v: View, eff: Effect, w': Worker, log: seq<Obs>)
    requires PhaseOf(w.pc) == AskingUser || PhaseOf(w.pc) == AskingHost
    requires Local(turn, w, v, eff, w') && Knows(turn, w, log)
    requires forall id <- v.approvals :: Responded(id, v.approvals[id]) in log
    requires forall id <- v.hostReplies :: HostAnswered(id, v.hostReplies[id]) in log
    ensures Knows(turn, w', log + Emits(w.sid, v.session, eff))
  {
    EmitsWhatItSays(turn, w, v, eff, w');
    if PhaseOf(w.pc) == AskingUser {
      AskingUserLearns(turn, w, v, eff, w', log);
    } else {
      AskingHostLearns(turn, w, v, eff, w', log);
    }
  }

  lemma EndingLearns(turn: nat, w: Worker, v: View, eff: Effect, w': Worker, log: seq<Obs>)
    requires PhaseOf(w.pc) == Ending && End(w, v, eff, w')
    ensures Knows(turn, w', log)
  {
  }

  lemma QuietlyLearns(turn: nat, w: Worker, v: View, eff: Effect, w': Worker, log: seq<Obs>)
    requires PhaseOf(w.pc) in {TakingReply, FilingCall, Ending}
    requires Local(turn, w, v, eff, w') && Knows(turn, w, log)
    ensures Knows(turn, w', log)
  {
    match PhaseOf(w.pc)
    case TakingReply => TakingReplyLearns(turn, w, v, eff, w', log);
    case FilingCall => FilingLearns(turn, w, v, eff, w', log);
    case Ending => EndingLearns(turn, w, v, eff, w', log);
  }

  lemma WorkerLearns(turn: nat, w: Worker, v: View, eff: Effect, w': Worker, log: seq<Obs>)
    requires Local(turn, w, v, eff, w') && Knows(turn, w, log)
    requires forall id <- v.approvals :: Responded(id, v.approvals[id]) in log
    requires forall id <- v.hostReplies :: HostAnswered(id, v.hostReplies[id]) in log
    ensures Knows(turn, w', log + Emits(w.sid, v.session, eff))
  {
    if PhaseOf(w.pc) == AskingModel {
      AskingModelLearns(turn, w, v, eff, w', log);
    } else if PhaseOf(w.pc) == AskingUser || PhaseOf(w.pc) == AskingHost {
      AskingLearns(turn, w, v, eff, w', log);
    } else {
      QuietlyLearns(turn, w, v, eff, w', log);
      KnowsGrows(turn, w', log, Emits(w.sid, v.session, eff));
    }
  }

  // ---------- The whole system ----------

  ghost predicate Honest(s: State) {
    && (forall id <- s.hostReplies :: HostAnswered(id, s.hostReplies[id]) in s.log)
    && (forall t <- s.workers :: Knows(t, s.workers[t], s.log))
    && (forall sid <- s.sessions :: AllSourced(s.log, sid, s.sessions[sid]))
    && (forall sid <- s.disk :: AllSourced(s.log, sid, s.disk[sid]))
  }

  lemma AppendIsSourced(log: seq<Obs>, sid: SessionId, session: Session, messages: seq<Message>, data: EventData)
    requires AllSourced(log, sid, session) && RecordSourced(log, sid, data)
    requires forall m <- messages :: m in session.messages || Sourced(log, sid, m)
    ensures AllSourced(log, sid, session.(messages := messages, log := Append(session.log, data)))
  {
    var events := session.log.events + [NextEvent(session.log, data)];
    assert forall e <- Append(session.log, data).events :: e in events;
  }

  lemma SessionStaysSourced(turn: nat, w: Worker, session: Session, eff: Effect, log: seq<Obs>)
    requires AllSourced(log, w.sid, session) && Knows(turn, w, log) && Adds(turn, w, session, eff)
    ensures AllSourced(log, w.sid, SessionAfter(session, eff))
  {
    AddedIsSourced(turn, w, session, eff, log);
    if eff.Record? {
      AppendIsSourced(log, w.sid, session, eff.messages, eff.data);
    }
  }

  lemma OwnSessionStaysSourced(s: State, step: Step)
    requires Honest(s) && step.Work? && Enabled(s, step)
    ensures AllSourced(After(s, step).log, OwnerOf(s, step.turn), SessionsAfter(s, step)[OwnerOf(s, step.turn)])
  {
    var w := s.workers[step.turn];
    var session := s.sessions[w.sid];
    var more := Observed(s, step);
    WorkerAdds(step.turn, w, ViewOf(s, step.turn, w), step.eff, step.next);
    KnowsGrows(step.turn, w, s.log, more);
    AllSourcedGrows(s.log, more, w.sid, session);
    SessionStaysSourced(step.turn, w, session, step.eff, s.log + more);
  }

  lemma OthersKeepKnowing(s: State, step: Step, t: nat)
    requires Honest(s) && Defined(s, step) && t in s.workers
    ensures Knows(t, s.workers[t], After(s, step).log)
  {
    KnowsGrows(t, s.workers[t], s.log, Observed(s, step));
  }

  lemma OthersStaySourced(s: State, step: Step, sid: SessionId)
    requires Honest(s) && Defined(s, step)
    ensures sid in s.sessions ==> AllSourced(After(s, step).log, sid, s.sessions[sid])
    ensures sid in s.disk ==> AllSourced(After(s, step).log, sid, s.disk[sid])
  {
    if sid in s.sessions {
      AllSourcedGrows(s.log, Observed(s, step), sid, s.sessions[sid]);
    }
    if sid in s.disk {
      AllSourcedGrows(s.log, Observed(s, step), sid, s.disk[sid]);
    }
  }

  lemma WorkLearns(s: State, step: Step)
    requires Safe(s) && Honest(s) && step.Work? && Enabled(s, step)
    ensures Knows(step.turn, step.next, After(s, step).log)
  {
    var w := s.workers[step.turn];
    WorkerLearns(step.turn, w, ViewOf(s, step.turn, w), step.eff, step.next, s.log);
  }

  lemma WorkKeepsHonest(s: State, step: Step)
    requires Safe(s) && Honest(s) && step.Work? && Enabled(s, step)
    ensures Honest(After(s, step))
  {
    OwnSessionStaysSourced(s, step);
    WorkLearns(s, step);
    forall t <- s.workers { OthersKeepKnowing(s, step, t); }
    forall sid { OthersStaySourced(s, step, sid); }
  }

  lemma OpeningIsSourced(log: seq<Obs>, sid: SessionId, session: Session, prompt: string)
    requires AllSourced(log, sid, session) && Prompted(log, sid, prompt)
    ensures AllSourced(log, sid, Session(Opening(session.messages, prompt),
                                         Append(session.log, UserMessage(prompt)), true))
  {
    AppendIsSourced(log, sid, session, Opening(session.messages, prompt), UserMessage(prompt));
  }

  lemma BeginStaysSourced(s: State, step: Step)
    requires Honest(s) && step.Begin? && Enabled(s, step)
    ensures AllSourced(After(s, step).log, step.sid, SessionsAfter(s, step)[step.sid])
  {
    var more := Observed(s, step);
    assert (s.log + more)[|s.log|] == more[0] && more[0].event.data == UserMessage(step.prompt);
    assert Prompted(s.log + more, step.sid, step.prompt);
    AllSourcedGrows(s.log, more, step.sid, s.sessions[step.sid]);
    OpeningIsSourced(s.log + more, step.sid, s.sessions[step.sid], step.prompt);
  }

  lemma CompactedStartStaysSourced(s: State, step: Step)
    requires Honest(s) && step.CompactAtStart? && Enabled(s, step)
    ensures AllSourced(After(s, step).log, s.serve.sid, SessionsAfter(s, step)[s.serve.sid])
  {
    var session := s.sessions[s.serve.sid];
    AllSourcedGrows(s.log, Observed(s, step), s.serve.sid, session);
    match Compacted(s.serve.compact, session.messages)
    case None =>
    case Some(next) =>
      CompactionInventsNothing(s.serve.compact, session.messages);
      AppendIsSourced(After(s, step).log, s.serve.sid, session, next, ContextCompacted);
  }

  lemma RecoveredStaysSourced(log: seq<Obs>, sid: SessionId, session: Session)
    requires AllSourced(log, sid, session)
    ensures AllSourced(log, sid, Recover(session))
  {
    AppendIsSourced(log, sid, session, session.messages, AgentError);
  }

  lemma ServeSessionsStaySourced(s: State, step: Step)
    requires Honest(s) && !step.Work? && Enabled(s, step)
    ensures forall sid <- SessionsAfter(s, step) :: AllSourced(After(s, step).log, sid, SessionsAfter(s, step)[sid])
    ensures forall sid <- DiskAfter(s, step) :: AllSourced(After(s, step).log, sid, DiskAfter(s, step)[sid])
  {
    forall sid { OthersStaySourced(s, step, sid); }
    if step.Begin? {
      BeginStaysSourced(s, step);
    } else if step.CompactAtStart? {
      CompactedStartStaysSourced(s, step);
    } else if step.Crash? {
      forall sid <- s.disk { RecoveredStaysSourced(After(s, step).log, sid, s.disk[sid]); }
    }
  }

  lemma HostAnswersAreLogged(s: State, step: Step)
    requires Honest(s) && Defined(s, step)
    ensures forall id <- HostRepliesGiven(s, step) ::
              HostAnswered(id, HostRepliesGiven(s, step)[id]) in s.log + Observed(s, step)
  {
    if step.HostAnswer? && step.id in s.pendingHosts {
      assert (s.log + Observed(s, step))[|s.log|] == HostAnswered(step.id, step.reply);
    }
  }

  lemma ServeKeepsHonest(s: State, step: Step)
    requires Honest(s) && !step.Work? && Enabled(s, step)
    ensures Honest(After(s, step))
  {
    ServeSessionsStaySourced(s, step);
    HostAnswersAreLogged(s, step);
    forall t <- s.workers { OthersKeepKnowing(s, step, t); }
  }

  lemma {:induction false} RunKeepsHonest(s: State, steps: seq<Step>, s': State)
    requires Owned(s) && Safe(s) && Honest(s) && Runs(s, steps, s')
    ensures Honest(s')
    decreases |steps|
  {
    if steps != [] {
      assert Takes(s, steps, s');
      StepKeepsOwned(s, steps[0]);
      if steps[0].Work? {
        WorkKeepsSafe(s, steps[0].turn, steps[0].eff, steps[0].next);
        WorkKeepsHonest(s, steps[0]);
      } else {
        ServeKeepsSafe(s, steps[0]);
        ServeKeepsHonest(s, steps[0]);
      }
      RunKeepsHonest(After(s, steps[0]), steps[1..], s');
    }
  }

  lemma ReachableIsHonest(s: State)
    requires Reachable(s)
    ensures Honest(s)
  {
    assert Owned(INITIAL) && Safe(INITIAL) && Honest(INITIAL);
    var steps :| Runs(INITIAL, steps, s);
    RunKeepsHonest(INITIAL, steps, s);
  }

  /** In memory and on disk, in every reachable state: every prompt was sent by a client, every reply returned by the
      provider with exactly these calls, and every result is what the host answered to that very call, cut behind
      16,384 characters, or the reason why the call was denied. */
  lemma EveryMessageHasItsSource(s: State, sid: SessionId)
    requires Reachable(s)
    ensures sid in s.sessions ==> AllSourced(s.log, sid, s.sessions[sid])
    ensures sid in s.disk ==> AllSourced(s.log, sid, s.disk[sid])
  {
    ReachableIsHonest(s);
  }

  /** The answer that a step files is the one to the next call of the open round. */
  lemma AnswersAreFiledInOrder(s: State, step: Step)
    requires Reachable(s) && step.Work? && Enabled(s, step)
    requires step.eff.Record? && step.eff.data.ResultRecorded?
    ensures s.workers[step.turn].sid in s.sessions && s.workers[step.turn].index < |s.workers[step.turn].calls|
    ensures var w := s.workers[step.turn];
            var before, output := s.sessions[w.sid].messages, step.eff.data.output;
            && OpenRound(before, w.calls, w.index)
            && SessionsAfter(s, step)[w.sid].messages == before + [ToolResult(w.calls[w.index], output)]
            && IsTold(s.log, w.sid, Key(step.turn, w), w.calls[w.index], w.mode, output)
  {
    var w := s.workers[step.turn];
    ReachableIsHonest(s);
    WorkerAdds(step.turn, w, ViewOf(s, step.turn, w), step.eff, step.next);
    LiveTurnEnds(s, step.turn);
  }

  // ---------- One answer per request ----------

  ghost predicate OwnIds(s: State) {
    && s.pendingHosts <= s.issued.Keys
    && (forall o <- s.log :: o.HostTool? ==> o.id in s.issued && s.issued[o.id] == o.key)
    && (forall o <- s.log :: o.HostAnswered? ==> o.id in s.issued && o.id !in s.pendingHosts)
    && (forall o, p :: o in s.log && p in s.log && o.HostAnswered? && p.HostAnswered? && o.id == p.id ==> o == p)
    && (forall t <- s.workers :: s.workers[t].pc.HostEmit? ==> Drawn(t, s.workers[t], s.workers[t].pc.hostId, s.issued))
  }

  /** What a step can do with the ids of host requests. */
  predicate UsesOwnId(turn: nat, w: Worker, eff: Effect, w': Worker) {
    && (w'.pc.HostEmit? ==> eff == OpenHost(w'.pc.hostId) && Key(turn, w') == Key(turn, w))
    && (eff.Say? && eff.obs.HostTool? ==> w.pc.HostEmit? && eff.obs.id == w.pc.hostId && eff.obs.key == Key(turn, w))
    && (eff.Say? ==> !eff.obs.HostAnswered?)
  }

  lemma WorkerUsesOwnId(turn: nat, w: Worker, v: View, eff: Effect, w': Worker)
    requires Local(turn, w, v, eff, w')
    ensures UsesOwnId(turn, w, eff, w')
  {
    WorkersSayNothingElse(turn, w, v, eff, w');
    if PhaseOf(w.pc) == AskingUser {
      AskUserStays(turn, w, v, eff, w');
    } else if PhaseOf(w.pc) == FilingCall {
      FilingUsesNoId(turn, w, v, eff, w');
    } else if PhaseOf(w.pc) != AskingHost {
      RoundOwesNothing(turn, w, v, eff, w');
    }
  }

  lemma FilingUsesNoId(turn: nat, w: Worker, v: View, eff: Effect, w': Worker)
    requires PhaseOf(w.pc) == FilingCall && w.index < |w.calls| && FileCall(turn, w, v, eff, w')
    ensures !eff.Say? && !w'.pc.HostEmit?
  {
  }

  /** What is logged new about host ids is the id's own request, or the one answer to a pending one. */
  lemma NewIdsAreOwn(s: State, step: Step)
    requires OwnIds(s) && Enabled(s, step)
    ensures forall o <- Observed(s, step) :: o.HostTool? ==> o.id in s.issued && s.issued[o.id] == o.key
    ensures forall o <- Observed(s, step) ::
              o.HostAnswered? ==> o.id in s.pendingHosts && step == HostAnswer(o.id, o.answer)
  {
    if step.Work? {
      var w := s.workers[step.turn];
      WorkerUsesOwnId(step.turn, w, ViewOf(s, step.turn, w), step.eff, step.next);
      OnlySayIsOutward(w.sid, s.sessions[w.sid], step.eff);
    } else {
      ServeIsNotOutward(s, step);
    }
  }

  lemma PendingIsIssued(s: State, step: Step)
    requires OwnIds(s) && Enabled(s, step)
    ensures PendingHostsAfter(s, step) <= IssuedAfter(s, step).Keys
    ensures forall id :: id in PendingHostsAfter(s, step) && id in s.issued ==> id in s.pendingHosts
    ensures forall id <- s.issued :: id in IssuedAfter(s, step) && IssuedAfter(s, step)[id] == s.issued[id]
  {
  }

  lemma EmittersOwnTheirIds(s: State, step: Step)
    requires OwnIds(s) && Enabled(s, step)
    ensures forall t <- WorkersAfter(s, step) ::
              WorkersAfter(s, step)[t].pc.HostEmit? ==>
                Drawn(t, WorkersAfter(s, step)[t], WorkersAfter(s, step)[t].pc.hostId, IssuedAfter(s, step))
  {
    if step.Work? {
      var w := s.workers[step.turn];
      WorkerUsesOwnId(step.turn, w, ViewOf(s, step.turn, w), step.eff, step.next);
    }
    PendingIsIssued(s, step);
  }

  lemma StepKeepsOwnIds(s: State, step: Step)
    requires OwnIds(s) && Enabled(s, step)
    ensures OwnIds(After(s, step))
  {
    ObservesAtMostOne(s, step);
    NewIdsAreOwn(s, step);
    PendingIsIssued(s, step);
    EmittersOwnTheirIds(s, step);
  }

  lemma {:induction false} RunKeepsOwnIds(s: State, steps: seq<Step>, s': State)
    requires OwnIds(s) && Runs(s, steps, s')
    ensures OwnIds(s')
    decreases |steps|
  {
    if steps != [] {
      assert Takes(s, steps, s');
      StepKeepsOwnIds(s, steps[0]);
      RunKeepsOwnIds(After(s, steps[0]), steps[1..], s');
    }
  }

  /** No id stands for two requests, and none is answered twice. */
  lemma RequestsHaveOwnIds(s: State, o: Obs, p: Obs)
    requires Reachable(s) && o in s.log && p in s.log
    ensures o.HostTool? && p.HostTool? && (o.id == p.id || o.key == p.key) ==> o == p
    ensures o.HostAnswered? && p.HostAnswered? && o.id == p.id ==> o == p
  {
    assert OwnIds(INITIAL);
    var steps :| Runs(INITIAL, steps, s);
    RunKeepsOwnIds(INITIAL, steps, s);
    if o.HostTool? && p.HostTool? && (o.id == p.id || o.key == p.key) {
      var i :| 0 <= i < |s.log| && s.log[i] == o;
      var j :| 0 <= j < |s.log| && s.log[j] == p;
      if i < j {
        EachCallIsSentOnce(s, i, j);
      } else if j < i {
        EachCallIsSentOnce(s, j, i);
      }
    }
  }

  /** So one execution of a call has one result, wherever it is filed. */
  lemma EachCallHasOneResult(s: State, key: CallKey, sid: SessionId, call: ToolCall, mode: Mode, output: string,
                             sid': SessionId, call': ToolCall, mode': Mode, output': string)
    requires Reachable(s)
    requires IsResult(s.log, sid, key, call, mode, output) && IsResult(s.log, sid', key, call', mode', output')
    ensures sid == sid' && call == call' && mode == mode' && output == output'
  {
    var id: nat, text: string :|
      HostTool(id, sid, key, call, mode) in s.log && HostAnswered(id, Output(text)) in s.log && Shows(output, text);
    var id': nat, text': string :|
      HostTool(id', sid', key, call', mode') in s.log && HostAnswered(id', Output(text')) in s.log
      && Shows(output', text');
    RequestsHaveOwnIds(s, HostTool(id, sid, key, call, mode), HostTool(id', sid', key, call', mode'));
    RequestsHaveOwnIds(s, HostAnswered(id, Output(text)), HostAnswered(id', Output(text')));
  }
}
