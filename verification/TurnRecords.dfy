/** What the event log tells is what the transcript holds, and nothing is asked of anybody before it is on disk. */
module TurnRecords {
  import opened Basics
  import opened Transcript
  import opened Compaction
  import opened EventLog
  import opened TurnEngine
  import opened TurnFrames
  import opened TurnOwnership
  import opened TurnLimits
  import opened TurnTranscripts
  import S = TurnSources

  // ---------- What is told ----------

  /** A prompt, a reply or a result, as a client is told of it. */
  datatype Said = Said(role: Role, text: string)

  function Heard(data: EventData): seq<Said> {
    if data.UserMessage? then [Said(User, data.text)]
    else if data.AssistantMessage? then [Said(Assistant, data.text)]
    else if data.ResultRecorded? then [Said(Tool, data.output)]
    else []
  }

  function Telling(events: seq<Event<EventData>>): seq<Said> {
    if events == [] then [] else Telling(events[..|events| - 1]) + Heard(events[|events| - 1].data)
  }

  /** The policy is not told, nor is a reply without a text. */
  function Spoken(m: Message): seq<Said> {
    if m.role == System || (m.role == Assistant && m.content == "") then [] else [Said(m.role, m.content)]
  }

  function Speech(messages: seq<Message>): seq<Said> {
    if messages == [] then [] else Speech(messages[..|messages| - 1]) + Spoken(messages[|messages| - 1])
  }

  /** Nothing was dropped from the log, and nothing was compacted. */
  predicate IsWhole(log: Log<EventData>) {
    |log.events| == log.sequence && forall e <- log.events :: !e.data.ContextCompacted?
  }

  ghost predicate Tells(session: Session) {
    && |session.log.events| <= session.log.sequence
    && (IsWhole(session.log) ==> Telling(session.log.events) == Speech(session.messages))
  }

  lemma OneMoreSpoken(messages: seq<Message>, m: Message)
    ensures Speech(messages + [m]) == Speech(messages) + Spoken(m)
  {
    assert (messages + [m])[..|messages|] == messages;
  }

  lemma OneMoreHeard(events: seq<Event<EventData>>, e: Event<EventData>)
    ensures Telling(events + [e]) == Telling(events) + Heard(e.data)
  {
    assert (events + [e])[..|events|] == events;
  }

  lemma WholeBefore(log: Log<EventData>, data: EventData)
    requires |log.events| <= log.sequence && IsWhole(Append(log, data))
    ensures IsWhole(log) && !data.ContextCompacted? && Append(log, data).events == log.events + [NextEvent(log, data)]
  {
    var events := Append(log, data).events;
    assert events == log.events + [NextEvent(log, data)];
    assert events[|log.events|] == NextEvent(log, data);
    forall e <- log.events ensures !e.data.ContextCompacted? {
      var i :| 0 <= i < |log.events| && log.events[i] == e;
      assert events[i] == e;
    }
  }

  /** A record that tells what was added. */
  lemma RecordTells(session: Session, messages: seq<Message>, data: EventData, running: bool)
    requires Tells(session)
    requires data.ContextCompacted? || Speech(messages) == Speech(session.messages) + Heard(data)
    ensures Tells(Session(messages, Append(session.log, data), running))
  {
    if IsWhole(Append(session.log, data)) {
      WholeBefore(session.log, data);
      OneMoreHeard(session.log.events, NextEvent(session.log, data));
    }
  }

  // ---------- One step ----------

  lemma NothingAddedTells(session: Session, eff: Effect)
    requires Tells(session) && S.AddsNothing(session, eff)
    ensures Tells(SessionAfter(session, eff))
  {
    if eff.Record? {
      assert Heard(eff.data) == [];
      RecordTells(session, eff.messages, eff.data, session.running);
    }
  }

  lemma ReplyTells(w: Worker, session: Session, eff: Effect)
    requires Tells(session) && S.AddsReply(w, session, eff)
    ensures Tells(SessionAfter(session, eff))
  {
    OneMoreSpoken(session.messages, Message(Assistant, w.pc.reply.text, w.pc.reply.toolCalls, None));
    if eff.Record? {
      RecordTells(session, eff.messages, eff.data, session.running);
    }
  }

  lemma AnswerTells(turn: nat, w: Worker, session: Session, eff: Effect)
    requires Tells(session) && S.AddsAnswer(turn, w, session, eff)
    ensures Tells(SessionAfter(session, eff))
  {
    OneMoreSpoken(session.messages, ToolResult(w.calls[w.index], eff.data.output));
    RecordTells(session, eff.messages, eff.data, session.running);
  }

  lemma WorkTells(turn: nat, w: Worker, session: Session, eff: Effect)
    requires Tells(session) && S.Adds(turn, w, session, eff)
    ensures Tells(SessionAfter(session, eff))
  {
    if S.AddsNothing(session, eff) {
      NothingAddedTells(session, eff);
    } else if S.AddsReply(w, session, eff) {
      ReplyTells(w, session, eff);
    } else if S.AddsAnswer(turn, w, session, eff) {
      AnswerTells(turn, w, session, eff);
    } else {
      RecordTells(session, eff.messages, eff.data, session.running);
    }
  }

  lemma OpeningTells(session: Session, prompt: string)
    requires Tells(session)
    ensures Tells(Session(Opening(session.messages, prompt), Append(session.log, UserMessage(prompt)), true))
  {
    OneMoreSpoken([], Text(System, POLICY));
    assert [] + [Text(System, POLICY)] == [Text(System, POLICY)];
    OneMoreSpoken(if session.messages == [] then [Text(System, POLICY)] else session.messages, Text(User, prompt));
    RecordTells(session, Opening(session.messages, prompt), UserMessage(prompt), true);
  }

  lemma CompactedTells(session: Session, compact: bool)
    requires Tells(session) && Compacted(compact, session.messages).Some?
    ensures Tells(session.(messages := Compacted(compact, session.messages).value,
                           log := Append(session.log, ContextCompacted)))
  {
    RecordTells(session, Compacted(compact, session.messages).value, ContextCompacted, session.running);
  }

  lemma RecoveredTells(session: Session)
    requires Tells(session)
    ensures Tells(Recover(session))
  {
    RecordTells(session, session.messages, AgentError, false);
  }

  // ---------- Every run ----------

  ghost predicate AllTell(s: State) {
    (forall sid <- s.sessions :: Tells(s.sessions[sid])) && forall sid <- s.disk :: Tells(s.disk[sid])
  }

  lemma StepKeepsTelling(s: State, step: Step)
    requires AllTell(s) && Enabled(s, step)
    ensures AllTell(After(s, step))
  {
    if step.Work? {
      var w := s.workers[step.turn];
      S.WorkerAdds(step.turn, w, ViewOf(s, step.turn, w), step.eff, step.next);
      WorkTells(step.turn, w, s.sessions[w.sid], step.eff);
    } else {
      ServeKeepsTelling(s, step);
    }
  }

  lemma ServeKeepsTelling(s: State, step: Step)
    requires AllTell(s) && Enabled(s, step) && !step.Work?
    ensures AllTell(After(s, step))
  {
    if step.Begin? {
      OpeningTells(s.sessions[step.sid], step.prompt);
    } else if step.CompactAtStart? {
      if Compacted(s.serve.compact, StartMessages(s)).Some? {
        CompactedTells(s.sessions[s.serve.sid], s.serve.compact);
      }
    } else if step.Crash? {
      forall sid <- s.disk { RecoveredTells(s.disk[sid]); }
    }
  }

  lemma {:induction false} RunKeepsTelling(s: State, steps: seq<Step>, s': State)
    requires AllTell(s) && Runs(s, steps, s')
    ensures AllTell(s')
    decreases |steps|
  {
    if steps != [] {
      assert Takes(s, steps, s');
      StepKeepsTelling(s, steps[0]);
      RunKeepsTelling(After(s, steps[0]), steps[1..], s');
    }
  }

  /** In memory and on disk: as long as a session has dropped no event and was not compacted, its event log tells
      exactly the prompts, the replies and the results of its transcript, in their order. */
  lemma TheLogTellsTheTranscript(s: State, session: Session)
    requires Reachable(s) && (session in s.sessions.Values || session in s.disk.Values) && IsWhole(session.log)
    ensures Telling(session.log.events) == Speech(session.messages)
  {
    assert AllTell(INITIAL);
    var steps :| Runs(INITIAL, steps, s);
    RunKeepsTelling(INITIAL, steps, s);
  }

  // ---------- What is on disk ----------

  /** The places of the program behind a snapshot, with nothing new in the session. */
  predicate IsSaved(pc: Pc) {
    || pc.RoundTop? || pc.Compacting? || pc.Calling? || pc.Requesting?
    || pc.CallTop? || pc.Announce? || pc.Decide?
    || PhaseOf(pc) == AskingUser || PhaseOf(pc) == AskingHost || pc.PushResult? || pc.PushDenial?
  }

  /** Something is asked of the provider, the user or the host, or a call is taken up. */
  predicate GoesOut(eff: Effect) {
    || (eff.Say? && (eff.obs.ModelCall? || eff.obs.ApprovalRequested? || eff.obs.HostTool?))
    || (eff.Record? && eff.data.CallRecorded?)
  }

  /** One gets to such a place by a snapshot, or from such a place without a change; and only from there out. */
  predicate ComesSaved(w: Worker, session: Session, eff: Effect, w': Worker) {
    (GoesOut(eff) ==> IsSaved(w.pc))
    && (IsSaved(w'.pc) ==> eff == Save || (IsSaved(w.pc) && SessionAfter(session, eff) == session && !Saves(eff)))
  }

  lemma AskingModelComesSaved(turn: nat, w: Worker, v: View, eff: Effect, w': Worker)
    requires PhaseOf(w.pc) == AskingModel && AskModel(turn, w, v, eff, w')
    ensures ComesSaved(w, v.session, eff, w')
  {
    if w.pc.Compacting? {
      match Compacted(w.compact, v.session.messages) case None => case Some(_) =>
    }
  }

  lemma TakingReplyComesSaved(w: Worker, v: View, eff: Effect, w': Worker)
    requires PhaseOf(w.pc) == TakingReply && TakeReply(w, v, eff, w')
    ensures ComesSaved(w, v.session, eff, w')
  {
  }

  lemma EndingComesSaved(w: Worker, v: View, eff: Effect, w': Worker)
    requires PhaseOf(w.pc) == Ending && End(w, v, eff, w')
    ensures ComesSaved(w, v.session, eff, w')
  {
  }

  lemma FilingComesSaved(turn: nat, w: Worker, v: View, eff: Effect, w': Worker)
    requires PhaseOf(w.pc) == FilingCall && w.index < |w.calls| && FileCall(turn, w, v, eff, w')
    ensures ComesSaved(w, v.session, eff, w')
  {
  }

  lemma AskingUserComesSaved(turn: nat, w: Worker, v: View, eff: Effect, w': Worker)
    requires PhaseOf(w.pc) == AskingUser && AskUser(turn, w, v, eff, w')
    ensures ComesSaved(w, v.session, eff, w')
  {
  }

  lemma AskingHostComesSaved(turn: nat, w: Worker, v: View, eff: Effect, w': Worker)
    requires PhaseOf(w.pc) == AskingHost && w.index < |w.calls| && AskHost(turn, w, v, eff, w')
    ensures ComesSaved(w, v.session, eff, w')
  {
  }

  lemma WorkerComesSaved(turn: nat, w: Worker, v: View, eff: Effect, w': Worker)
    requires Local(turn, w, v, eff, w')
    ensures ComesSaved(w, v.session, eff, w')
  {
    match PhaseOf(w.pc)
    case AskingModel => AskingModelComesSaved(turn, w, v, eff, w');
    case TakingReply => TakingReplyComesSaved(w, v, eff, w');
    case Ending => EndingComesSaved(w, v, eff, w');
    case FilingCall => FilingComesSaved(turn, w, v, eff, w');
    case AskingUser => AskingUserComesSaved(turn, w, v, eff, w');
    case AskingHost => AskingHostComesSaved(turn, w, v, eff, w');
  }

  ghost predicate OnDisk(s: State, sid: SessionId) {
    sid in s.sessions && sid in s.disk && s.disk[sid] == s.sessions[sid]
  }

  ghost predicate SavedWhereItSays(s: State) {
    forall t <- s.workers :: IsSaved(s.workers[t].pc) ==> OnDisk(s, s.workers[t].sid)
  }

  /** A step of another thread leaves a live worker's session alone, also on disk. */
  lemma OthersLeaveItOnDisk(s: State, step: Step, t: nat)
    requires Owned(s) && Enabled(s, step) && !step.Crash? && !(step.Work? && step.turn == t)
    requires t in s.workers && Active(s.workers[t]) && OnDisk(s, s.workers[t].sid)
    ensures OnDisk(After(s, step), s.workers[t].sid)
  {
    var sid := s.workers[t].sid;
    Undisturbed(s, step, t);
    assert ActiveOn(s, t, sid);
    if step.Work? {
      var w := s.workers[step.turn];
      LocalHasShape(step.turn, w, ViewOf(s, step.turn, w), step.eff, step.next);
      if w.sid == sid {
        assert !ActiveOn(s, step.turn, sid);
        LeavingWorkerIsQuiet(step.turn, w, ViewOf(s, step.turn, w), step.eff, step.next);
      }
    }
  }

  /** A worker that gets to such a place finds its session on disk. */
  lemma OwnWorkIsSaved(s: State, step: Step)
    requires SavedWhereItSays(s) && step.Work? && Enabled(s, step) && IsSaved(step.next.pc)
    ensures OnDisk(After(s, step), s.workers[step.turn].sid) && step.next.sid == s.workers[step.turn].sid
  {
    var w := s.workers[step.turn];
    WorkerComesSaved(step.turn, w, ViewOf(s, step.turn, w), step.eff, step.next);
    LocalHasShape(step.turn, w, ViewOf(s, step.turn, w), step.eff, step.next);
  }

  lemma WorkersAfterWork(s: State, step: Step, t: nat)
    requires step.Work? && Defined(s, step) && t in WorkersAfter(s, step)
    ensures if t == step.turn then WorkersAfter(s, step)[t] == step.next
            else t in s.workers && WorkersAfter(s, step)[t] == s.workers[t]
  {
  }

  lemma WorkKeepsOneSaved(s: State, step: Step, t: nat)
    requires Owned(s) && SavedWhereItSays(s) && step.Work? && Enabled(s, step)
    requires t in WorkersAfter(s, step) && IsSaved(WorkersAfter(s, step)[t].pc)
    ensures OnDisk(After(s, step), WorkersAfter(s, step)[t].sid)
  {
    WorkersAfterWork(s, step, t);
    if t == step.turn {
      OwnWorkIsSaved(s, step);
    } else {
      OthersLeaveItOnDisk(s, step, t);
    }
  }

  lemma WorkKeepsSaved(s: State, step: Step)
    requires Owned(s) && SavedWhereItSays(s) && step.Work? && Enabled(s, step)
    ensures SavedWhereItSays(After(s, step))
  {
    forall t <- WorkersAfter(s, step) | IsSaved(WorkersAfter(s, step)[t].pc) {
      WorkKeepsOneSaved(s, step, t);
    }
  }

  lemma ServeKeepsSaved(s: State, step: Step)
    requires Owned(s) && SavedWhereItSays(s) && StartIsOnDisk(s) && !step.Work? && Enabled(s, step)
    ensures SavedWhereItSays(After(s, step))
  {
    if !step.Crash? {
      forall t <- s.workers | IsSaved(s.workers[t].pc) ensures OnDisk(After(s, step), s.workers[t].sid) {
        OthersLeaveItOnDisk(s, step, t);
      }
    }
  }

  lemma {:induction false} RunKeepsSaved(s: State, steps: seq<Step>, s': State)
    requires Owned(s) && SavedWhereItSays(s) && StartIsOnDisk(s) && Runs(s, steps, s')
    ensures SavedWhereItSays(s')
    decreases |steps|
  {
    if steps != [] {
      assert Takes(s, steps, s');
      StepKeepsOwned(s, steps[0]);
      if steps[0].Work? {
        WorkKeepsStartOnDisk(s, steps[0]);
        WorkKeepsSaved(s, steps[0]);
      } else {
        ServeKeepsStartOnDisk(s, steps[0]);
        ServeKeepsSaved(s, steps[0]);
      }
      RunKeepsSaved(After(s, steps[0]), steps[1..], s');
    }
  }

  /** Whenever a turn calls the model, takes up a call, asks the user or sends a call to the host, its session is on
      disk as it is in memory: nothing that led there can be lost. */
  lemma NothingGoesOutUnsaved(s: State, step: Step)
    requires Reachable(s) && step.Work? && Enabled(s, step)
    requires GoesOut(step.eff)
    ensures OnDisk(s, s.workers[step.turn].sid)
  {
    var w := s.workers[step.turn];
    WorkerComesSaved(step.turn, w, ViewOf(s, step.turn, w), step.eff, step.next);
    assert Owned(INITIAL) && SavedWhereItSays(INITIAL) && StartIsOnDisk(INITIAL);
    var steps :| Runs(INITIAL, steps, s);
    RunKeepsSaved(INITIAL, steps, s);
  }
}
