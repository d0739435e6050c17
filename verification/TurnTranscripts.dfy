/** In every transcript, live or on disk, each result follows its call; and a turn that ends well has answered all its
    calls. `TurnAnswers` says exactly when one that fails has not. */
module TurnTranscripts {
  import opened Basics
  import opened Transcript
  import opened Compaction
  import opened EventLog
  import opened TurnEngine
  import opened TurnFrames
  import opened TurnOwnership

  ghost predicate Sound(session: Session) {
    && WellFormed(session.messages)
    && (session.messages == [] || Grounded(session.messages))
    && Tail(session.log)
  }

  /** How a transcript ends: anyhow, with every call answered, or inside a round of calls. */
  datatype Ending = Loose | AllSettled | Round(calls: seq<ToolCall>, done: nat)

  ghost predicate Ends(messages: seq<Message>, e: Ending) {
    match e
    case Loose => true
    case AllSettled => Settled(messages, |messages|)
    case Round(calls, done) => OpenRound(messages, calls, done) && Settled(messages, |messages| - 1 - done)
  }

  /** How the transcript of a live worker ends at each point of its turn. */
  function EndingAt(w: Worker): Ending {
    match w.pc
    case CallTop => Round(w.calls, w.index)
    case SaveReply(reply) => Round(reply.toolCalls, 0)
    case SaveResult => Round(w.calls, w.index + 1)
    case SaveDenial => Round(w.calls, w.index + 1)
    case Finishing(ok) => if ok then AllSettled else Loose
    case _ =>
      if InCall(w.pc) then Round(w.calls, w.index)
      else if PhaseOf(w.pc).Ending? then Loose
      else AllSettled
  }

  ghost predicate Coherent(s: State) {
    && (forall sid <- s.sessions :: Sound(s.sessions[sid]))
    && (forall sid <- s.disk :: Sound(s.disk[sid]))
    && (forall sid :: StartingOn(s, sid) && sid in s.sessions ==> Opened(s.sessions[sid].messages))
    && (forall t, sid :: LiveEnds(s, t, sid))
  }

  /** The transcript ends with the prompt of a new turn. */
  ghost predicate Opened(messages: seq<Message>) {
    Grounded(messages) && messages[|messages| - 1].role == User
  }

  lemma AppendKeepsTail(log: Log<EventData>, data: EventData)
    requires Tail(log)
    ensures Tail(Append(log, data))
  {
  }

  lemma OpeningOpens(messages: seq<Message>, prompt: string)
    requires WellFormed(messages) && (messages == [] || Grounded(messages))
    ensures WellFormed(Opening(messages, prompt)) && Opened(Opening(messages, prompt))
  {
    var policy := Text(System, POLICY);
    if messages == [] {
      PushKeepsWellFormed([], policy);
      PushKeepsWellFormed([] + [policy], Text(User, prompt));
      assert Opening(messages, prompt) == [] + [policy] + [Text(User, prompt)];
      assert Opening(messages, prompt)[1].role == User;
    } else {
      PushKeepsWellFormed(messages, Text(User, prompt));
      var i :| 1 <= i < |messages| && messages[i].role == User;
      assert Opening(messages, prompt)[i].role == User;
    }
  }

  lemma GroundedGrows(messages: seq<Message>, m: Message)
    requires Grounded(messages)
    ensures Grounded(messages + [m])
  {
    var i :| 1 <= i < |messages| && messages[i].role == User;
    assert (messages + [m])[i].role == User;
  }

  // ---------- What the program does to the transcript ----------

  /** Nothing, a compaction between rounds, the reply that opens a round, or the next answer of the round. */
  ghost predicate Moves(w: Worker, m: seq<Message>, e: Ending, m': seq<Message>, e': Ending) {
    || (m' == m && (e' == e || e' == Loose || (e.Round? && e.done >= |e.calls| && e' == AllSettled)))
    || (e == AllSettled && m' == AfterCompaction(w.compact, m) && (e' == AllSettled || e' == Loose))
    || Opens(m, e, m', e')
    || Gives(m, e, m', e')
  }

  ghost predicate Opens(m: seq<Message>, e: Ending, m': seq<Message>, e': Ending) {
    && e == AllSettled && |m'| == |m| + 1 && m'[|m|].role == Assistant && m' == m + [m'[|m|]]
    && (e' == Round(m'[|m|].toolCalls, 0) || e' == Loose)
  }

  ghost predicate Gives(m: seq<Message>, e: Ending, m': seq<Message>, e': Ending) {
    && e.Round? && e.done < |e.calls| && |m'| == |m| + 1 && m' == m + [ToolResult(e.calls[e.done], m'[|m|].content)]
    && (e' == Round(e.calls, e.done + 1) || e' == Loose)
  }

  ghost predicate Follows(w: Worker, session: Session, eff: Effect, w': Worker) {
    Moves(w, session.messages, EndingAt(w), SessionAfter(session, eff).messages, EndingAt(w'))
  }

  lemma AskingModelFollows(turn: nat, w: Worker, v: View, eff: Effect, w': Worker)
    requires PhaseOf(w.pc) == AskingModel && AskModel(turn, w, v, eff, w')
    ensures Follows(w, v.session, eff, w')
  {
    if w.pc.Compacting? {
      match Compacted(w.compact, v.session.messages) case None => case Some(_) =>
    }
  }

  lemma ReplyOpens(m: seq<Message>, text: string, calls: seq<ToolCall>, e: Ending)
    requires e == Round(calls, 0) || e == Loose
    ensures Opens(m, AllSettled, m + [Message(Assistant, text, calls, None)], e)
  {
  }

  lemma PushingReplyFollows(w: Worker, v: View, eff: Effect, w': Worker)
    requires w.pc.PushReply? && TakeReply(w, v, eff, w')
    ensures Follows(w, v.session, eff, w')
  {
    var reply := w.pc.reply;
    assert SessionAfter(v.session, eff).messages
        == v.session.messages + [Message(Assistant, reply.text, reply.toolCalls, None)];
    assert w'.pc == SaveReply(reply) || w'.pc == Failing;
    ReplyOpens(v.session.messages, reply.text, reply.toolCalls, EndingAt(w'));
  }

  lemma TakingReplyFollows(w: Worker, v: View, eff: Effect, w': Worker)
    requires PhaseOf(w.pc) == TakingReply && !w.pc.PushReply? && TakeReply(w, v, eff, w')
    ensures Follows(w, v.session, eff, w')
  {
  }

  lemma AnswerGives(m: seq<Message>, calls: seq<ToolCall>, done: nat, output: string, e: Ending)
    requires done < |calls| && (e == Round(calls, done + 1) || e == Loose)
    ensures Gives(m, Round(calls, done), m + [ToolResult(calls[done], output)], e)
  {
  }

  lemma PushingResultFollows(turn: nat, w: Worker, v: View, eff: Effect, w': Worker)
    requires w.pc.PushResult? && w.index < |w.calls| && FileCall(turn, w, v, eff, w')
    ensures Follows(w, v.session, eff, w')
  {
    assert w'.pc == SaveResult || w'.pc == Failing;
    AnswerGives(v.session.messages, w.calls, w.index, w.pc.output, EndingAt(w'));
  }

  lemma PushingDenialFollows(turn: nat, w: Worker, v: View, eff: Effect, w': Worker)
    requires w.pc.PushDenial? && w.index < |w.calls| && FileCall(turn, w, v, eff, w')
    ensures Follows(w, v.session, eff, w')
  {
    assert w'.pc == SaveDenial || w'.pc == Failing;
    AnswerGives(v.session.messages, w.calls, w.index, w.pc.reason, EndingAt(w'));
  }

  lemma FilingFollows(turn: nat, w: Worker, v: View, eff: Effect, w': Worker)
    requires w.pc.Announce? || w.pc.SaveCall? || w.pc.Decide?
    requires w.index < |w.calls| && FileCall(turn, w, v, eff, w')
    ensures Follows(w, v.session, eff, w')
  {
  }

  lemma SavingAnswerFollows(turn: nat, w: Worker, v: View, eff: Effect, w': Worker)
    requires w.pc.SaveResult? || w.pc.SaveDenial?
    requires w.index < |w.calls| && FileCall(turn, w, v, eff, w')
    ensures Follows(w, v.session, eff, w')
  {
  }

  lemma FilesFollow(turn: nat, w: Worker, v: View, eff: Effect, w': Worker)
    requires PhaseOf(w.pc) == FilingCall && w.index < |w.calls| && FileCall(turn, w, v, eff, w')
    ensures Follows(w, v.session, eff, w')
  {
    if w.pc.PushResult? {
      PushingResultFollows(turn, w, v, eff, w');
    } else if w.pc.PushDenial? {
      PushingDenialFollows(turn, w, v, eff, w');
    } else if w.pc.SaveResult? || w.pc.SaveDenial? {
      SavingAnswerFollows(turn, w, v, eff, w');
    } else {
      FilingFollows(turn, w, v, eff, w');
    }
  }

  lemma AskingUserFollows(turn: nat, w: Worker, v: View, eff: Effect, w': Worker)
    requires PhaseOf(w.pc) == AskingUser && AsksUser(turn, w, eff, w')
    ensures Follows(w, v.session, eff, w')
  {
  }

  lemma AskingHostFollows(turn: nat, w: Worker, v: View, eff: Effect, w': Worker)
    requires PhaseOf(w.pc) == AskingHost && w.index < |w.calls| && AskHost(turn, w, v, eff, w')
    ensures Follows(w, v.session, eff, w')
  {
  }

  lemma EndFollows(w: Worker, v: View, eff: Effect, w': Worker)
    requires PhaseOf(w.pc).Ending? && End(w, v, eff, w')
    ensures Follows(w, v.session, eff, w')
  {
  }

  lemma WorkerFollows(turn: nat, w: Worker, v: View, eff: Effect, w': Worker)
    requires Local(turn, w, v, eff, w')
    ensures Follows(w, v.session, eff, w')
  {
    match PhaseOf(w.pc)
    case AskingModel => AskingModelFollows(turn, w, v, eff, w');
    case TakingReply =>
      if w.pc.PushReply? { PushingReplyFollows(w, v, eff, w'); } else { TakingReplyFollows(w, v, eff, w'); }
    case FilingCall => FilesFollow(turn, w, v, eff, w');
    case AskingUser =>
      AskUserStays(turn, w, v, eff, w');
      AskingUserFollows(turn, w, v, eff, w');
    case AskingHost => AskingHostFollows(turn, w, v, eff, w');
    case Ending => EndFollows(w, v, eff, w');
  }

  // ---------- What that means for the transcript ----------

  ghost predicate Fit(m: seq<Message>, e: Ending) {
    WellFormed(m) && Grounded(m) && Ends(m, e)
  }

  lemma CompactingFits(w: Worker, m: seq<Message>)
    requires Fit(m, AllSettled)
    ensures Fit(AfterCompaction(w.compact, m), AllSettled)
  {
    if Compacted(w.compact, m).Some? {
      CompactionKeepsStructure(w.compact, m);
    }
  }

  lemma OpeningFits(m: seq<Message>, e: Ending, m': seq<Message>, e': Ending)
    requires Fit(m, e) && Opens(m, e, m', e')
    ensures Fit(m', e')
  {
    var reply := m'[|m|];
    PushKeepsWellFormed(m, reply);
    GroundedGrows(m, reply);
    ReplyOpensRound(m, reply);
  }

  lemma GivingFits(m: seq<Message>, e: Ending, m': seq<Message>, e': Ending)
    requires Fit(m, e) && Gives(m, e, m', e')
    ensures Fit(m', e')
  {
    var answer := ToolResult(e.calls[e.done], m'[|m|].content);
    AnswerKeepsWellFormed(m, e.calls, e.done, m'[|m|].content);
    GroundedGrows(m, answer);
    AnswerKeepsSettled(m, answer, |m| - 1 - e.done);
  }

  lemma StayingFits(m: seq<Message>, e: Ending, e': Ending)
    requires Fit(m, e)
    requires e' == e || e' == Loose || (e.Round? && e.done >= |e.calls| && e' == AllSettled)
    ensures Fit(m, e')
  {
    if e.Round? && e' == AllSettled {
      AnsweredRoundIsSettled(m, e.calls);
    }
  }

  lemma MovingFits(w: Worker, m: seq<Message>, e: Ending, m': seq<Message>, e': Ending)
    requires Fit(m, e) && Moves(w, m, e, m', e')
    ensures Fit(m', e')
  {
    if Opens(m, e, m', e') {
      OpeningFits(m, e, m', e');
    } else if Gives(m, e, m', e') {
      GivingFits(m, e, m', e');
    } else if m' == m && (e' == e || e' == Loose || (e.Round? && e.done >= |e.calls| && e' == AllSettled)) {
      StayingFits(m, e, e');
    } else {
      CompactingFits(w, m);
    }
  }

  lemma LiveWorkerCoheres(turn: nat, w: Worker, v: View, eff: Effect, w': Worker)
    requires Local(turn, w, v, eff, w')
    requires Tail(v.session.log) && Fit(v.session.messages, EndingAt(w))
    ensures Sound(SessionAfter(v.session, eff)) && Fit(SessionAfter(v.session, eff).messages, EndingAt(w'))
  {
    WorkerFollows(turn, w, v, eff, w');
    MovingFits(w, v.session.messages, EndingAt(w), SessionAfter(v.session, eff).messages, EndingAt(w'));
    if eff.Record? {
      AppendKeepsTail(v.session.log, eff.data);
    }
  }

  // ---------- All sessions ----------

  /** A worker that has cleared `running` touches no session and no snapshot any more. */
  lemma LeavingWorkerIsQuiet(turn: nat, w: Worker, v: View, eff: Effect, w': Worker)
    requires !Active(w) && Local(turn, w, v, eff, w')
    ensures SessionAfter(v.session, eff) == v.session && !Saves(eff)
  {
  }

  lemma OwnSessionCoheres(s: State, turn: nat, eff: Effect, next: Worker)
    requires Owned(s) && Coherent(s) && Enabled(s, Work(turn, eff, next))
    ensures Sound(SessionAfter(s.sessions[s.workers[turn].sid], eff))
    ensures Active(next) ==> Fit(SessionAfter(s.sessions[s.workers[turn].sid], eff).messages, EndingAt(next))
    ensures !Active(s.workers[turn]) ==>
              !Active(next) && SessionAfter(s.sessions[s.workers[turn].sid], eff) == s.sessions[s.workers[turn].sid]
  {
    var w := s.workers[turn];
    var v := ViewOf(s, turn, w);
    LocalHasShape(turn, w, v, eff, next);
    if Active(w) {
      assert ActiveOn(s, turn, w.sid) && LiveEnds(s, turn, w.sid);
      LiveWorkerCoheres(turn, w, v, eff, next);
    } else {
      LeavingWorkerIsQuiet(turn, w, v, eff, next);
    }
  }

  ghost predicate LiveEnds(s: State, t: nat, sid: SessionId) {
    ActiveOn(s, t, sid) && sid in s.sessions
    ==> Grounded(s.sessions[sid].messages) && Ends(s.sessions[sid].messages, EndingAt(s.workers[t]))
  }

  lemma OtherWorkersCohere(s: State, step: Step, t: nat, sid: SessionId)
    requires Owned(s) && Coherent(s) && Enabled(s, step) && !step.Crash?
    requires t in s.workers && !(step.Work? && step.turn == t)
    ensures LiveEnds(After(s, step), t, sid)
  {
    Undisturbed(s, step, t);
    assert LiveEnds(s, t, sid);
    assert ActiveOn(After(s, step), t, sid) ==> ActiveOn(s, t, sid);
  }

  lemma WorkKeepsSessionsSound(s: State, turn: nat, eff: Effect, next: Worker)
    requires Coherent(s) && turn in s.workers && s.workers[turn].sid in s.sessions
    requires Sound(SessionAfter(s.sessions[s.workers[turn].sid], eff))
    ensures var n := After(s, Work(turn, eff, next));
            && (forall sid <- n.sessions :: Sound(n.sessions[sid]))
            && (forall sid <- n.disk :: Sound(n.disk[sid]))
  {
  }

  lemma WorkKeepsLiveEnds(s: State, turn: nat, eff: Effect, next: Worker, t: nat, sid: SessionId)
    requires Owned(s) && Coherent(s) && Enabled(s, Work(turn, eff, next))
    requires next.sid == s.workers[turn].sid
    requires Active(next) ==> Fit(SessionAfter(s.sessions[next.sid], eff).messages, EndingAt(next))
    ensures LiveEnds(After(s, Work(turn, eff, next)), t, sid)
  {
    if t != turn && t in After(s, Work(turn, eff, next)).workers {
      OtherWorkersCohere(s, Work(turn, eff, next), t, sid);
    }
  }

  lemma WorkCoheres(s: State, turn: nat, eff: Effect, next: Worker)
    requires Owned(s) && Coherent(s) && turn in s.workers && s.workers[turn].sid in s.sessions
    requires Sound(SessionAfter(s.sessions[s.workers[turn].sid], eff))
    requires StartingOn(s, s.workers[turn].sid)
             ==> SessionAfter(s.sessions[s.workers[turn].sid], eff) == s.sessions[s.workers[turn].sid]
    requires forall t, sid :: LiveEnds(After(s, Work(turn, eff, next)), t, sid)
    ensures Coherent(After(s, Work(turn, eff, next)))
  {
    WorkKeepsSessionsSound(s, turn, eff, next);
  }

  lemma WorkKeepsCoherent(s: State, turn: nat, eff: Effect, next: Worker)
    requires Owned(s) && Coherent(s) && Enabled(s, Work(turn, eff, next))
    ensures Coherent(After(s, Work(turn, eff, next)))
  {
    var w := s.workers[turn];
    OwnSessionCoheres(s, turn, eff, next);
    LocalHasShape(turn, w, ViewOf(s, turn, w), eff, next);
    forall t, sid ensures LiveEnds(After(s, Work(turn, eff, next)), t, sid) {
      WorkKeepsLiveEnds(s, turn, eff, next, t, sid);
    }
    assert StartingOn(s, w.sid) ==> !ActiveOn(s, turn, w.sid);
    WorkCoheres(s, turn, eff, next);
  }

  lemma BeginKeepsSound(session: Session, prompt: string)
    requires Sound(session)
    ensures var next := Session(Opening(session.messages, prompt), Append(session.log, UserMessage(prompt)), true);
            Sound(next) && Opened(next.messages)
  {
    OpeningOpens(session.messages, prompt);
    AppendKeepsTail(session.log, UserMessage(prompt));
  }

  lemma CompactingKeepsSound(enabled: bool, session: Session)
    requires Sound(session) && Opened(session.messages) && Compacted(enabled, session.messages).Some?
    ensures var next := session.(messages := Compacted(enabled, session.messages).value,
                                 log := Append(session.log, ContextCompacted));
            Sound(next) && Opened(next.messages)
  {
    AppendKeepsTail(session.log, ContextCompacted);
    CompactionKeepsStructure(enabled, session.messages);
    CompactionKeepsTheLast(enabled, session.messages);
  }

  lemma StartKeepsSound(s: State, step: Step)
    requires Owned(s) && Coherent(s) && Enabled(s, step)
    requires step.Begin? || step.CompactAtStart?
    ensures var sid := if step.Begin? then step.sid else s.serve.sid;
            Sound(SessionsAfter(s, step)[sid]) && Opened(SessionsAfter(s, step)[sid].messages)
  {
    if step.Begin? {
      BeginKeepsSound(s.sessions[step.sid], step.prompt);
    } else {
      assert StartingOn(s, s.serve.sid);
      if Compacted(s.serve.compact, StartMessages(s)).Some? {
        CompactingKeepsSound(s.serve.compact, s.sessions[s.serve.sid]);
      }
    }
  }

  lemma CompactionKeepsTheLast(enabled: bool, messages: seq<Message>)
    requires Grounded(messages) && Compacted(enabled, messages).Some?
    ensures var out := Compacted(enabled, messages).value; |out| > 0 && out[|out| - 1] == messages[|messages| - 1]
  {
    CompactionKeepsStructure(enabled, messages);
  }

  lemma ServeKeepsSessionsSound(s: State, step: Step)
    requires Owned(s) && Coherent(s) && Enabled(s, step) && !step.Work? && !step.Crash?
    ensures forall sid <- SessionsAfter(s, step) :: Sound(SessionsAfter(s, step)[sid])
    ensures forall sid <- DiskAfter(s, step) :: Sound(DiskAfter(s, step)[sid])
    ensures ServeAfter(s, step).Starting? && ServeAfter(s, step).sid in SessionsAfter(s, step)
            ==> Opened(SessionsAfter(s, step)[ServeAfter(s, step).sid].messages)
  {
    assert s.serve.Starting? ==> StartingOn(s, s.serve.sid);
    if step.Begin? || step.CompactAtStart? {
      StartKeepsSound(s, step);
    }
  }

  lemma SpawnedTurnEnds(s: State)
    requires Owned(s) && Coherent(s) && Enabled(s, Spawn)
    ensures LiveEnds(After(s, Spawn), s.serve.turn, s.serve.sid)
  {
    assert StartingOn(s, s.serve.sid);
    NewTurnIsSettled(s.sessions[s.serve.sid].messages);
  }

  lemma ServeKeepsLiveEnds(s: State, step: Step, t: nat, sid: SessionId)
    requires Owned(s) && Coherent(s) && Enabled(s, step) && !step.Work? && !step.Crash?
    ensures LiveEnds(After(s, step), t, sid)
  {
    if step.Spawn? && t == s.serve.turn {
      SpawnedTurnEnds(s);
    } else if t in s.workers {
      OtherWorkersCohere(s, step, t, sid);
    }
  }

  lemma ServeKeepsCoherent(s: State, step: Step)
    requires Owned(s) && Coherent(s) && Enabled(s, step) && !step.Work? && !step.Crash?
    ensures Coherent(After(s, step))
  {
    ServeKeepsSessionsSound(s, step);
    forall t, sid ensures LiveEnds(After(s, step), t, sid) {
      ServeKeepsLiveEnds(s, step, t, sid);
    }
  }

  lemma CrashKeepsCoherent(s: State)
    requires Coherent(s)
    ensures Coherent(After(s, Crash))
  {
    forall sid <- s.disk
      ensures Sound(Recover(s.disk[sid]))
    {
      AppendKeepsTail(s.disk[sid].log, AgentError);
    }
  }

  lemma StepKeepsCoherent(s: State, step: Step)
    requires Owned(s) && Coherent(s) && Enabled(s, step)
    ensures Coherent(After(s, step))
  {
    match step
    case Work(turn, eff, next) => WorkKeepsCoherent(s, turn, eff, next);
    case Crash => CrashKeepsCoherent(s);
    case _ => ServeKeepsCoherent(s, step);
  }

  lemma {:induction false} RunKeepsCoherent(s: State, steps: seq<Step>, s': State)
    requires Owned(s) && Coherent(s) && Runs(s, steps, s')
    ensures Coherent(s') && Owned(s')
    decreases |steps|
  {
    if steps != [] {
      assert Takes(s, steps, s');
      StepKeepsOwned(s, steps[0]);
      StepKeepsCoherent(s, steps[0]);
      RunKeepsCoherent(After(s, steps[0]), steps[1..], s');
    }
  }

  lemma ReachableIsCoherent(s: State)
    requires Reachable(s)
    ensures Owned(s) && Coherent(s)
  {
    assert Owned(INITIAL) && Coherent(INITIAL);
    var steps :| Runs(INITIAL, steps, s);
    RunKeepsCoherent(INITIAL, steps, s);
  }

  /** In every reachable state, in memory and on disk, every tool result follows its own call and the
      event log is the tail of its numbering, through compactions, failures, cancels and crashes. */
  lemma EveryTranscriptIsSound(s: State, sid: SessionId)
    requires Reachable(s)
    ensures sid in s.sessions ==> WellFormed(s.sessions[sid].messages) && Tail(s.sessions[sid].log)
    ensures sid in s.disk ==> WellFormed(s.disk[sid].messages) && Tail(s.disk[sid].log)
  {
    ReachableIsCoherent(s);
  }

  /** The transcript of a live turn ends as its worker's place in the program says. */
  lemma LiveTurnEnds(s: State, turn: nat)
    requires Reachable(s) && turn in s.workers && Active(s.workers[turn])
    ensures s.workers[turn].sid in s.sessions
    ensures Ends(s.sessions[s.workers[turn].sid].messages, EndingAt(s.workers[turn]))
  {
    ReachableIsCoherent(s);
    assert ActiveOn(s, turn, s.workers[turn].sid);
    assert LiveEnds(s, turn, s.workers[turn].sid);
  }

  /** A turn that ends without an error has answered every call it made. */
  lemma FinishedTurnAnsweredEveryCall(s: State, turn: nat)
    requires Reachable(s)
    requires turn in s.workers && s.workers[turn].pc == Finishing(true)
    ensures s.workers[turn].sid in s.sessions
    ensures var messages := s.sessions[s.workers[turn].sid].messages; Settled(messages, |messages|)
  {
    LiveTurnEnds(s, turn);
  }

  /** At a model call the turn itself has answered every call, so what is missing is missing in an earlier turn. */
  lemma ModelCallAnswersTurnByTurn(s: State, turn: nat)
    requires Reachable(s) && turn in s.workers && s.workers[turn].pc.Requesting?
    ensures s.workers[turn].sid in s.sessions
    ensures var messages := s.sessions[s.workers[turn].sid].messages;
            && Settled(messages, |messages|)
            && (AnswersAll(messages)
                <==> forall k :: 0 <= k < |messages| && messages[k].role == User ==> PreviousTurnSettled(messages, k))
  {
    LiveTurnEnds(s, turn);
    AnswersAllIff(s.sessions[s.workers[turn].sid].messages);
  }

  /** Reopening after a crash: nothing runs, every session is the one last committed, and one that was
      running there ends with an error event of its own number. */
  lemma CrashClosesInterruptedTurns(s: State, sid: SessionId)
    requires Reachable(s)
    ensures var after := After(s, Crash);
            && Enabled(s, Crash) && after.workers == map[] && after.serve == Idle
            && (sid in after.sessions <==> sid in s.disk)
            && (sid in s.disk ==>
                  var old_log, new_log := s.disk[sid].log, after.sessions[sid].log;
                  && !after.sessions[sid].running && after.sessions[sid].messages == s.disk[sid].messages
                  && Tail(new_log)
                  && (s.disk[sid].running ==>
                        new_log.events[|new_log.events| - 1] == Event(old_log.sequence + 1, AgentError))
                  && (!s.disk[sid].running ==> new_log == old_log))
  {
    ReachableIsCoherent(s);
    if sid in s.disk {
      AppendKeepsTail(s.disk[sid].log, AgentError);
    }
  }
}
