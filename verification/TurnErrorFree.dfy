/** A session in which no error event has been recorded, and which no crash found running, never leaves a call
    unanswered. */
module TurnErrorFree {
  import opened Basics
  import opened Transcript
  import opened Compaction
  import opened EventLog
  import opened TurnEngine
  import opened TurnFrames
  import opened TurnOwnership
  import opened TurnTranscripts
  import opened TurnDisk
  import opened TurnWire
  import opened TurnAnswers

  predicate IsError(o: Obs, sid: SessionId) {
    EventOf(o, sid) && o.event.data == AgentError
  }

  /** The last committed snapshot has the session running: a crash now would close it with an error event. */
  predicate CommittedRunning(log: seq<Obs>, sid: SessionId) {
    LastCommitted(log, sid).Some? && LastCommitted(log, sid).value.running
  }

  predicate HarmsAt(log: seq<Obs>, i: nat, sid: SessionId)
    requires i < |log|
  {
    IsError(log[i], sid) || (log[i].Crashed? && CommittedRunning(log[..i], sid))
  }

  /** Since this position no error event of the session has been recorded, neither by a turn nor by reopening. */
  ghost predicate ErrorFree(log: seq<Obs>, from: nat, sid: SessionId) {
    forall i :: from <= i < |log| ==> !HarmsAt(log, i, sid)
  }

  lemma NothingHarmful(log: seq<Obs>, more: seq<Obs>, from: nat, sid: SessionId)
    requires from <= |log| && |more| <= 1 && ErrorFree(log + more, from, sid)
    ensures forall o <- more :: !IsError(o, sid) && (o.Crashed? ==> !CommittedRunning(log, sid))
  {
    if more != [] {
      assert (log + more)[|log|] == more[0] && (log + more)[..|log|] == log;
      assert !HarmsAt(log + more, |log|, sid);
    }
  }

  /** A session at rest answers every call; while it runs, its earlier turns do. */
  ghost predicate Answering(session: Session) {
    if session.running then EarlierAnswered(session.messages) else AnswersAll(session.messages)
  }

  predicate PastFailure(pc: Pc) {
    pc.SaveFailure? || pc.ReportFailure? || pc == Finishing(false)
  }

  ghost predicate Spotless(n: State, sid: SessionId) {
    && (sid in n.sessions ==> Answering(n.sessions[sid]))
    && (sid in n.disk && !n.disk[sid].running ==> AnswersAll(n.disk[sid].messages))
    && (forall t :: ActiveOn(n, t, sid) ==> !PastFailure(n.workers[t].pc))
  }

  // ---------- Workers ----------

  /** Only recording an error event leads into the reporting of a failure. */
  predicate FailsOpenly(w: Worker, eff: Effect, w': Worker) {
    PastFailure(w'.pc) ==> PastFailure(w.pc) || (eff.Record? && eff.data == AgentError && eff.outcome != Later)
  }

  lemma AskingModelFailsOpenly(turn: nat, w: Worker, v: View, eff: Effect, w': Worker)
    requires PhaseOf(w.pc) == AskingModel && AskModel(turn, w, v, eff, w')
    ensures FailsOpenly(w, eff, w')
  {
    if w.pc.Compacting? {
      match Compacted(w.compact, v.session.messages) case None => case Some(_) =>
    }
  }

  lemma TakingReplyFailsOpenly(w: Worker, v: View, eff: Effect, w': Worker)
    requires PhaseOf(w.pc) == TakingReply && TakeReply(w, v, eff, w')
    ensures FailsOpenly(w, eff, w')
  {
  }

  lemma FilingFailsOpenly(turn: nat, w: Worker, v: View, eff: Effect, w': Worker)
    requires PhaseOf(w.pc) == FilingCall && w.index < |w.calls| && FileCall(turn, w, v, eff, w')
    ensures FailsOpenly(w, eff, w')
  {
  }

  lemma AskingUserFailsOpenly(turn: nat, w: Worker, eff: Effect, w': Worker)
    requires PhaseOf(w.pc) == AskingUser && AsksUser(turn, w, eff, w')
    ensures FailsOpenly(w, eff, w')
  {
  }

  lemma AskingHostFailsOpenly(turn: nat, w: Worker, v: View, eff: Effect, w': Worker)
    requires PhaseOf(w.pc) == AskingHost && w.index < |w.calls| && AskHost(turn, w, v, eff, w')
    ensures FailsOpenly(w, eff, w')
  {
  }

  lemma EndFailsOpenly(w: Worker, v: View, eff: Effect, w': Worker)
    requires PhaseOf(w.pc).Ending? && End(w, v, eff, w')
    ensures FailsOpenly(w, eff, w')
  {
  }

  lemma WorkerFailsOpenly(turn: nat, w: Worker, v: View, eff: Effect, w': Worker)
    requires Local(turn, w, v, eff, w')
    ensures FailsOpenly(w, eff, w')
  {
    match PhaseOf(w.pc)
    case AskingModel => AskingModelFailsOpenly(turn, w, v, eff, w');
    case TakingReply => TakingReplyFailsOpenly(w, v, eff, w');
    case FilingCall => FilingFailsOpenly(turn, w, v, eff, w');
    case AskingUser =>
      AskUserStays(turn, w, v, eff, w');
      AskingUserFailsOpenly(turn, w, eff, w');
    case AskingHost => AskingHostFailsOpenly(turn, w, v, eff, w');
    case Ending => EndFailsOpenly(w, v, eff, w');
  }

  lemma LiveWorkerAnswers(turn: nat, w: Worker, v: View, eff: Effect, w': Worker)
    requires Local(turn, w, v, eff, w') && Shape(w, eff, w') && Active(w) && !PastFailure(w.pc)
    requires Fit(v.session.messages, EndingAt(w)) && v.session.running && EarlierAnswered(v.session.messages)
    ensures Answering(SessionAfter(v.session, eff))
    ensures SessionAfter(v.session, eff).running <==> !eff.Stop?
  {
    if eff.Stop? {
      AnswersAllSplits(v.session.messages);
    } else {
      WorkerCarries(turn, w, v, eff, w', true);
    }
  }

  lemma ErrorIsObserved(n: State, step: Step)
    requires step.Work? && Defined(n, step)
    requires step.eff.Record? && step.eff.data == AgentError && step.eff.outcome != Later
    ensures exists o <- Observed(n, step) :: IsError(o, n.workers[step.turn].sid)
  {
    var sid := n.workers[step.turn].sid;
    var event := NextEvent(n.sessions[sid].log, AgentError);
    assert Observed(n, step) == [if step.eff.outcome == Sent then EventFrame(sid, event) else EventLost(sid, event)];
    assert IsError(Observed(n, step)[0], sid);
  }

  lemma LiveSessionAnswers(n: State, step: Step, sid: SessionId)
    requires Owned(n) && Coherent(n) && Spotless(n, sid) && step.Work? && Enabled(n, step)
    requires n.workers[step.turn].sid == sid && Active(n.workers[step.turn])
    ensures Answering(Result(n, step)) && (Result(n, step).running <==> !step.eff.Stop?)
  {
    var w := n.workers[step.turn];
    assert ActiveOn(n, step.turn, sid);
    LocalHasShape(step.turn, w, ViewOf(n, step.turn, w), step.eff, step.next);
    LiveWorkerFits(n, step.turn);
    LiveWorkerAnswers(step.turn, w, ViewOf(n, step.turn, w), step.eff, step.next);
  }

  lemma NoNewFailure(n: State, step: Step)
    requires step.Work? && Enabled(n, step) && !PastFailure(n.workers[step.turn].pc)
    requires forall o <- Observed(n, step) :: !IsError(o, n.workers[step.turn].sid)
    ensures !PastFailure(step.next.pc)
  {
    var w := n.workers[step.turn];
    WorkerFailsOpenly(step.turn, w, ViewOf(n, step.turn, w), step.eff, step.next);
    if step.eff.Record? && step.eff.data == AgentError && step.eff.outcome != Later {
      ErrorIsObserved(n, step);
    }
  }

  /** What a step writes to the session and to its snapshot is the same. */
  lemma SpotlessAfterWork(n: State, step: Step, sid: SessionId)
    requires Spotless(n, sid) && step.Work? && Defined(n, step)
    requires n.workers[step.turn].sid == sid && step.next.sid == sid
    requires Answering(Result(n, step)) && !PastFailure(step.next.pc)
    ensures Spotless(After(n, step), sid)
  {
    assert forall t :: t != step.turn && ActiveOn(After(n, step), t, sid) ==> ActiveOn(n, t, sid);
  }

  lemma LiveWorkStaysSpotless(n: State, step: Step, sid: SessionId)
    requires Owned(n) && Coherent(n) && Spotless(n, sid) && step.Work? && Enabled(n, step)
    requires n.workers[step.turn].sid == sid && Active(n.workers[step.turn])
    requires forall o <- Observed(n, step) :: !IsError(o, sid)
    ensures Spotless(After(n, step), sid)
  {
    var w := n.workers[step.turn];
    assert ActiveOn(n, step.turn, sid);
    LocalHasShape(step.turn, w, ViewOf(n, step.turn, w), step.eff, step.next);
    LiveSessionAnswers(n, step, sid);
    NoNewFailure(n, step);
    SpotlessAfterWork(n, step, sid);
  }

  lemma OtherSessionStaysSpotless(n: State, step: Step, sid: SessionId)
    requires Spotless(n, sid) && step.Work? && Enabled(n, step) && n.workers[step.turn].sid != sid
    ensures Spotless(After(n, step), sid)
  {
    var w := n.workers[step.turn];
    LocalHasShape(step.turn, w, ViewOf(n, step.turn, w), step.eff, step.next);
    assert forall t :: ActiveOn(After(n, step), t, sid) ==> ActiveOn(n, t, sid);
  }

  lemma LeavingStaysSpotless(n: State, step: Step, sid: SessionId)
    requires Spotless(n, sid) && step.Work? && Enabled(n, step) && !Active(n.workers[step.turn])
    ensures Spotless(After(n, step), sid)
  {
    var w := n.workers[step.turn];
    LocalHasShape(step.turn, w, ViewOf(n, step.turn, w), step.eff, step.next);
    LeavingWorkerIsQuiet(step.turn, w, ViewOf(n, step.turn, w), step.eff, step.next);
    assert forall t :: ActiveOn(After(n, step), t, sid) ==> ActiveOn(n, t, sid);
  }

  lemma WorkStaysSpotless(n: State, step: Step, sid: SessionId)
    requires Owned(n) && Coherent(n) && Spotless(n, sid) && step.Work? && Enabled(n, step)
    requires forall o <- Observed(n, step) :: !IsError(o, sid)
    ensures Spotless(After(n, step), sid)
  {
    if !Active(n.workers[step.turn]) {
      LeavingStaysSpotless(n, step, sid);
    } else if n.workers[step.turn].sid == sid {
      LiveWorkStaysSpotless(n, step, sid);
    } else {
      OtherSessionStaysSpotless(n, step, sid);
    }
  }

  // ---------- The serve thread and crashes ----------

  /** The serve thread's step leaves the workers, and the session and its snapshot are spotless after it. */
  lemma ServeSpotless(n: State, n': State, sid: SessionId)
    requires Spotless(n, sid) && n'.workers == n.workers
    requires sid in n'.sessions ==> Answering(n'.sessions[sid])
    requires sid in n'.disk && !n'.disk[sid].running ==> AnswersAll(n'.disk[sid].messages)
    ensures Spotless(n', sid)
  {
    assert forall t :: ActiveOn(n', t, sid) ==> ActiveOn(n, t, sid);
  }

  lemma BeginStaysSpotless(n: State, step: Step, sid: SessionId)
    requires Spotless(n, sid) && step.Begin? && Enabled(n, step)
    ensures Spotless(After(n, step), sid)
  {
    OpeningCarries(n.sessions[step.sid].messages, step.prompt, false);
    ServeSpotless(n, After(n, step), sid);
  }

  lemma CompactedSessionAnswers(session: Session, compact: bool)
    requires session.running && EarlierAnswered(session.messages) && Grounded(session.messages)
    ensures Answering(session.(messages := AfterCompaction(compact, session.messages)))
  {
    CompactingKeepsEarlier(compact, session.messages);
  }

  lemma CompactedStartAnswers(n: State, step: Step)
    requires Owned(n) && Coherent(n) && step.CompactAtStart? && Enabled(n, step)
    requires Answering(n.sessions[n.serve.sid])
    ensures Answering(SessionsAfter(n, step)[n.serve.sid])
  {
    assert StartingOn(n, n.serve.sid);
    CompactedSessionAnswers(n.sessions[n.serve.sid], n.serve.compact);
  }

  lemma CompactAtStartStaysSpotless(n: State, step: Step, sid: SessionId)
    requires Owned(n) && Coherent(n) && Spotless(n, sid) && step.CompactAtStart? && Enabled(n, step)
    ensures Spotless(After(n, step), sid)
  {
    if n.serve.sid == sid {
      CompactedStartAnswers(n, step);
    }
    ServeSpotless(n, After(n, step), sid);
  }

  lemma SaveAtStartStaysSpotless(n: State, step: Step, sid: SessionId)
    requires Owned(n) && Spotless(n, sid) && step.SaveAtStart? && Enabled(n, step)
    ensures Spotless(After(n, step), sid)
  {
    assert StartingOn(n, n.serve.sid);
    ServeSpotless(n, After(n, step), sid);
  }

  lemma SpawnStaysSpotless(n: State, sid: SessionId)
    requires Spotless(n, sid) && Enabled(n, Spawn)
    ensures Spotless(After(n, Spawn), sid)
  {
    assert forall t :: t != n.serve.turn && ActiveOn(After(n, Spawn), t, sid) ==> ActiveOn(n, t, sid);
  }

  lemma QuietServeStaysSpotless(n: State, step: Step, sid: SessionId)
    requires Spotless(n, sid) && Enabled(n, step)
    requires step.Create? || step.Register? || step.AnnounceStart? || step.Cancel? || step.Respond? || step.HostAnswer?
    ensures Spotless(After(n, step), sid)
  {
    ServeSpotless(n, After(n, step), sid);
  }

  lemma CrashStaysSpotless(n: State, sid: SessionId)
    requires Backed(n) && Spotless(n, sid) && !CommittedRunning(n.log, sid)
    ensures Spotless(After(n, Crash), sid)
  {
    assert LastCommitted(n.log, sid) == OnDisk(n.disk, sid);
  }

  lemma HarmlessStepStaysSpotless(n: State, step: Step, sid: SessionId)
    requires Owned(n) && Coherent(n) && Backed(n) && Spotless(n, sid) && Enabled(n, step)
    requires forall o <- Observed(n, step) :: !IsError(o, sid)
    requires step.Crash? ==> !CommittedRunning(n.log, sid)
    ensures Spotless(After(n, step), sid)
  {
    match step
    case Work(_, _, _) => WorkStaysSpotless(n, step, sid);
    case Crash => CrashStaysSpotless(n, sid);
    case Spawn => SpawnStaysSpotless(n, sid);
    case Begin(_, _, _, _, _) => BeginStaysSpotless(n, step, sid);
    case CompactAtStart(_) => CompactAtStartStaysSpotless(n, step, sid);
    case SaveAtStart(_) => SaveAtStartStaysSpotless(n, step, sid);
    case _ => QuietServeStaysSpotless(n, step, sid);
  }

  lemma StepStaysSpotless(n: State, step: Step, from: nat, sid: SessionId)
    requires Owned(n) && Coherent(n) && Backed(n) && Enabled(n, step) && from <= |n.log|
    requires Spotless(n, sid) && ErrorFree(After(n, step).log, from, sid)
    ensures Spotless(After(n, step), sid)
  {
    ObservesAtMostOne(n, step);
    NothingHarmful(n.log, Observed(n, step), from, sid);
    assert step.Crash? ==> Observed(n, step)[0] == Crashed;
    HarmlessStepStaysSpotless(n, step, sid);
  }

  // ---------- Whole runs ----------

  lemma ErrorFreeBefore(log: seq<Obs>, later: seq<Obs>, from: nat, sid: SessionId)
    requires log <= later && ErrorFree(later, from, sid)
    ensures ErrorFree(log, from, sid)
  {
    forall i | from <= i < |log|
      ensures !HarmsAt(log, i, sid)
    {
      assert later[..i] == log[..i] && !HarmsAt(later, i, sid);
    }
  }

  lemma {:induction false} RunStaysSpotless(n: State, steps: seq<Step>, n': State, from: nat, sid: SessionId)
    requires Owned(n) && Coherent(n) && Backed(n) && from <= |n.log| && Spotless(n, sid)
    requires Runs(n, steps, n') && ErrorFree(n'.log, from, sid)
    ensures Spotless(n', sid)
    decreases |steps|
  {
    if steps != [] {
      assert Takes(n, steps, n');
      var next := After(n, steps[0]);
      RunKeepsLog(next, steps[1..], n');
      ErrorFreeBefore(next.log, n'.log, from, sid);
      StepKeepsOwned(n, steps[0]);
      StepKeepsCoherent(n, steps[0]);
      StepKeepsBacked(n, steps[0]);
      StepStaysSpotless(n, steps[0], from, sid);
      RunStaysSpotless(next, steps[1..], n', from, sid);
    }
  }

  /** Not running, and every call answered, in memory and on disk; a session that does not exist yet is at rest. */
  ghost predicate AtRest(s: State, sid: SessionId) {
    && (sid in s.sessions ==> !s.sessions[sid].running && AnswersAll(s.sessions[sid].messages))
    && (sid in s.disk ==> !s.disk[sid].running && AnswersAll(s.disk[sid].messages))
  }

  /** From any moment at which the session was at rest: as long as no error event of it has been recorded since, every
      model call sends a transcript that answers every call. The condition can be read off the log. */
  lemma WithoutErrorsEveryCallIsAnswered(s: State, n: State, sid: SessionId, turn: nat)
    requires Reachable(s) && AtRest(s, sid) && Leads(s, n) && ErrorFree(n.log, |s.log|, sid)
    requires turn in n.workers && n.workers[turn].sid == sid && n.workers[turn].pc.Requesting?
    ensures sid in n.sessions && AnswersAll(n.sessions[sid].messages)
  {
    ReachableIsCoherent(s);
    assert forall other :: LastCommitted(s.log, other) == OnDisk(s.disk, other) by {
      forall other ensures LastCommitted(s.log, other) == OnDisk(s.disk, other) {
        DiskIsLastCommitted(s, other);
      }
    }
    assert Spotless(s, sid);
    var steps :| Runs(s, steps, n);
    RunStaysSpotless(s, steps, n, |s.log|, sid);
    ReachesBy(s, n);
    LiveTurnEnds(n, turn);
    assert ActiveOn(n, turn, sid);
    AnswersAllSplits(n.sessions[sid].messages);
  }

  /** In particular for a whole history: no error, no call without its result. */
  lemma ErrorFreeSessionsAnswerEveryCall(n: State, turn: nat)
    requires Reachable(n) && turn in n.workers && n.workers[turn].pc.Requesting?
    requires ErrorFree(n.log, 0, n.workers[turn].sid)
    ensures n.workers[turn].sid in n.sessions && AnswersAll(n.sessions[n.workers[turn].sid].messages)
  {
    LeadsNowhere(INITIAL);
    assert Leads(INITIAL, n);
    WithoutErrorsEveryCallIsAnswered(INITIAL, n, n.workers[turn].sid, turn);
  }
}
