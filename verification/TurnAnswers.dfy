/** When a model call answers every call: exactly where a turn breaks off with calls left, what that does to the turns
    after it, and that a session without errors never leaves a call without its result. */
module TurnAnswers {
  import opened Basics
  import opened Transcript
  import opened Compaction
  import opened EventLog
  import opened TurnEngine
  import opened TurnFrames
  import opened TurnOwnership
  import opened TurnTranscripts
  import opened TurnDisk

  // ---------- Where a turn breaks off ----------

  /** How the transcript ends after a step from this place, also when the step ends the turn with an error. */
  function RoundLeft(w: Worker): Ending {
    match w.pc
    case PushReply(reply) => Round(reply.toolCalls, 0)
    case PushResult(_) => Round(w.calls, w.index + 1)
    case PushDenial(_) => Round(w.calls, w.index + 1)
    case _ => EndingAt(w)
  }

  /** How many calls of the round the worker is in have no result when a step from this place ends the turn. */
  function CallsLeft(w: Worker): nat {
    match RoundLeft(w)
    case Round(calls, done) => Monus(|calls|, done)
    case _ => 0
  }

  ghost predicate Leaves(w: Worker, session: Session, eff: Effect) {
    TurnTranscripts.Moves(w, session.messages, EndingAt(w), SessionAfter(session, eff).messages, RoundLeft(w))
  }

  lemma AskingModelLeaves(turn: nat, w: Worker, v: View, eff: Effect, w': Worker)
    requires PhaseOf(w.pc) == AskingModel && AskModel(turn, w, v, eff, w')
    ensures Leaves(w, v.session, eff)
  {
    if w.pc.Compacting? {
      match Compacted(w.compact, v.session.messages) case None => case Some(_) =>
    }
  }

  lemma TakingReplyLeaves(w: Worker, v: View, eff: Effect, w': Worker)
    requires PhaseOf(w.pc) == TakingReply && TakeReply(w, v, eff, w')
    ensures Leaves(w, v.session, eff)
  {
    if w.pc.PushReply? {
      var reply := w.pc.reply;
      ReplyOpens(v.session.messages, reply.text, reply.toolCalls, RoundLeft(w));
    }
  }

  lemma PushingLeaves(turn: nat, w: Worker, v: View, eff: Effect, w': Worker)
    requires w.pc.PushResult? || w.pc.PushDenial?
    requires w.index < |w.calls| && FileCall(turn, w, v, eff, w')
    ensures Leaves(w, v.session, eff)
  {
    var output := if w.pc.PushResult? then w.pc.output else w.pc.reason;
    AnswerGives(v.session.messages, w.calls, w.index, output, RoundLeft(w));
  }

  lemma FilingLeaves(turn: nat, w: Worker, v: View, eff: Effect, w': Worker)
    requires PhaseOf(w.pc) == FilingCall && w.index < |w.calls| && FileCall(turn, w, v, eff, w')
    ensures Leaves(w, v.session, eff)
  {
    if w.pc.PushResult? || w.pc.PushDenial? {
      PushingLeaves(turn, w, v, eff, w');
    }
  }

  lemma AskingUserLeaves(turn: nat, w: Worker, v: View, eff: Effect, w': Worker)
    requires PhaseOf(w.pc) == AskingUser && AsksUser(turn, w, eff, w')
    ensures Leaves(w, v.session, eff)
  {
  }

  lemma AskingHostLeaves(turn: nat, w: Worker, v: View, eff: Effect, w': Worker)
    requires PhaseOf(w.pc) == AskingHost && w.index < |w.calls| && AskHost(turn, w, v, eff, w')
    ensures Leaves(w, v.session, eff)
  {
  }

  lemma StepLeaves(turn: nat, w: Worker, v: View, eff: Effect, w': Worker)
    requires Local(turn, w, v, eff, w') && !PhaseOf(w.pc).Ending?
    ensures Leaves(w, v.session, eff)
  {
    match PhaseOf(w.pc)
    case AskingModel => AskingModelLeaves(turn, w, v, eff, w');
    case TakingReply => TakingReplyLeaves(w, v, eff, w');
    case FilingCall => FilingLeaves(turn, w, v, eff, w');
    case AskingUser =>
      AskUserStays(turn, w, v, eff, w');
      AskingUserLeaves(turn, w, v, eff, w');
    case AskingHost => AskingHostLeaves(turn, w, v, eff, w');
  }

  /** The session of the worker after its step. */
  function Result(s: State, step: Step): Session
    requires step.Work? && Defined(s, step)
  {
    SessionAfter(s.sessions[s.workers[step.turn].sid], step.eff)
  }

  lemma LocalSettledIff(turn: nat, w: Worker, v: View, eff: Effect, w': Worker)
    requires Local(turn, w, v, eff, w') && !PhaseOf(w.pc).Ending? && Fit(v.session.messages, EndingAt(w))
    ensures var messages := SessionAfter(v.session, eff).messages;
            && Fit(messages, RoundLeft(w))
            && (Settled(messages, |messages|) <==> CallsLeft(w) == 0)
  {
    var messages := SessionAfter(v.session, eff).messages;
    StepLeaves(turn, w, v, eff, w');
    MovingFits(w, v.session.messages, EndingAt(w), messages, RoundLeft(w));
    if RoundLeft(w).Round? {
      RoundSettledIff(messages, RoundLeft(w).calls, RoundLeft(w).done);
    }
  }

  lemma LiveWorkerFits(s: State, turn: nat)
    requires Owned(s) && Coherent(s) && turn in s.workers && Active(s.workers[turn])
    ensures s.workers[turn].sid in s.sessions
    ensures Fit(s.sessions[s.workers[turn].sid].messages, EndingAt(s.workers[turn]))
  {
    assert ActiveOn(s, turn, s.workers[turn].sid) && LiveEnds(s, turn, s.workers[turn].sid);
  }

  lemma StepSettledIff(s: State, step: Step)
    requires Owned(s) && Coherent(s) && step.Work? && Enabled(s, step)
    requires !PhaseOf(s.workers[step.turn].pc).Ending?
    ensures var messages := Result(s, step).messages;
            Settled(messages, |messages|) <==> CallsLeft(s.workers[step.turn]) == 0
  {
    var w := s.workers[step.turn];
    LiveWorkerFits(s, step.turn);
    LocalSettledIff(step.turn, w, ViewOf(s, step.turn, w), step.eff, step.next);
  }

  /** A turn that fails, at whatever place of its program, leaves a call without its result exactly when the round it
      is in has one left. */
  lemma BreakingOffIff(s: State, step: Step)
    requires Reachable(s) && step.Work? && Enabled(s, step)
    requires step.next.pc.Failing? && !PhaseOf(s.workers[step.turn].pc).Ending?
    ensures var messages := Result(s, step).messages;
            Settled(messages, |messages|) <==> CallsLeft(s.workers[step.turn]) == 0
  {
    ReachableIsCoherent(s);
    StepSettledIff(s, step);
  }

  /** The places at which a failing turn has no call left: before the reply, at a reply without calls, and once the
      last call of the round has its result or denial. At every other place of a round one is left, be it a cancel
      between two calls, an unknown tool, a failed frame or snapshot, the host's failure, or a denial with more calls
      behind it. */
  lemma NothingIsLeftAt(turn: nat, w: Worker, v: View, eff: Effect, w': Worker)
    requires Local(turn, w, v, eff, w') && w'.pc.Failing? && !PhaseOf(w.pc).Ending?
    ensures CallsLeft(w) == 0
            <==> || PhaseOf(w.pc) == AskingModel || w.pc.Returned? || w.pc.RecordUsage?
                 || ((w.pc.PushReply? || w.pc.SaveReply?) && w.pc.reply.toolCalls == [])
                 || ((w.pc.PushResult? || w.pc.PushDenial? || w.pc.SaveResult? || w.pc.SaveDenial?)
                     && w.index + 1 == |w.calls|)
  {
  }

  // ---------- The turns before ----------

  lemma CompactingKeepsEarlier(enabled: bool, m: seq<Message>)
    requires Grounded(m) && EarlierAnswered(m)
    ensures EarlierAnswered(AfterCompaction(enabled, m))
  {
    if Compacted(enabled, m).Some? {
      CompactionKeepsStructure(enabled, m);
      var k, summary :| 1 < k < |m| && m[k].role == User && |summary| <= COMPACT_SUMMARY_CHARS + 12
                        && Compacted(enabled, m).value == [m[0], Text(System, summary)] + m[k..];
      CutKeepsEarlier(m, k, [m[0], Text(System, summary)]);
    }
  }

  /** What a transcript that began as `was` keeps of the turns before: all that was answered, and without compaction
      nothing else either. */
  ghost predicate Carries(m: seq<Message>, was: bool, compact: bool) {
    (was ==> EarlierAnswered(m)) && (!compact ==> (EarlierAnswered(m) <==> was))
  }

  lemma MovingCarries(w: Worker, m: seq<Message>, e: Ending, m': seq<Message>, e': Ending, was: bool)
    requires Grounded(m) && TurnTranscripts.Moves(w, m, e, m', e') && Carries(m, was, w.compact)
    ensures Carries(m', was, w.compact)
  {
    if Opens(m, e, m', e') || Gives(m, e, m', e') {
      PushKeepsEarlier(m, m'[|m|]);
    } else if was {
      CompactingKeepsEarlier(w.compact, m);
    }
  }

  lemma WorkerCarries(turn: nat, w: Worker, v: View, eff: Effect, w': Worker, was: bool)
    requires Local(turn, w, v, eff, w') && Grounded(v.session.messages) && Carries(v.session.messages, was, w.compact)
    ensures Carries(SessionAfter(v.session, eff).messages, was, w.compact)
  {
    WorkerFollows(turn, w, v, eff, w');
    MovingCarries(w, v.session.messages, EndingAt(w), SessionAfter(v.session, eff).messages, EndingAt(w'), was);
  }

  lemma OpeningCarries(m: seq<Message>, prompt: string, compact: bool)
    ensures Carries(Opening(m, prompt), AnswersAll(m), compact)
  {
    if m == [] {
      PromptClosesTurn([Text(System, POLICY)], Text(User, prompt));
    } else {
      PromptClosesTurn(m, Text(User, prompt));
    }
  }

  /** From its start to its end, the turn's transcript keeps of the turns before what it began with. */
  ghost predicate TurnCarries(n: State, turn: nat, sid: SessionId, was: bool, compact: bool) {
    && turn < n.nextTurn
    && (n.serve.Starting? && n.serve.turn == turn ==>
          && n.serve.sid == sid && n.serve.compact == compact
          && sid in n.sessions && Carries(n.sessions[sid].messages, was, compact))
    && (turn in n.workers && Active(n.workers[turn]) ==>
          && n.workers[turn].sid == sid && n.workers[turn].compact == compact
          && sid in n.sessions && Carries(n.sessions[sid].messages, was, compact))
  }

  lemma OwnWorkCarries(n: State, step: Step, sid: SessionId, was: bool, compact: bool)
    requires Owned(n) && Coherent(n) && step.Work? && Enabled(n, step) && TurnCarries(n, step.turn, sid, was, compact)
    ensures TurnCarries(After(n, step), step.turn, sid, was, compact)
  {
    var w := n.workers[step.turn];
    LocalHasShape(step.turn, w, ViewOf(n, step.turn, w), step.eff, step.next);
    if Active(w) {
      LiveWorkerFits(n, step.turn);
      WorkerCarries(step.turn, w, ViewOf(n, step.turn, w), step.eff, step.next, was);
    }
  }

  /** While a session is being started, no worker touches it. */
  lemma StartIsUndisturbed(n: State, step: Step, sid: SessionId)
    requires Owned(n) && step.Work? && Enabled(n, step) && StartingOn(n, sid) && sid in n.sessions
    ensures sid in After(n, step).sessions && After(n, step).sessions[sid] == n.sessions[sid]
  {
    var w := n.workers[step.turn];
    if w.sid == sid {
      assert !ActiveOn(n, step.turn, sid);
      LeavingWorkerIsQuiet(step.turn, w, ViewOf(n, step.turn, w), step.eff, step.next);
    }
  }

  lemma OtherWorkCarries(n: State, step: Step, turn: nat, sid: SessionId, was: bool, compact: bool)
    requires Owned(n) && step.Work? && step.turn != turn && Enabled(n, step) && TurnCarries(n, turn, sid, was, compact)
    ensures TurnCarries(After(n, step), turn, sid, was, compact)
  {
    if n.serve.Starting? && n.serve.turn == turn {
      assert StartingOn(n, sid);
      StartIsUndisturbed(n, step, sid);
    }
    if turn in n.workers {
      Undisturbed(n, step, turn);
    }
  }

  lemma CompactAtStartCarries(n: State, step: Step, turn: nat, sid: SessionId, was: bool, compact: bool)
    requires Owned(n) && Coherent(n) && step.CompactAtStart? && Enabled(n, step)
    requires TurnCarries(n, turn, sid, was, compact)
    ensures TurnCarries(After(n, step), turn, sid, was, compact)
  {
    assert StartingOn(n, n.serve.sid);
    if n.serve.turn == turn && was {
      CompactingKeepsEarlier(compact, n.sessions[sid].messages);
    }
    if turn in n.workers {
      Undisturbed(n, step, turn);
    }
  }

  lemma ServeCarries(n: State, step: Step, turn: nat, sid: SessionId, was: bool, compact: bool)
    requires Owned(n) && !step.Work? && !step.CompactAtStart? && Enabled(n, step)
    requires TurnCarries(n, turn, sid, was, compact)
    ensures TurnCarries(After(n, step), turn, sid, was, compact)
  {
    if turn in n.workers && !step.Crash? {
      Undisturbed(n, step, turn);
    }
  }

  lemma {:induction false} RunCarries(n: State, steps: seq<Step>, n': State, turn: nat, sid: SessionId, was: bool,
                                      compact: bool)
    requires Owned(n) && Coherent(n) && TurnCarries(n, turn, sid, was, compact) && Runs(n, steps, n')
    ensures TurnCarries(n', turn, sid, was, compact)
    decreases |steps|
  {
    if steps != [] {
      assert Takes(n, steps, n');
      var step := steps[0];
      StepKeepsOwned(n, step);
      StepKeepsCoherent(n, step);
      if step.Work? {
        if step.turn == turn {
          OwnWorkCarries(n, step, sid, was, compact);
        } else {
          OtherWorkCarries(n, step, turn, sid, was, compact);
        }
      } else if step.CompactAtStart? {
        CompactAtStartCarries(n, step, turn, sid, was, compact);
      } else {
        ServeCarries(n, step, turn, sid, was, compact);
      }
      RunCarries(After(n, step), steps[1..], n', turn, sid, was, compact);
    }
  }

  lemma StartedTurnCarries(s: State, begin: Step, n: State)
    requires Reachable(s) && begin.Begin? && Enabled(s, begin) && Leads(After(s, begin), n)
    ensures TurnCarries(n, s.nextTurn, begin.sid, AnswersAll(s.sessions[begin.sid].messages), begin.compact)
    ensures Reachable(n)
  {
    var m0 := s.sessions[begin.sid].messages;
    var first := After(s, begin);
    Reaches(s, begin);
    ReachesBy(first, n);
    ReachableIsCoherent(s);
    ReachableIsCoherent(first);
    OpeningCarries(m0, begin.prompt, begin.compact);
    assert TurnCarries(first, s.nextTurn, begin.sid, AnswersAll(m0), begin.compact);
    var steps :| Runs(first, steps, n);
    RunCarries(first, steps, n, s.nextTurn, begin.sid, AnswersAll(m0), begin.compact);
  }

  /** Every model call of a turn answers every call if the transcript did when the turn began; and without compaction,
      which may drop what was unanswered, only then. */
  lemma ModelCallAnswersAllIff(s: State, begin: Step, n: State)
    requires Reachable(s) && begin.Begin? && Enabled(s, begin) && Leads(After(s, begin), n)
    requires s.nextTurn in n.workers && n.workers[s.nextTurn].pc.Requesting?
    ensures begin.sid in n.sessions
    ensures AnswersAll(s.sessions[begin.sid].messages) ==> AnswersAll(n.sessions[begin.sid].messages)
    ensures !begin.compact ==>
              (AnswersAll(n.sessions[begin.sid].messages) <==> AnswersAll(s.sessions[begin.sid].messages))
  {
    StartedTurnCarries(s, begin, n);
    LiveTurnEnds(n, s.nextTurn);
    AnswersAllSplits(n.sessions[begin.sid].messages);
  }

  // ---------- From the end of a turn to the next ----------

  /** No new turn of the session and no crash. */
  predicate Quiet(steps: seq<Step>, sid: SessionId) {
    forall step <- steps :: !step.Crash? && !(step.Begin? && step.sid == sid)
  }

  /** What has been committed of the session since then holds these messages. */
  ghost predicate OnlyCommits(log: seq<Obs>, from: nat, sid: SessionId, messages: seq<Message>) {
    && from <= |log|
    && forall i :: from <= i < |log| && log[i].Committed? && log[i].sid == sid ==> log[i].session.messages == messages
  }

  lemma OnlyCommitsGrows(log: seq<Obs>, more: seq<Obs>, from: nat, sid: SessionId, messages: seq<Message>)
    requires OnlyCommits(log, from, sid, messages)
    requires forall o <- more :: o.Committed? && o.sid == sid ==> o.session.messages == messages
    ensures OnlyCommits(log + more, from, sid, messages)
  {
  }

  /** The session's turn is over or about to be, and its transcript stays. */
  ghost predicate Resting(n: State, sid: SessionId, messages: seq<Message>) {
    && sid in n.sessions && n.sessions[sid].messages == messages && !StartingOn(n, sid)
    && (forall t :: ActiveOn(n, t, sid) ==> PhaseOf(n.workers[t].pc).Ending?)
  }

  lemma EndKeepsMessages(w: Worker, v: View, eff: Effect, w': Worker)
    requires PhaseOf(w.pc).Ending? && End(w, v, eff, w')
    ensures SessionAfter(v.session, eff).messages == v.session.messages
    ensures PhaseOf(w'.pc).Ending?
    ensures forall o <- Emits(w.sid, v.session, eff) :: o.Committed? ==> o.session.messages == v.session.messages
  {
  }

  lemma RestingWorkerEnds(n: State, step: Step, sid: SessionId, messages: seq<Message>)
    requires Owned(n) && step.Work? && Enabled(n, step) && Resting(n, sid, messages)
    requires n.workers[step.turn].sid == sid
    ensures step.next.sid == sid && Result(n, step).messages == messages
    ensures PhaseOf(step.next.pc).Ending?
    ensures forall o <- Observed(n, step) :: o.Committed? ==> o.session.messages == messages
  {
    var w := n.workers[step.turn];
    LocalHasShape(step.turn, w, ViewOf(n, step.turn, w), step.eff, step.next);
    assert Active(w) ==> ActiveOn(n, step.turn, sid);
    EndKeepsMessages(w, ViewOf(n, step.turn, w), step.eff, step.next);
  }

  lemma OwnWorkKeepsResting(n: State, step: Step, sid: SessionId, messages: seq<Message>)
    requires Owned(n) && step.Work? && Enabled(n, step) && Resting(n, sid, messages)
    requires n.workers[step.turn].sid == sid
    ensures Resting(After(n, step), sid, messages)
    ensures forall o <- Observed(n, step) :: o.Committed? ==> o.session.messages == messages
  {
    RestingWorkerEnds(n, step, sid, messages);
    assert forall t :: t != step.turn && ActiveOn(After(n, step), t, sid) ==> ActiveOn(n, t, sid);
  }

  lemma OtherWorkKeepsResting(n: State, step: Step, sid: SessionId, messages: seq<Message>)
    requires Owned(n) && step.Work? && Enabled(n, step) && Resting(n, sid, messages)
    requires n.workers[step.turn].sid != sid
    ensures Resting(After(n, step), sid, messages)
    ensures forall o <- Observed(n, step) :: !(o.Committed? && o.sid == sid)
  {
    var w := n.workers[step.turn];
    LocalHasShape(step.turn, w, ViewOf(n, step.turn, w), step.eff, step.next);
    WorkersSayNothingElse(step.turn, w, ViewOf(n, step.turn, w), step.eff, step.next);
    assert forall t :: ActiveOn(After(n, step), t, sid) ==> ActiveOn(n, t, sid);
  }

  lemma ServeCommitsItsOwn(n: State, step: Step, sid: SessionId)
    requires Owned(n) && !step.Work? && Enabled(n, step) && sid in n.sessions && !StartingOn(n, sid)
    ensures forall o <- Observed(n, step) :: !(o.Committed? && o.sid == sid)
  {
    if step.CompactAtStart? {
      match Compacted(n.serve.compact, StartMessages(n)) case None => case Some(_) =>
    }
  }

  lemma ServeKeepsResting(n: State, step: Step, sid: SessionId, messages: seq<Message>)
    requires Owned(n) && !step.Work? && !step.Crash? && !(step.Begin? && step.sid == sid) && Enabled(n, step)
    requires Resting(n, sid, messages)
    ensures Resting(After(n, step), sid, messages)
  {
    assert n.serve.Starting? ==> StartingOn(n, n.serve.sid);
    assert forall t :: ActiveOn(After(n, step), t, sid) ==> ActiveOn(n, t, sid);
  }

  lemma StepKeepsResting(n: State, step: Step, sid: SessionId, messages: seq<Message>, from: nat)
    requires Owned(n) && Enabled(n, step) && !step.Crash? && !(step.Begin? && step.sid == sid)
    requires Resting(n, sid, messages) && OnlyCommits(n.log, from, sid, messages)
    ensures Resting(After(n, step), sid, messages) && OnlyCommits(After(n, step).log, from, sid, messages)
  {
    if !step.Work? {
      ServeKeepsResting(n, step, sid, messages);
      ServeCommitsItsOwn(n, step, sid);
    } else if n.workers[step.turn].sid == sid {
      OwnWorkKeepsResting(n, step, sid, messages);
    } else {
      OtherWorkKeepsResting(n, step, sid, messages);
    }
    OnlyCommitsGrows(n.log, Observed(n, step), from, sid, messages);
  }

  lemma {:induction false} RunKeepsResting(n: State, steps: seq<Step>, n': State, sid: SessionId,
                                           messages: seq<Message>, from: nat)
    requires Owned(n) && Resting(n, sid, messages) && OnlyCommits(n.log, from, sid, messages)
    requires Runs(n, steps, n') && Quiet(steps, sid)
    ensures Resting(n', sid, messages) && OnlyCommits(n'.log, from, sid, messages)
    decreases |steps|
  {
    if steps != [] {
      assert Takes(n, steps, n');
      StepKeepsOwned(n, steps[0]);
      assert steps[0] in steps;
      StepKeepsResting(n, steps[0], sid, messages, from);
      RunKeepsResting(After(n, steps[0]), steps[1..], n', sid, messages, from);
    }
  }

  lemma EndingRests(s: State, step: Step)
    requires Owned(s) && step.Work? && Enabled(s, step) && !PhaseOf(s.workers[step.turn].pc).Ending?
    requires PhaseOf(step.next.pc).Ending?
    ensures Resting(After(s, step), s.workers[step.turn].sid, Result(s, step).messages)
  {
    var w := s.workers[step.turn];
    LocalHasShape(step.turn, w, ViewOf(s, step.turn, w), step.eff, step.next);
    assert ActiveOn(s, step.turn, w.sid);
    assert forall t :: ActiveOn(After(s, step), t, w.sid) ==> ActiveOn(s, t, w.sid);
  }

  /** What a turn leaves: until the next turn of the session begins, its transcript in memory, and any snapshot
      committed of it, holds a call without its result in the last turn exactly when the place where the turn
      went over to its end had one left. A turn that ends well goes over with none left. */
  lemma TurnLeavesCallsIff(s: State, step: Step, steps: seq<Step>, n: State)
    requires Reachable(s) && step.Work? && Enabled(s, step)
    requires !PhaseOf(s.workers[step.turn].pc).Ending? && PhaseOf(step.next.pc).Ending?
    requires Runs(After(s, step), steps, n) && Quiet(steps, s.workers[step.turn].sid)
    ensures s.workers[step.turn].sid in n.sessions
    ensures var messages := n.sessions[s.workers[step.turn].sid].messages;
            && messages == Result(s, step).messages
            && OnlyCommits(n.log, |After(s, step).log|, s.workers[step.turn].sid, messages)
            && (Settled(messages, |messages|) <==> CallsLeft(s.workers[step.turn]) == 0)
  {
    var sid := s.workers[step.turn].sid;
    ReachableIsCoherent(s);
    StepKeepsOwned(s, step);
    StepSettledIff(s, step);
    EndingRests(s, step);
    RunKeepsResting(After(s, step), steps, n, sid, Result(s, step).messages, |After(s, step).log|);
  }

  lemma LiveStepCarries(b: State, step: Step, sid: SessionId, was: bool, compact: bool)
    requires Reachable(b) && step.Work? && Enabled(b, step) && !PhaseOf(b.workers[step.turn].pc).Ending?
    requires TurnCarries(b, step.turn, sid, was, compact)
    ensures b.workers[step.turn].sid == sid && Carries(Result(b, step).messages, was, compact)
  {
    var w := b.workers[step.turn];
    ReachableIsCoherent(b);
    LiveWorkerFits(b, step.turn);
    WorkerCarries(step.turn, w, ViewOf(b, step.turn, w), step.eff, step.next, was);
  }

  lemma LastStepCarries(s: State, begin: Step, b: State, step: Step)
    requires Reachable(s) && begin.Begin? && Enabled(s, begin) && Leads(After(s, begin), b)
    requires step.Work? && step.turn == s.nextTurn && Enabled(b, step) && !PhaseOf(b.workers[step.turn].pc).Ending?
    ensures Reachable(b) && b.workers[step.turn].sid == begin.sid
    ensures Carries(Result(b, step).messages, AnswersAll(s.sessions[begin.sid].messages), begin.compact)
  {
    StartedTurnCarries(s, begin, b);
    LiveStepCarries(b, step, begin.sid, AnswersAll(s.sessions[begin.sid].messages), begin.compact);
  }

  lemma CarriedAnswers(m: seq<Message>, was: bool, compact: bool, left: nat)
    requires Carries(m, was, compact) && (Settled(m, |m|) <==> left == 0)
    ensures AnswersAll(m) ==> left == 0
    ensures was && left == 0 ==> AnswersAll(m)
    ensures !compact ==> (AnswersAll(m) <==> was && left == 0)
  {
    AnswersAllSplits(m);
  }

  /** A whole turn: when it is over, and nothing new has begun, its transcript answers every call exactly when it did
      at its beginning and the turn left none itself; with compaction, which may drop what was unanswered, it does
      if so, and never if the turn left one. */
  lemma TurnPassesOnIff(s: State, begin: Step, b: State, step: Step, steps: seq<Step>, n: State)
    requires Reachable(s) && begin.Begin? && Enabled(s, begin) && Leads(After(s, begin), b)
    requires step.Work? && step.turn == s.nextTurn && Enabled(b, step)
    requires !PhaseOf(b.workers[step.turn].pc).Ending? && PhaseOf(step.next.pc).Ending?
    requires Runs(After(b, step), steps, n) && Quiet(steps, begin.sid)
    ensures begin.sid in n.sessions
    ensures var before, after := s.sessions[begin.sid].messages, n.sessions[begin.sid].messages;
            var left := CallsLeft(b.workers[step.turn]);
            && (AnswersAll(after) ==> left == 0)
            && (AnswersAll(before) && left == 0 ==> AnswersAll(after))
            && (!begin.compact ==> (AnswersAll(after) <==> AnswersAll(before) && left == 0))
  {
    LastStepCarries(s, begin, b, step);
    TurnLeavesCallsIff(b, step, steps, n);
    CarriedAnswers(n.sessions[begin.sid].messages, AnswersAll(s.sessions[begin.sid].messages), begin.compact,
                   CallsLeft(b.workers[step.turn]));
  }

  // ---------- A crash ----------

  lemma {:induction false} LastCommittedStays(log: seq<Obs>, from: nat, sid: SessionId)
    requires from <= |log|
    requires forall i :: from <= i < |log| ==> !(log[i].Committed? && log[i].sid == sid)
    ensures LastCommitted(log, sid) == LastCommitted(log[..from], sid)
    decreases |log|
  {
    if from < |log| {
      LastCommittedStays(log[..|log| - 1], from, sid);
      assert log[..|log| - 1][..from] == log[..from];
    } else {
      assert log[..from] == log;
    }
  }

  lemma {:induction false} RunKeepsLog(s: State, steps: seq<Step>, s': State)
    requires Runs(s, steps, s')
    ensures s.log <= s'.log
    decreases |steps|
  {
    if steps != [] {
      assert Takes(s, steps, s');
      RunKeepsLog(After(s, steps[0]), steps[1..], s');
    }
  }

  /** What a step commits is on disk until something else of the session is committed. */
  lemma SnapshotStays(s: State, step: Step, n: State)
    requires Reachable(s) && step.Work? && Enabled(s, step) && Saves(step.eff) && Leads(After(s, step), n)
    requires forall i :: |After(s, step).log| <= i < |n.log| ==>
               !(n.log[i].Committed? && n.log[i].sid == s.workers[step.turn].sid)
    ensures OnDisk(n.disk, s.workers[step.turn].sid) == Some(Result(s, step))
  {
    var sid := s.workers[step.turn].sid;
    var first := After(s, step);
    Reaches(s, step);
    ReachesBy(first, n);
    var steps :| Runs(first, steps, n);
    RunKeepsLog(first, steps, n);
    LastCommittedStays(n.log, |first.log|, sid);
    DiskIsLastCommitted(first, sid);
    DiskIsLastCommitted(n, sid);
  }

  /** A crash at any later moment, if nothing more of the session has been committed: the transcript that reopening
      finds holds a call without its result in its last turn exactly when the place where that snapshot was
      committed had one left. */
  lemma CrashLeavesCallsIff(s: State, step: Step, n: State)
    requires Reachable(s) && step.Work? && Enabled(s, step) && Saves(step.eff)
    requires !PhaseOf(s.workers[step.turn].pc).Ending? && Leads(After(s, step), n)
    requires forall i :: |After(s, step).log| <= i < |n.log| ==>
               !(n.log[i].Committed? && n.log[i].sid == s.workers[step.turn].sid)
    ensures s.workers[step.turn].sid in After(n, Crash).sessions
    ensures var messages := After(n, Crash).sessions[s.workers[step.turn].sid].messages;
            Settled(messages, |messages|) <==> CallsLeft(s.workers[step.turn]) == 0
  {
    SnapshotStays(s, step, n);
    ReachableIsCoherent(s);
    StepSettledIff(s, step);
  }

  /** What a start commits ends with its prompt: a crash that finds this snapshot finds no call left in the last
      turn. */
  lemma StartSnapshotIsSettled(s: State, result: SaveResult)
    requires Reachable(s) && Enabled(s, SaveAtStart(result)) && TurnEngine.Commits(result)
    ensures s.serve.sid in DiskAfter(s, SaveAtStart(result))
    ensures var messages := DiskAfter(s, SaveAtStart(result))[s.serve.sid].messages; Settled(messages, |messages|)
  {
    ReachableIsCoherent(s);
    assert StartingOn(s, s.serve.sid);
    NewTurnIsSettled(s.sessions[s.serve.sid].messages);
  }
}
