/** No effectful tool call reaches the host without authority or before its record is on disk. */
module TurnSafety {
  import opened Basics
  import opened Transcript
  import opened Compaction
  import opened EventLog
  import opened TurnEngine
  import opened TurnOwnership
  import opened TurnFrames

  /** The calls that change nothing: reading and listing files and the three reading operations of git. */
  predicate OnlyReads(call: ToolCall) {
    || call.name == "nd_workspace_read" || call.name == "nd_workspace_list"
    || (call.name == "nd_git" && (call.operation == Some("status") || call.operation == Some("log")
                                  || call.operation == Some("diff")))
  }

  /** The tools that there are. */
  predicate IsTool(name: string) {
    name in ["nd_workspace_read", "nd_workspace_list", "nd_browser_call", "nd_workspace_write", "nd_git",
             "nd_extension_call"]
  }

  /** The mode allows the call outright, or an approval of exactly this call was granted. */
  ghost predicate Authority(log: seq<Obs>, key: CallKey, call: ToolCall, mode: Mode) {
    || OnlyReads(call)
    || mode == FullAccess
    || (mode == WorkspaceWrite && call.name == "nd_workspace_write")
    || (mode == WorkspaceWrite && exists id: nat :: ApprovalRequested(id, key) in log && Responded(id, true) in log)
  }

  ghost predicate HoldsCall(session: Session, key: CallKey, call: ToolCall) {
    exists e <- session.log.events :: e.data == CallRecorded(key, call)
  }

  /** The call's own record is in a snapshot that has been committed. */
  ghost predicate Durable(log: seq<Obs>, sid: SessionId, key: CallKey, call: ToolCall) {
    exists session :: Committed(sid, session) in log && HoldsCall(session, key, call)
  }

  /** What must precede a call that is sent to the host. */
  ghost predicate Justified(before: seq<Obs>, o: Obs) {
    o.HostTool? ==>
      IsTool(o.call.name) && Authority(before, o.key, o.call, o.mode) && Durable(before, o.sid, o.key, o.call)
  }

  ghost predicate AllJustified(log: seq<Obs>) {
    forall i :: 0 <= i < |log| ==> Justified(log[..i], log[i])
  }

  /** The approval id was drawn for this call and shown to the client. */
  ghost predicate Asked(turn: nat, w: Worker, id: nat, log: seq<Obs>) {
    w.mode == WorkspaceWrite && ApprovalRequested(id, Key(turn, w)) in log
  }

  ghost predicate Drawn(turn: nat, w: Worker, id: nat, issued: map<nat, CallKey>) {
    id in issued && issued[id] == Key(turn, w)
  }

  /** What a worker on its way to the host has already secured. */
  ghost predicate Earned(turn: nat, w: Worker, log: seq<Obs>, issued: map<nat, CallKey>) {
    match w.pc
    case SaveCall => w.index < |w.calls| ==> IsTool(w.calls[w.index].name)
    case Decide => w.index < |w.calls| ==> IsTool(w.calls[w.index].name)
    case Asking => w.mode == WorkspaceWrite
    case AskEmit(id) => w.mode == WorkspaceWrite && Drawn(turn, w, id, issued)
    case Waiting(id) => Asked(turn, w, id, log)
    case WaitPoll(id) => Asked(turn, w, id, log)
    case WaitDone(id, answer) => Asked(turn, w, id, log) && (answer == Some(true) ==> Responded(id, true) in log)
    case Resolve(id, answer) => Asked(turn, w, id, log) && (answer == Some(true) ==> Responded(id, true) in log)
    case Sending => w.index < |w.calls| ==> Authority(log, Key(turn, w), w.calls[w.index], w.mode)
    case HostEmit(_) => w.index < |w.calls| ==> Authority(log, Key(turn, w), w.calls[w.index], w.mode)
    case _ => true
  }

  predicate BeforeSend(pc: Pc) {
    PhaseOf(pc) == AskingUser || pc.Decide? || pc.Sending? || pc.HostEmit?
  }

  /** The record of the call is in the session, then on disk. */
  ghost predicate Filed(turn: nat, w: Worker, session: Session, log: seq<Obs>) {
    w.index < |w.calls| ==>
      && (w.pc.SaveCall? ==> IsTool(w.calls[w.index].name) && HoldsCall(session, Key(turn, w), w.calls[w.index]))
      && (BeforeSend(w.pc) ==> IsTool(w.calls[w.index].name) && Durable(log, w.sid, Key(turn, w), w.calls[w.index]))
  }

  ghost predicate Safe(s: State) {
    && AllJustified(s.log)
    && (forall id: nat, key :: ApprovalRequested(id, key) in s.log ==> id in s.issued && s.issued[id] == key)
    && (forall id <- s.approvals :: Responded(id, s.approvals[id]) in s.log)
    && (forall t <- s.workers :: Earned(t, s.workers[t], s.log, s.issued))
    && (forall t <- s.workers :: s.workers[t].sid in s.sessions ==>
          Filed(t, s.workers[t], s.sessions[s.workers[t].sid], s.log))
  }

  // ---------- One worker ----------

  lemma JustifiedGrows(log: seq<Obs>, more: seq<Obs>)
    requires AllJustified(log) && |more| <= 1
    requires forall o <- more :: Justified(log, o)
    ensures AllJustified(log + more)
  {
    var next := log + more;
    forall i | 0 <= i < |next|
      ensures Justified(next[..i], next[i])
    {
      if i < |log| {
        assert next[..i] == log[..i];
      } else {
        assert next[..i] == log;
        assert next[i] == more[0];
      }
    }
  }

  lemma DurableGrows(log: seq<Obs>, more: seq<Obs>, sid: SessionId, key: CallKey, call: ToolCall)
    requires Durable(log, sid, key, call)
    ensures Durable(log + more, sid, key, call)
  {
    var session :| Committed(sid, session) in log && HoldsCall(session, key, call);
    assert Committed(sid, session) in log + more;
  }

  lemma AuthorityGrows(log: seq<Obs>, more: seq<Obs>, key: CallKey, call: ToolCall, mode: Mode)
    requires Authority(log, key, call, mode)
    ensures Authority(log + more, key, call, mode)
  {
    if id: nat :| ApprovalRequested(id, key) in log && Responded(id, true) in log {
      assert ApprovalRequested(id, key) in log + more && Responded(id, true) in log + more;
    }
  }

  lemma EarnedGrows(turn: nat, w: Worker, log: seq<Obs>, more: seq<Obs>, issued: map<nat, CallKey>,
                    issued': map<nat, CallKey>)
    requires Earned(turn, w, log, issued)
    requires forall id <- issued :: id in issued' && issued'[id] == issued[id]
    ensures Earned(turn, w, log + more, issued')
  {
    if (w.pc.Sending? || w.pc.HostEmit?) && w.index < |w.calls| {
      AuthorityGrows(log, more, Key(turn, w), w.calls[w.index], w.mode);
    }
  }

  lemma FiledGrows(turn: nat, w: Worker, session: Session, log: seq<Obs>, more: seq<Obs>)
    requires Filed(turn, w, session, log)
    ensures Filed(turn, w, session, log + more)
  {
    if BeforeSend(w.pc) && w.index < |w.calls| {
      DurableGrows(log, more, w.sid, Key(turn, w), w.calls[w.index]);
    }
  }

  predicate OwesNothing(eff: Effect, w': Worker) {
    && (w'.pc.Announce? || !InCall(w'.pc))
    && (eff.Say? ==> !eff.obs.HostTool? && !eff.obs.ApprovalRequested?)
    && !eff.OpenApproval? && !eff.OpenHost?
  }

  lemma AskingModelOwesNothing(turn: nat, w: Worker, v: View, eff: Effect, w': Worker)
    requires PhaseOf(w.pc) == AskingModel && AskModel(turn, w, v, eff, w')
    ensures OwesNothing(eff, w')
  {
    if w.pc.Compacting? {
      match Compacted(w.compact, v.session.messages) case None => case Some(_) =>
    }
  }

  lemma TakingReplyOwesNothing(w: Worker, v: View, eff: Effect, w': Worker)
    requires PhaseOf(w.pc) == TakingReply && TakeReply(w, v, eff, w')
    ensures OwesNothing(eff, w')
  {
  }

  lemma EndingOwesNothing(w: Worker, v: View, eff: Effect, w': Worker)
    requires PhaseOf(w.pc) == Ending && End(w, v, eff, w')
    ensures OwesNothing(eff, w')
  {
  }

  /** Outside calls nothing is owed and nothing is asked of user or host. */
  lemma RoundOwesNothing(turn: nat, w: Worker, v: View, eff: Effect, w': Worker)
    requires !InCall(w.pc) && Local(turn, w, v, eff, w')
    ensures OwesNothing(eff, w')
  {
    match PhaseOf(w.pc)
    case AskingModel => AskingModelOwesNothing(turn, w, v, eff, w');
    case TakingReply => TakingReplyOwesNothing(w, v, eff, w');
    case Ending => EndingOwesNothing(w, v, eff, w');
  }

  lemma DecisionGrants(mode: Mode, call: ToolCall, log: seq<Obs>, key: CallKey)
    requires IsTool(call.name)
    ensures RequiresApproval(mode, call) == Granted ==> Authority(log, key, call, mode)
    ensures RequiresApproval(mode, call) == Ask ==> mode == WorkspaceWrite
  {
  }

  lemma DecidingEarns(turn: nat, w: Worker, v: View, eff: Effect, w': Worker, log: seq<Obs>, issued: map<nat, CallKey>)
    requires w.pc.Decide? && w.index < |w.calls| && FileCall(turn, w, v, eff, w')
    requires IsTool(w.calls[w.index].name)
    ensures Earned(turn, w', log, issued)
    ensures eff == Silent
  {
    DecisionGrants(w.mode, w.calls[w.index], log, Key(turn, w));
  }

  lemma FilingEarns(turn: nat, w: Worker, v: View, eff: Effect, w': Worker)
    requires PhaseOf(w.pc) == FilingCall && !w.pc.Decide? && w.index < |w.calls| && FileCall(turn, w, v, eff, w')
    ensures PhaseOf(w'.pc) in {FilingCall, TakingReply, Ending}
    ensures w'.pc.SaveCall? || w'.pc.Decide? ==>
              w' == w.(pc := w'.pc) && (w.pc.Announce? ==> IsTool(w.calls[w.index].name))
    ensures !eff.Say? && !eff.OpenApproval? && !eff.OpenHost?
  {
  }

  lemma AskingShowsItsOwnId(turn: nat, w: Worker, v: View, eff: Effect, w': Worker, log: seq<Obs>,
                            issued: map<nat, CallKey>)
    requires PhaseOf(w.pc) == AskingUser && AskUser(turn, w, v, eff, w') && Earned(turn, w, log, issued)
    ensures eff.Say? && eff.obs.ApprovalRequested? ==> eff.obs.key == Key(turn, w) && Drawn(turn, w, eff.obs.id, issued)
    ensures !eff.OpenHost? && !(eff.Say? && eff.obs.HostTool?)
  {
  }

  lemma WaitingEarns(turn: nat, w: Worker, v: View, eff: Effect, w': Worker, log: seq<Obs>, issued: map<nat, CallKey>)
    requires w.pc.Asking? || w.pc.AskEmit? || w.pc.Waiting? || w.pc.WaitPoll?
    requires w.index < |w.calls| && AskUser(turn, w, v, eff, w')
    requires Earned(turn, w, log, issued)
    requires forall id <- v.approvals :: Responded(id, v.approvals[id]) in log
    ensures var more := if eff.Say? then [eff.obs] else [];
            var issued' := if eff.OpenApproval? then issued[eff.id := Key(turn, w)] else issued;
            Earned(turn, w', log + more, issued')
  {
    var more := if eff.Say? then [eff.obs] else [];
    assert forall o <- log :: o in log + more;
    assert eff.Say? ==> (log + more)[|log|] == eff.obs;
  }

  lemma AnswerEarns(turn: nat, w: Worker, v: View, eff: Effect, w': Worker, log: seq<Obs>, issued: map<nat, CallKey>)
    requires w.pc.WaitDone? || w.pc.Resolve?
    requires w.index < |w.calls| && AskUser(turn, w, v, eff, w')
    requires Earned(turn, w, log, issued)
    ensures Earned(turn, w', log + if eff.Say? then [eff.obs] else [], issued)
  {
    var more := if eff.Say? then [eff.obs] else [];
    assert forall o <- log :: o in log + more;
    if w.pc.answer == Some(true) {
      assert ApprovalRequested(w.pc.id, Key(turn, w)) in log + more && Responded(w.pc.id, true) in log + more;
    }
  }

  lemma AskingEarns(turn: nat, w: Worker, v: View, eff: Effect, w': Worker, log: seq<Obs>, issued: map<nat, CallKey>)
    requires PhaseOf(w.pc) == AskingUser && w.index < |w.calls| && AskUser(turn, w, v, eff, w')
    requires Earned(turn, w, log, issued)
    requires forall id <- v.approvals :: Responded(id, v.approvals[id]) in log
    ensures var more := if eff.Say? then [eff.obs] else [];
            var issued' := if eff.OpenApproval? then issued[eff.id := Key(turn, w)] else issued;
            Earned(turn, w', log + more, issued')
  {
    if w.pc.WaitDone? || w.pc.Resolve? {
      AnswerEarns(turn, w, v, eff, w', log, issued);
    } else {
      WaitingEarns(turn, w, v, eff, w', log, issued);
    }
  }

  lemma HostEarns(turn: nat, w: Worker, v: View, eff: Effect, w': Worker, log: seq<Obs>, issued: map<nat, CallKey>)
    requires PhaseOf(w.pc) == AskingHost && w.index < |w.calls| && AskHost(turn, w, v, eff, w')
    requires Earned(turn, w, log, issued)
    ensures !eff.Say? ==> Earned(turn, w', log, issued)
    ensures eff.Say? ==>
              && w.pc.HostEmit? && w'.pc.HostWait?
              && eff.obs == HostTool(w.pc.hostId, w.sid, Key(turn, w), w.calls[w.index], w.mode)
    ensures eff.Say? ==> Authority(log, Key(turn, w), w.calls[w.index], w.mode)
    ensures !eff.OpenApproval?
  {
  }

  lemma AnnouncingFiles(turn: nat, w: Worker, v: View, eff: Effect, w': Worker, log: seq<Obs>)
    requires w.pc.Announce? && w.index < |w.calls| && FileCall(turn, w, v, eff, w')
    ensures Filed(turn, w', SessionAfter(v.session, eff), log)
  {
    if eff.Record? {
      var next := SessionAfter(v.session, eff).log.events;
      assert next[|next| - 1].data == eff.data && next[|next| - 1] in next;
    }
  }

  lemma SavingFiles(turn: nat, w: Worker, v: View, eff: Effect, w': Worker, log: seq<Obs>)
    requires w.pc.SaveCall? && w.index < |w.calls| && FileCall(turn, w, v, eff, w')
    requires Filed(turn, w, v.session, log)
    ensures Filed(turn, w', SessionAfter(v.session, eff), log + Emits(w.sid, v.session, eff))
  {
    if eff.Save? {
      var more := Emits(w.sid, v.session, eff);
      assert more == [Committed(w.sid, v.session)];
      assert (log + more)[|log|] == more[0];
      assert Committed(w.sid, v.session) in log + more;
    }
  }

  lemma DecidingFiles(turn: nat, w: Worker, v: View, eff: Effect, w': Worker, log: seq<Obs>)
    requires w.pc.Decide? && w.index < |w.calls| && FileCall(turn, w, v, eff, w')
    requires Filed(turn, w, v.session, log)
    ensures Filed(turn, w', SessionAfter(v.session, eff), log)
    ensures eff == Silent
  {
  }

  lemma AnsweringFiles(turn: nat, w: Worker, v: View, eff: Effect, w': Worker)
    requires w.pc.PushResult? || w.pc.SaveResult? || w.pc.PushDenial? || w.pc.SaveDenial?
    requires w.index < |w.calls| && FileCall(turn, w, v, eff, w')
    ensures !w'.pc.SaveCall? && !BeforeSend(w'.pc)
  {
  }

  lemma CallFiles(turn: nat, w: Worker, v: View, eff: Effect, w': Worker, log: seq<Obs>)
    requires PhaseOf(w.pc) == FilingCall && w.index < |w.calls| && FileCall(turn, w, v, eff, w')
    requires Filed(turn, w, v.session, log)
    ensures Filed(turn, w', SessionAfter(v.session, eff), log + Emits(w.sid, v.session, eff))
  {
    if w.pc.Announce? {
      AnnouncingFiles(turn, w, v, eff, w', log + Emits(w.sid, v.session, eff));
    } else if w.pc.SaveCall? {
      SavingFiles(turn, w, v, eff, w', log);
    } else if w.pc.Decide? {
      DecidingFiles(turn, w, v, eff, w', log);
      assert log + [] == log;
    } else {
      AnsweringFiles(turn, w, v, eff, w');
    }
  }

  lemma AskingUserKeepsPlace(turn: nat, w: Worker, v: View, eff: Effect, w': Worker)
    requires PhaseOf(w.pc) == AskingUser && AsksUser(turn, w, eff, w')
    ensures w' == w.(pc := w'.pc) && !w'.pc.SaveCall? && !w'.pc.Decide?
    ensures Emits(w.sid, v.session, eff) == if eff.Say? then [eff.obs] else []
  {
  }

  lemma AskingHostKeepsPlace(turn: nat, w: Worker, v: View, eff: Effect, w': Worker)
    requires PhaseOf(w.pc) == AskingHost && w.index < |w.calls| && AskHost(turn, w, v, eff, w')
    ensures w' == w.(pc := w'.pc) && !w'.pc.SaveCall? && !w'.pc.Decide?
    ensures BeforeSend(w'.pc) ==> BeforeSend(w.pc)
    ensures Emits(w.sid, v.session, eff) == if eff.Say? then [eff.obs] else []
  {
  }

  // ---------- All workers ----------

  /** What one step of a worker secures, for itself and for the log. */
  ghost predicate Secures(turn: nat, w: Worker, v: View, eff: Effect, w': Worker, log: seq<Obs>,
                          issued: map<nat, CallKey>)
  {
    var more := Emits(w.sid, v.session, eff);
    var issued' := if eff.OpenApproval? || eff.OpenHost? then issued[eff.id := Key(turn, w)] else issued;
    && Earned(turn, w', log + more, issued')
    && Filed(turn, w', SessionAfter(v.session, eff), log + more)
    && (eff.Say? ==> Justified(log, eff.obs))
    && (eff.Say? && eff.obs.ApprovalRequested? ==> Drawn(turn, w, eff.obs.id, issued) && eff.obs.key == Key(turn, w))
  }

  lemma FilingSecures(turn: nat, w: Worker, v: View, eff: Effect, w': Worker, log: seq<Obs>, issued: map<nat, CallKey>)
    requires PhaseOf(w.pc) == FilingCall && Local(turn, w, v, eff, w')
    requires Earned(turn, w, log, issued) && Filed(turn, w, v.session, log)
    ensures Secures(turn, w, v, eff, w', log, issued)
  {
    CallFiles(turn, w, v, eff, w', log);
    if w.pc.Decide? {
      DecidingEarns(turn, w, v, eff, w', log + Emits(w.sid, v.session, eff), issued);
    } else {
      FilingEarns(turn, w, v, eff, w');
    }
  }

  lemma AskingSecures(turn: nat, w: Worker, v: View, eff: Effect, w': Worker, log: seq<Obs>, issued: map<nat, CallKey>)
    requires PhaseOf(w.pc) == AskingUser && Local(turn, w, v, eff, w')
    requires Earned(turn, w, log, issued) && Filed(turn, w, v.session, log)
    requires forall id <- v.approvals :: Responded(id, v.approvals[id]) in log
    ensures Secures(turn, w, v, eff, w', log, issued)
  {
    AskingEarns(turn, w, v, eff, w', log, issued);
    AskingShowsItsOwnId(turn, w, v, eff, w', log, issued);
    AskUserStays(turn, w, v, eff, w');
    AskingUserKeepsPlace(turn, w, v, eff, w');
    DurableGrows(log, Emits(w.sid, v.session, eff), w.sid, Key(turn, w), w.calls[w.index]);
  }

  lemma HostSecures(turn: nat, w: Worker, v: View, eff: Effect, w': Worker, log: seq<Obs>, issued: map<nat, CallKey>)
    requires PhaseOf(w.pc) == AskingHost && Local(turn, w, v, eff, w')
    requires Earned(turn, w, log, issued) && Filed(turn, w, v.session, log)
    requires eff.OpenHost? ==> eff.id !in issued
    ensures Secures(turn, w, v, eff, w', log, issued)
  {
    var more := Emits(w.sid, v.session, eff);
    HostEarns(turn, w, v, eff, w', log, issued);
    AskingHostKeepsPlace(turn, w, v, eff, w');
    if BeforeSend(w.pc) {
      DurableGrows(log, more, w.sid, Key(turn, w), w.calls[w.index]);
    }
    if !eff.Say? {
      EarnedGrows(turn, w', log, more, issued, if eff.OpenHost? then issued[eff.id := Key(turn, w)] else issued);
    }
  }

  lemma RoundSecures(turn: nat, w: Worker, v: View, eff: Effect, w': Worker, log: seq<Obs>, issued: map<nat, CallKey>)
    requires !InCall(w.pc) && (w'.pc.Announce? || !InCall(w'.pc))
    requires eff.Say? ==> !eff.obs.HostTool? && !eff.obs.ApprovalRequested?
    requires !eff.OpenApproval? && !eff.OpenHost?
    ensures Secures(turn, w, v, eff, w', log, issued)
  {
  }

  lemma OwnStepIsSafe(turn: nat, w: Worker, v: View, eff: Effect, w': Worker, log: seq<Obs>, issued: map<nat, CallKey>)
    requires Local(turn, w, v, eff, w')
    requires Earned(turn, w, log, issued) && Filed(turn, w, v.session, log)
    requires forall id <- v.approvals :: Responded(id, v.approvals[id]) in log
    requires eff.OpenApproval? || eff.OpenHost? ==> eff.id !in issued
    ensures Secures(turn, w, v, eff, w', log, issued)
  {
    match PhaseOf(w.pc)
    case FilingCall => FilingSecures(turn, w, v, eff, w', log, issued);
    case AskingUser => AskingSecures(turn, w, v, eff, w', log, issued);
    case AskingHost => HostSecures(turn, w, v, eff, w', log, issued);
    case _ =>
      RoundOwesNothing(turn, w, v, eff, w');
      RoundSecures(turn, w, v, eff, w', log, issued);
  }

  lemma OthersStaySafe(s: State, step: Step, t: nat)
    requires Owned(s) && Safe(s) && Enabled(s, step) && !step.Crash?
    requires t in s.workers && !(step.Work? && step.turn == t)
    ensures var n := After(s, step);
            && t in n.workers
            && Earned(t, n.workers[t], n.log, n.issued)
            && (n.workers[t].sid in n.sessions ==> Filed(t, n.workers[t], n.sessions[n.workers[t].sid], n.log))
  {
    var n := After(s, step);
    Undisturbed(s, step, t);
    EarnedGrows(t, s.workers[t], s.log, Observed(s, step), s.issued, n.issued);
    FiledGrows(t, s.workers[t], s.sessions[s.workers[t].sid], s.log, Observed(s, step));
  }

  lemma WorkKeepsSafe(s: State, turn: nat, eff: Effect, next: Worker)
    requires Owned(s) && Safe(s) && Enabled(s, Work(turn, eff, next))
    ensures Safe(After(s, Work(turn, eff, next)))
  {
    var step := Work(turn, eff, next);
    var w := s.workers[turn];
    var v := ViewOf(s, turn, w);
    var n := After(s, step);
    ObservesAtMostOne(s, step);
    OnlySayIsOutward(w.sid, v.session, eff);
    LocalHasShape(turn, w, v, eff, next);
    OwnStepIsSafe(turn, w, v, eff, next, s.log, s.issued);
    JustifiedGrows(s.log, Observed(s, step));
    forall t <- n.workers | t != turn {
      OthersStaySafe(s, step, t);
    }
  }

  lemma RespondIsLogged(s: State, step: Step)
    requires Defined(s, step) && !step.Work?
    requires forall id <- s.approvals :: Responded(id, s.approvals[id]) in s.log
    ensures forall id <- ApprovalsGiven(s, step) ::
              Responded(id, ApprovalsGiven(s, step)[id]) in s.log + Observed(s, step)
  {
    if step.Respond? && step.id in s.pendingApprovals {
      assert (s.log + Observed(s, step))[|s.log|] == Responded(step.id, step.allowed);
    }
  }

  lemma ServeKeepsSafe(s: State, step: Step)
    requires Owned(s) && Safe(s) && Enabled(s, step) && !step.Work?
    ensures Safe(After(s, step))
  {
    var n := After(s, step);
    var more := Observed(s, step);
    ObservesAtMostOne(s, step);
    ServeIsNotOutward(s, step);
    RespondIsLogged(s, step);
    JustifiedGrows(s.log, more);
    forall t <- n.workers
      ensures Earned(t, n.workers[t], n.log, n.issued)
      ensures n.workers[t].sid in n.sessions ==> Filed(t, n.workers[t], n.sessions[n.workers[t].sid], n.log)
    {
      if step.Spawn? && t == s.serve.turn {
        assert n.workers[t].pc == RoundTop;
      } else {
        OthersStaySafe(s, step, t);
      }
    }
  }

  lemma {:induction false} RunKeepsSafe(s: State, steps: seq<Step>, s': State)
    requires Owned(s) && Safe(s) && Runs(s, steps, s')
    ensures Owned(s') && Safe(s')
    decreases |steps|
  {
    if steps != [] {
      assert Takes(s, steps, s');
      StepKeepsOwned(s, steps[0]);
      if steps[0].Work? {
        WorkKeepsSafe(s, steps[0].turn, steps[0].eff, steps[0].next);
      } else {
        ServeKeepsSafe(s, steps[0]);
      }
      RunKeepsSafe(After(s, steps[0]), steps[1..], s');
    }
  }

  lemma ReachableIsSafe(s: State)
    requires Reachable(s)
    ensures Owned(s) && Safe(s)
  {
    assert Owned(INITIAL) && Safe(INITIAL);
    var steps :| Runs(INITIAL, steps, s);
    RunKeepsSafe(INITIAL, steps, s);
  }

  /** In every interleaving, with crashes and restarts: whatever call reaches the host and does more than read, its
      turn is not read-only, and it has full access, or may write and this is the workspace's own write, or this very
      call was approved by a response to its own fresh id; and a committed snapshot holds the record of the call. */
  lemma EveryHostCallIsJustified(s: State, i: nat)
    requires Reachable(s)
    requires i < |s.log| && s.log[i].HostTool?
    ensures var before, key, call, mode := s.log[..i], s.log[i].key, s.log[i].call, s.log[i].mode;
            || call.name == "nd_workspace_read" || call.name == "nd_workspace_list"
            || (call.name == "nd_git" && (call.operation == Some("status") || call.operation == Some("log")
                                          || call.operation == Some("diff")))
            || mode == FullAccess
            || (mode == WorkspaceWrite && call.name == "nd_workspace_write")
            || (mode == WorkspaceWrite
                && exists id: nat :: ApprovalRequested(id, key) in before && Responded(id, true) in before)
    ensures s.log[i].call.name in ["nd_workspace_read", "nd_workspace_list", "nd_browser_call", "nd_workspace_write",
                                   "nd_git", "nd_extension_call"]
    ensures exists session, e ::
              && Committed(s.log[i].sid, session) in s.log[..i] && e in session.log.events
              && e.data == CallRecorded(s.log[i].key, s.log[i].call)
  {
    ReachableIsSafe(s);
    assert Justified(s.log[..i], s.log[i]);
    var session :| Committed(s.log[i].sid, session) in s.log[..i] && HoldsCall(session, s.log[i].key, s.log[i].call);
    var e :| e in session.log.events && e.data == CallRecorded(s.log[i].key, s.log[i].call);
  }
}
