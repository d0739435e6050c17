/** What a cancel achieves: at most one more outward action of the turn it hits, and when it can miss the live turn. */
module TurnCancel {
  import opened Basics
  import opened Transcript
  import opened Compaction
  import opened EventLog
  import opened TurnEngine
  import opened TurnOwnership
  import opened TurnFrames

  // ---------- After a cancel ----------

  function ActorOf(o: Obs): nat
    requires Outward(o)
  {
    match o
    case ModelCall(turn) => turn
    case ApprovalRequested(_, key) => key.turn
    case HostTool(_, _, key, _, _) => key.turn
  }

  predicate ActionOf(o: Obs, turn: nat) {
    Outward(o) && ActorOf(o) == turn
  }

  /** How many outward actions of the turn follow its first cancel. */
  function AfterCancel(log: seq<Obs>, turn: nat): nat {
    if log == [] then 0
    else
      var before := log[..|log| - 1];
      AfterCancel(before, turn) + if ActionOf(log[|log| - 1], turn) && CancelHit(turn) in before then 1 else 0
  }

  lemma AfterCancelGrows(log: seq<Obs>, more: seq<Obs>, turn: nat)
    requires |more| <= 1
    ensures AfterCancel(log + more, turn)
            == AfterCancel(log, turn)
               + if |more| == 1 && ActionOf(more[0], turn) && CancelHit(turn) in log then 1 else 0
  {
    if more == [] {
      assert log + more == log;
    } else {
      assert (log + more)[..|log + more| - 1] == log;
    }
  }

  lemma {:induction false} NothingCountsBeforeACancel(log: seq<Obs>, turn: nat)
    requires CancelHit(turn) !in log
    ensures AfterCancel(log, turn) == 0
  {
    if log != [] {
      NothingCountsBeforeACancel(log[..|log| - 1], turn);
    }
  }

  /** Outward actions a worker may still take before it reads its flag again. */
  predicate MayStillAct(pc: Pc) {
    || pc.Requesting? || pc.Announce? || pc.SaveCall? || pc.Decide? || pc.Asking? || pc.AskEmit? || pc.WaitPoll?
    || (pc.WaitDone? && pc.answer == Some(true)) || (pc.Resolve? && pc.answer == Some(true))
    || pc.Sending? || pc.HostEmit?
  }

  predicate Acts(eff: Effect) {
    eff.Say? && Outward(eff.obs)
  }

  /** A cancelled worker acts only where it may, and afterwards may not. */
  predicate Restrained(turn: nat, w: Worker, v: View, eff: Effect, w': Worker) {
    && (Acts(eff) ==> ActorOf(eff.obs) == turn)
    && (v.cancelled && Acts(eff) ==> MayStillAct(w.pc) && !MayStillAct(w'.pc))
    && (v.cancelled && MayStillAct(w'.pc) ==> MayStillAct(w.pc))
  }

  lemma ModelCallsAreRestrained(turn: nat, w: Worker, v: View, eff: Effect, w': Worker)
    requires PhaseOf(w.pc) == AskingModel && AskModel(turn, w, v, eff, w')
    ensures Restrained(turn, w, v, eff, w')
  {
    if w.pc.Compacting? {
      match Compacted(w.compact, v.session.messages) case None => case Some(_) =>
    }
  }

  lemma RepliesAreRestrained(turn: nat, w: Worker, v: View, eff: Effect, w': Worker)
    requires PhaseOf(w.pc) == TakingReply && TakeReply(w, v, eff, w')
    ensures Restrained(turn, w, v, eff, w')
  {
  }

  lemma FilingIsRestrained(turn: nat, w: Worker, v: View, eff: Effect, w': Worker)
    requires PhaseOf(w.pc) == FilingCall && w.index < |w.calls| && FileCall(turn, w, v, eff, w')
    ensures Restrained(turn, w, v, eff, w')
  {
  }

  lemma AskingIsRestrained(turn: nat, w: Worker, v: View, eff: Effect, w': Worker)
    requires PhaseOf(w.pc) == AskingUser && AskUser(turn, w, v, eff, w')
    ensures Restrained(turn, w, v, eff, w')
  {
  }

  lemma SendingIsRestrained(turn: nat, w: Worker, v: View, eff: Effect, w': Worker)
    requires PhaseOf(w.pc) == AskingHost && w.index < |w.calls| && AskHost(turn, w, v, eff, w')
    ensures Restrained(turn, w, v, eff, w')
  {
  }

  lemma WorkerIsRestrained(turn: nat, w: Worker, v: View, eff: Effect, w': Worker)
    requires Local(turn, w, v, eff, w')
    ensures Restrained(turn, w, v, eff, w')
  {
    match PhaseOf(w.pc)
    case AskingModel => ModelCallsAreRestrained(turn, w, v, eff, w');
    case TakingReply => RepliesAreRestrained(turn, w, v, eff, w');
    case FilingCall => FilingIsRestrained(turn, w, v, eff, w');
    case AskingUser => AskingIsRestrained(turn, w, v, eff, w');
    case AskingHost => SendingIsRestrained(turn, w, v, eff, w');
    case Ending =>
  }

  ghost predicate Bounded(s: State) {
    && (forall t :: t in s.flags <==> CancelHit(t) in s.log)
    && (forall t :: AfterCancel(s.log, t) <= 1)
    && (forall t <- s.workers :: t in s.flags && MayStillAct(s.workers[t].pc) ==> AfterCancel(s.log, t) == 0)
  }

  lemma OwnCountIsBounded(s: State, turn: nat, eff: Effect, next: Worker)
    requires Bounded(s) && turn in s.workers && s.workers[turn].sid in s.sessions
    requires Restrained(turn, s.workers[turn], ViewOf(s, turn, s.workers[turn]), eff, next)
    ensures var n := After(s, Work(turn, eff, next));
            && AfterCancel(n.log, turn) <= 1
            && (turn in n.flags && MayStillAct(next.pc) ==> AfterCancel(n.log, turn) == 0)
  {
    var step := Work(turn, eff, next);
    var sid := s.workers[turn].sid;
    ObservesAtMostOne(s, step);
    OnlySayIsOutward(sid, s.sessions[sid], eff);
    AfterCancelGrows(s.log, Observed(s, step), turn);
  }

  lemma OtherCountsStay(s: State, turn: nat, eff: Effect, next: Worker, t: nat)
    requires turn in s.workers && s.workers[turn].sid in s.sessions && t != turn
    requires Restrained(turn, s.workers[turn], ViewOf(s, turn, s.workers[turn]), eff, next)
    ensures AfterCancel(After(s, Work(turn, eff, next)).log, t) == AfterCancel(s.log, t)
  {
    var sid := s.workers[turn].sid;
    ObservesAtMostOne(s, Work(turn, eff, next));
    OnlySayIsOutward(sid, s.sessions[sid], eff);
    AfterCancelGrows(s.log, Observed(s, Work(turn, eff, next)), t);
  }

  lemma WorkCancelsNothing(s: State, turn: nat, eff: Effect, next: Worker)
    requires turn in s.workers && s.workers[turn].sid in s.sessions && !(eff.Say? && eff.obs.CancelHit?)
    ensures var n := After(s, Work(turn, eff, next));
            n.flags == s.flags && forall t :: CancelHit(t) in n.log <==> CancelHit(t) in s.log
  {
    var sid := s.workers[turn].sid;
    OnlySayIsOutward(sid, s.sessions[sid], eff);
    assert forall o <- Observed(s, Work(turn, eff, next)) :: !o.CancelHit?;
  }

  lemma WorkKeepsBounded(s: State, turn: nat, eff: Effect, next: Worker)
    requires Bounded(s) && turn in s.workers && s.workers[turn].sid in s.sessions
    requires Restrained(turn, s.workers[turn], ViewOf(s, turn, s.workers[turn]), eff, next)
    requires !(eff.Say? && eff.obs.CancelHit?)
    ensures Bounded(After(s, Work(turn, eff, next)))
  {
    OwnCountIsBounded(s, turn, eff, next);
    WorkCancelsNothing(s, turn, eff, next);
    forall t | t != turn {
      OtherCountsStay(s, turn, eff, next, t);
    }
  }

  lemma ServeKeepsBounded(s: State, step: Step)
    requires Bounded(s) && Defined(s, step) && !step.Work?
    ensures Bounded(After(s, step))
  {
    var n := After(s, step);
    ObservesAtMostOne(s, step);
    ServeIsNotOutward(s, step);
    forall t
      ensures AfterCancel(n.log, t) == AfterCancel(s.log, t)
      ensures t in n.flags <==> CancelHit(t) in n.log
      ensures t !in s.flags ==> AfterCancel(n.log, t) == 0
    {
      AfterCancelGrows(s.log, Observed(s, step), t);
      CancelIsLogged(s, step, t);
      if t !in s.flags {
        NothingCountsBeforeACancel(s.log, t);
      }
    }
  }

  lemma CancelIsLogged(s: State, step: Step, t: nat)
    requires Defined(s, step) && !step.Work?
    ensures CancelHit(t) in Observed(s, step) <==> t in CancelTarget(s, step)
  {
    if !step.Cancel? {
      assert CancelHit(t) !in Observed(s, step);
    }
  }

  lemma StepKeepsBounded(s: State, step: Step)
    requires Bounded(s) && Enabled(s, step)
    ensures Bounded(After(s, step))
  {
    match step
    case Work(turn, eff, next) =>
      WorkerIsRestrained(turn, s.workers[turn], ViewOf(s, turn, s.workers[turn]), eff, next);
      WorkersSayNothingElse(turn, s.workers[turn], ViewOf(s, turn, s.workers[turn]), eff, next);
      WorkKeepsBounded(s, turn, eff, next);
    case _ => ServeKeepsBounded(s, step);
  }

  lemma {:induction false} RunKeepsBounded(s: State, steps: seq<Step>, s': State)
    requires Bounded(s) && Runs(s, steps, s')
    ensures Bounded(s')
    decreases |steps|
  {
    if steps != [] {
      assert Takes(s, steps, s');
      StepKeepsBounded(s, steps[0]);
      RunKeepsBounded(After(s, steps[0]), steps[1..], s');
    }
  }

  /** After a cancel has hit a turn, at most one more model call, approval request or host call of it occurs. */
  lemma AtMostOneActionAfterACancel(s: State, turn: nat)
    requires Reachable(s)
    ensures AfterCancel(s.log, turn) <= 1
  {
    assert Bounded(INITIAL);
    var steps :| Runs(INITIAL, steps, s);
    RunKeepsBounded(INITIAL, steps, s);
  }

  // ---------- Whom a cancel hits ----------

  /** A finished turn of the session that has cleared `running` but not yet removed its key. */
  ghost predicate Stale(s: State, sid: SessionId) {
    exists u :: u in s.workers && s.workers[u].sid == sid && s.workers[u].pc.Unregister?
  }

  ghost predicate StartedOn(s: State, turn: nat, sid: SessionId) {
    ActiveOn(s, turn, sid) || (s.serve.Starting? && s.serve.turn == turn && s.serve.sid == sid)
  }

  /** A cancel of the session would reach exactly this turn. */
  ghost predicate Hits(s: State, sid: SessionId, turn: nat) {
    CancelTarget(s, Cancel(sid)) == {turn}
  }

  ghost predicate Covered(s: State, turn: nat, sid: SessionId) {
    && turn < s.nextTurn
    && (s.serve.Starting? && s.serve.turn == turn
        ==> s.serve.sid == sid && (s.serve.stage.StartEmit? || s.serve.stage.StartSpawn?))
    && (StartedOn(s, turn, sid) ==> sid in s.cancellation && s.cancellation[sid] == turn && !Stale(s, sid))
  }

  lemma WorkKeepsCovered(s: State, t: nat, eff: Effect, next: Worker, turn: nat, sid: SessionId)
    requires Owned(s) && Covered(s, turn, sid)
    requires t in s.workers && Shape(s.workers[t], eff, next)
    ensures Covered(After(s, Work(t, eff, next)), turn, sid)
  {
    var n := After(s, Work(t, eff, next));
    if StartedOn(n, turn, sid) {
      assert StartedOn(s, turn, sid);
      assert StartingOn(s, sid) || ActiveOn(s, turn, sid);
      assert s.workers[t].sid == sid && t != turn ==> !ActiveOn(s, t, sid);
      assert forall u :: u in n.workers && n.workers[u].pc.Unregister? ==>
        u in s.workers && s.workers[u].sid == n.workers[u].sid;
    }
  }

  lemma ServeKeepsCovered(s: State, step: Step, turn: nat, sid: SessionId)
    requires Owned(s) && Covered(s, turn, sid) && Enabled(s, step) && !step.Work?
    ensures Covered(After(s, step), turn, sid)
  {
    var n := After(s, step);
    if step.CompactAtStart? {
      match Compacted(s.serve.compact, StartMessages(s)) case None => case Some(_) =>
    }
    if StartedOn(n, turn, sid) {
      assert StartedOn(s, turn, sid);
      assert step.Register? ==> StartingOn(s, s.serve.sid);
      assert forall u :: u in n.workers && n.workers[u].pc.Unregister? ==>
        u in s.workers && s.workers[u] == n.workers[u];
    }
  }

  lemma StepKeepsCovered(s: State, step: Step, turn: nat, sid: SessionId)
    requires Owned(s) && Covered(s, turn, sid) && Enabled(s, step)
    ensures Covered(After(s, step), turn, sid)
  {
    match step
    case Work(t, eff, next) =>
      LocalHasShape(t, s.workers[t], ViewOf(s, t, s.workers[t]), eff, next);
      WorkKeepsCovered(s, t, eff, next, turn, sid);
    case _ => ServeKeepsCovered(s, step, turn, sid);
  }

  lemma {:induction false} RunKeepsCovered(s: State, steps: seq<Step>, s': State, turn: nat, sid: SessionId)
    requires Owned(s) && Covered(s, turn, sid) && Runs(s, steps, s')
    ensures Covered(s', turn, sid)
    decreases |steps|
  {
    if steps != [] {
      assert Takes(s, steps, s');
      StepKeepsOwned(s, steps[0]);
      StepKeepsCovered(s, steps[0], turn, sid);
      RunKeepsCovered(After(s, steps[0]), steps[1..], s', turn, sid);
    }
  }

  lemma RemovingTheKey(s: State, u: nat) returns (n: State)
    requires u in s.workers && s.workers[u].sid in s.sessions && s.workers[u].pc.Unregister?
    ensures Leads(s, n)
    ensures n.cancellation == s.cancellation - {s.workers[u].sid} && n.serve == s.serve
    ensures forall t <- s.workers :: t != u ==> t in n.workers && n.workers[t] == s.workers[t]
  {
    var drop := Work(u, DropKey, s.workers[u].(pc := LastEmit));
    LeadsNowhere(s);
    LeadsOneStep(s, s, drop);
    n := After(s, drop);
  }

  /** The run in which the stale worker takes the new turn's key away. */
  lemma StaleWorkerTakesTheKey(s: State, u: nat) returns (n: State)
    requires Owned(s) && AtStage(s, StartRegister)
    requires u in s.workers && s.workers[u].sid == s.serve.sid && s.workers[u].pc.Unregister?
    ensures Leads(After(s, Register), n)
    ensures StartedOn(n, s.serve.turn, s.serve.sid) && CancelTarget(n, Cancel(s.serve.sid)) == {}
  {
    var spawned := StartSpawns(s);
    n := RemovingTheKey(spawned, u);
    LeadsOn(After(s, Register), spawned, n);
    assert ActiveOn(n, s.serve.turn, s.serve.sid);
  }

  lemma WithoutStaleWorkersCancelHits(s: State, n: State)
    requires Owned(s) && AtStage(s, StartRegister) && !Stale(s, s.serve.sid)
    requires Leads(After(s, Register), n) && StartedOn(n, s.serve.turn, s.serve.sid)
    ensures Hits(n, s.serve.sid, s.serve.turn)
  {
    var s1 := After(s, Register);
    StepKeepsOwned(s, Register);
    assert StartingOn(s, s.serve.sid);
    assert Covered(s1, s.serve.turn, s.serve.sid);
    var steps :| Runs(s1, steps, n);
    RunKeepsCovered(s1, steps, n, s.serve.turn, s.serve.sid);
  }

  ghost predicate AlwaysHits(s: State, turn: nat, sid: SessionId) {
    forall n :: Leads(s, n) && StartedOn(n, turn, sid) ==> Hits(n, sid, turn)
  }

  lemma StaleWorkersCanMiss(s: State)
    requires Owned(s) && AtStage(s, StartRegister) && Stale(s, s.serve.sid)
    ensures !AlwaysHits(After(s, Register), s.serve.turn, s.serve.sid)
  {
    var u :| u in s.workers && s.workers[u].sid == s.serve.sid && s.workers[u].pc.Unregister?;
    var n := StaleWorkerTakesTheKey(s, u);
    assert !Hits(n, s.serve.sid, s.serve.turn);
  }

  /** From the moment a start registers its flag: in every continuation a cancel reaches this turn as long
      as the turn is live, exactly when no finished turn of the session still has its key removal ahead. */
  lemma CancelReachesTheLiveTurnIff(s: State)
    requires Reachable(s) && AtStage(s, StartRegister)
    ensures AlwaysHits(After(s, Register), s.serve.turn, s.serve.sid) <==> !Stale(s, s.serve.sid)
  {
    ReachableIsOwned(s);
    if Stale(s, s.serve.sid) {
      StaleWorkersCanMiss(s);
    } else {
      forall n | Leads(After(s, Register), n) && StartedOn(n, s.serve.turn, s.serve.sid)
        ensures Hits(n, s.serve.sid, s.serve.turn)
      {
        WithoutStaleWorkersCancelHits(s, n);
      }
    }
  }

  // ---------- A stale start is reachable ----------

  /** Turn 0 of session 0 stands here while the serve thread is idle. */
  ghost predicate Standing(s: State, pc: Pc) {
    && Reachable(s) && s.serve == Idle && 0 in s.sessions
    && 0 in s.workers && s.workers[0].sid == 0 && s.workers[0].pc == pc
  }

  lemma CancelledWorkerFails(s: State) returns (n: State)
    requires Standing(s, RoundTop) && 0 in s.flags
    ensures Standing(n, Failing)
  {
    n := After(s, Work(0, Silent, s.workers[0].(pc := Failing)));
    Reaches(s, Work(0, Silent, s.workers[0].(pc := Failing)));
  }

  lemma FailureIsRecorded(s: State) returns (n: State)
    requires Standing(s, Failing)
    ensures Standing(n, SaveFailure)
  {
    var step := Work(0, Record(s.sessions[0].messages, AgentError, Lost), s.workers[0].(pc := SaveFailure));
    Reaches(s, step);
    n := After(s, step);
  }

  lemma FailureIsReported(s: State) returns (n: State)
    requires Standing(s, SaveFailure)
    ensures Standing(n, ReportFailure)
  {
    n := After(s, Work(0, Silent, s.workers[0].(pc := ReportFailure)));
    Reaches(s, Work(0, Silent, s.workers[0].(pc := ReportFailure)));
  }

  lemma FailedTurnFinishes(s: State) returns (n: State)
    requires Standing(s, ReportFailure)
    ensures Standing(n, Finishing(false))
  {
    n := After(s, Work(0, Silent, s.workers[0].(pc := Finishing(false))));
    Reaches(s, Work(0, Silent, s.workers[0].(pc := Finishing(false))));
  }

  lemma FinishedTurnStops(s: State) returns (n: State)
    requires Standing(s, Finishing(false))
    ensures Standing(n, Unregister) && !n.sessions[0].running
  {
    n := After(s, Work(0, Stop(false), s.workers[0].(pc := Unregister)));
    Reaches(s, Work(0, Stop(false), s.workers[0].(pc := Unregister)));
  }

  lemma FirstSessionExists() returns (s: State)
    ensures Reachable(s) && s.serve == Idle && s.nextTurn == 0 && 0 in s.sessions && !s.sessions[0].running
  {
    assert Runs(INITIAL, [], INITIAL);
    Reaches(INITIAL, Create(0, true));
    s := After(INITIAL, Create(0, true));
  }

  lemma FirstTurnRuns(s: State) returns (n: State)
    requires Reachable(s) && AtStage(s, StartRegister) && s.serve.sid == 0 && s.serve.turn == 0 && 0 in s.sessions
    ensures Standing(n, RoundTop) && 0 in n.cancellation && n.cancellation[0] == 0
  {
    Reaches(s, Register);
    n := StartSpawns(s);
    ReachesBy(After(s, Register), n);
  }

  lemma FirstTurnIsCancelled(s: State) returns (n: State)
    requires Standing(s, RoundTop) && 0 in s.cancellation && s.cancellation[0] == 0
    ensures Standing(n, RoundTop) && 0 in n.flags
  {
    Reaches(s, Cancel(0));
    n := After(s, Cancel(0));
  }

  lemma NextStart(s: State) returns (n: State)
    requires Reachable(s) && s.serve == Idle && 0 in s.sessions && !s.sessions[0].running
    ensures Reachable(n) && AtStage(n, StartRegister) && n.serve.sid == 0 && n.serve.turn == s.nextTurn
    ensures n.workers == s.workers && 0 in n.sessions
  {
    n := StartReachesRegister(s, 0);
    ReachesBy(s, n);
  }

  /** Cancel a turn and start the next before the first has removed its key. */
  lemma StaleStartIsReachable() returns (s: State)
    ensures Reachable(s) && AtStage(s, StartRegister) && s.serve.sid == 0
    ensures 0 in s.workers && s.workers[0].sid == 0 && s.workers[0].pc.Unregister?
  {
    s := FirstSessionExists();
    s := NextStart(s);
    s := FirstTurnRuns(s);
    s := FirstTurnIsCancelled(s);
    s := CancelledWorkerFails(s);
    s := FailureIsRecorded(s);
    s := FailureIsReported(s);
    s := FailedTurnFinishes(s);
    s := FinishedTurnStops(s);
    s := NextStart(s);
  }

  /** As written, the code reaches a state with a live turn that no cancel of its session can reach. */
  lemma CancelCanMissTheLiveTurn()
    ensures exists s: State, turn, sid :: Reachable(s) && StartedOn(s, turn, sid) && CancelTarget(s, Cancel(sid)) == {}
  {
    var s := StaleStartIsReachable();
    ReachableIsOwned(s);
    var n := StaleWorkerTakesTheKey(s, 0);
    Reaches(s, Register);
    ReachesBy(After(s, Register), n);
  }
}
