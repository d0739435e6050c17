/** What a turn is limited to: so many model calls, the permission mode and session it was started with; and that its
    start is on disk before it begins to work. */
module TurnLimits {
  import opened Basics
  import opened Transcript
  import opened Compaction
  import opened EventLog
  import opened TurnEngine
  import opened TurnFrames
  import opened TurnOwnership
  import opened TurnTranscripts

  // ---------- One worker ----------

  /** The model call of this round has been made. */
  predicate HasCalled(pc: Pc) {
    PhaseOf(pc) != AskingModel || pc.Streaming? || pc.ChunkRecord? || pc.ChunkEmit?
  }

  /** How many model calls a worker at this place can have made. */
  function Quota(w: Worker): nat {
    if PhaseOf(w.pc) == Ending then MAX_TOOL_ROUNDS else w.round + if HasCalled(w.pc) then 1 else 0
  }

  predicate InBounds(w: Worker) {
    Quota(w) <= MAX_TOOL_ROUNDS && (PhaseOf(w.pc) == AskingModel && !w.pc.RoundTop? ==> w.round < MAX_TOOL_ROUNDS)
  }

  predicate Calls(eff: Effect) {
    eff.Say? && eff.obs.ModelCall?
  }

  /** A worker calls the model in its own name and within its quota, and the host in its own name and mode. */
  predicate ActsWithin(turn: nat, w: Worker, eff: Effect, w': Worker) {
    && (Calls(eff) ==> eff.obs.turn == turn)
    && (InBounds(w) ==> InBounds(w') && Quota(w) + (if Calls(eff) then 1 else 0) <= Quota(w'))
    && (eff.Say? && eff.obs.HostTool? ==> eff.obs.key.turn == turn && eff.obs.sid == w.sid && eff.obs.mode == w.mode)
  }

  lemma AskingModelActsWithin(turn: nat, w: Worker, v: View, eff: Effect, w': Worker)
    requires PhaseOf(w.pc) == AskingModel && AskModel(turn, w, v, eff, w')
    ensures ActsWithin(turn, w, eff, w')
  {
    if w.pc.Compacting? {
      match Compacted(w.compact, v.session.messages) case None => case Some(_) =>
    }
  }

  lemma TakingReplyActsWithin(turn: nat, w: Worker, v: View, eff: Effect, w': Worker)
    requires PhaseOf(w.pc) == TakingReply && TakeReply(w, v, eff, w')
    ensures ActsWithin(turn, w, eff, w')
  {
  }

  lemma FilingActsWithin(turn: nat, w: Worker, v: View, eff: Effect, w': Worker)
    requires PhaseOf(w.pc) == FilingCall && w.index < |w.calls| && FileCall(turn, w, v, eff, w')
    ensures ActsWithin(turn, w, eff, w')
  {
  }

  lemma AskingUserActsWithin(turn: nat, w: Worker, eff: Effect, w': Worker)
    requires PhaseOf(w.pc) == AskingUser && AsksUser(turn, w, eff, w')
    ensures ActsWithin(turn, w, eff, w')
  {
  }

  lemma AskingHostActsWithin(turn: nat, w: Worker, v: View, eff: Effect, w': Worker)
    requires PhaseOf(w.pc) == AskingHost && w.index < |w.calls| && AskHost(turn, w, v, eff, w')
    ensures ActsWithin(turn, w, eff, w')
  {
  }

  lemma EndActsWithin(turn: nat, w: Worker, v: View, eff: Effect, w': Worker)
    requires PhaseOf(w.pc) == Ending && End(w, v, eff, w')
    ensures ActsWithin(turn, w, eff, w')
  {
  }

  lemma WorkerActsWithin(turn: nat, w: Worker, v: View, eff: Effect, w': Worker)
    requires Local(turn, w, v, eff, w')
    ensures ActsWithin(turn, w, eff, w')
  {
    match PhaseOf(w.pc)
    case AskingModel => AskingModelActsWithin(turn, w, v, eff, w');
    case TakingReply => TakingReplyActsWithin(turn, w, v, eff, w');
    case FilingCall => FilingActsWithin(turn, w, v, eff, w');
    case AskingUser =>
      AskUserStays(turn, w, v, eff, w');
      AskingUserActsWithin(turn, w, eff, w');
    case AskingHost => AskingHostActsWithin(turn, w, v, eff, w');
    case Ending => EndActsWithin(turn, w, v, eff, w');
  }

  // ---------- Model calls ----------

  function ModelCalls(log: seq<Obs>, turn: nat): nat {
    if log == [] then 0
    else ModelCalls(log[..|log| - 1], turn) + if log[|log| - 1] == ModelCall(turn) then 1 else 0
  }

  lemma ModelCallsGrow(log: seq<Obs>, more: seq<Obs>, turn: nat)
    requires |more| <= 1
    ensures ModelCalls(log + more, turn) == ModelCalls(log, turn) + if more == [ModelCall(turn)] then 1 else 0
  {
    if more == [] {
      assert log + more == log;
    } else {
      assert (log + more)[..|log + more| - 1] == log;
    }
  }

  ghost predicate Budgeted(s: State) {
    && (forall t :: ModelCalls(s.log, t) <= MAX_TOOL_ROUNDS)
    && (forall t <- s.workers :: InBounds(s.workers[t]) && ModelCalls(s.log, t) <= Quota(s.workers[t]))
    && (forall t :: t >= s.nextTurn || (s.serve.Starting? && t == s.serve.turn) ==> ModelCalls(s.log, t) == 0)
  }

  lemma WorkObserves(s: State, step: Step)
    requires step.Work? && Enabled(s, step)
    ensures forall o <- Observed(s, step) :: o.ModelCall? || o.HostTool? ==> step.eff == Say(o)
    ensures Calls(step.eff) ==> Observed(s, step) == [step.eff.obs]
  {
    OnlySayIsOutward(s.workers[step.turn].sid, s.sessions[s.workers[step.turn].sid], step.eff);
  }

  lemma CallsAfterWork(s: State, step: Step, t: nat)
    requires step.Work? && Enabled(s, step) && (Calls(step.eff) ==> step.eff.obs.turn == step.turn)
    ensures ModelCalls(After(s, step).log, t)
            == ModelCalls(s.log, t) + if t == step.turn && Calls(step.eff) then 1 else 0
  {
    ObservesAtMostOne(s, step);
    WorkObserves(s, step);
    ModelCallsGrow(s.log, Observed(s, step), t);
  }

  lemma WorkKeepsBudgeted(s: State, step: Step)
    requires Owned(s) && Budgeted(s) && step.Work? && Enabled(s, step)
    ensures Budgeted(After(s, step))
  {
    var w := s.workers[step.turn];
    WorkerActsWithin(step.turn, w, ViewOf(s, step.turn, w), step.eff, step.next);
    forall t
      ensures ModelCalls(After(s, step).log, t)
              == ModelCalls(s.log, t) + if t == step.turn && Calls(step.eff) then 1 else 0
    {
      CallsAfterWork(s, step, t);
    }
  }

  lemma ServeMakesNoCalls(s: State, step: Step, t: nat)
    requires !step.Work? && Enabled(s, step)
    ensures ModelCalls(After(s, step).log, t) == ModelCalls(s.log, t)
  {
    ObservesAtMostOne(s, step);
    ServeIsNotOutward(s, step);
    ModelCallsGrow(s.log, Observed(s, step), t);
  }

  lemma NewWorkersAreInBounds(s: State, step: Step)
    requires Budgeted(s) && !step.Work? && Enabled(s, step)
    ensures forall t <- WorkersAfter(s, step) ::
              && InBounds(WorkersAfter(s, step)[t])
              && ModelCalls(s.log, t) <= Quota(WorkersAfter(s, step)[t])
  {
  }

  lemma ServeKeepsBudgeted(s: State, step: Step)
    requires Budgeted(s) && !step.Work? && Enabled(s, step)
    ensures Budgeted(After(s, step))
  {
    forall t ensures ModelCalls(After(s, step).log, t) == ModelCalls(s.log, t) {
      ServeMakesNoCalls(s, step, t);
    }
    NewWorkersAreInBounds(s, step);
  }

  lemma {:induction false} RunKeepsBudgeted(s: State, steps: seq<Step>, s': State)
    requires Owned(s) && Budgeted(s) && Runs(s, steps, s')
    ensures Budgeted(s')
    decreases |steps|
  {
    if steps != [] {
      assert Takes(s, steps, s');
      StepKeepsOwned(s, steps[0]);
      if steps[0].Work? {
        WorkKeepsBudgeted(s, steps[0]);
      } else {
        ServeKeepsBudgeted(s, steps[0]);
      }
      RunKeepsBudgeted(After(s, steps[0]), steps[1..], s');
    }
  }

  /** No turn calls the model more often than it has rounds. */
  lemma TurnsAreBounded(s: State, turn: nat)
    requires Reachable(s)
    ensures ModelCalls(s.log, turn) <= 24
  {
    assert Owned(INITIAL) && Budgeted(INITIAL);
    var steps :| Runs(INITIAL, steps, s);
    RunKeepsBudgeted(INITIAL, steps, s);
  }

  // ---------- The mode of a turn ----------

  /** Host calls are made only for turns that have begun. */
  ghost predicate OnlyBegun(s: State) {
    && (s.serve.Starting? ==> s.serve.turn < s.nextTurn)
    && (forall t <- s.workers :: t < s.nextTurn)
    && (forall o <- s.log :: o.HostTool? ==> o.key.turn < s.nextTurn)
  }

  lemma {:induction false} RunKeepsOnlyBegun(s: State, steps: seq<Step>, s': State)
    requires OnlyBegun(s) && Runs(s, steps, s')
    ensures OnlyBegun(s')
    decreases |steps|
  {
    if steps != [] {
      assert Takes(s, steps, s');
      StepKeepsOnlyBegun(s, steps[0]);
      RunKeepsOnlyBegun(After(s, steps[0]), steps[1..], s');
    }
  }

  lemma StepKeepsOnlyBegun(s: State, step: Step)
    requires OnlyBegun(s) && Enabled(s, step)
    ensures OnlyBegun(After(s, step))
  {
    if step.Work? {
      var w := s.workers[step.turn];
      WorkerActsWithin(step.turn, w, ViewOf(s, step.turn, w), step.eff, step.next);
      WorkObserves(s, step);
    } else {
      ServeIsNotOutward(s, step);
    }
  }

  /** Everything about the turn goes by the session and the mode it was started with. */
  ghost predicate GoesBy(n: State, turn: nat, sid: SessionId, mode: Mode) {
    && turn < n.nextTurn
    && (n.serve.Starting? && n.serve.turn == turn ==> n.serve.sid == sid && n.serve.mode == mode)
    && (turn in n.workers ==> n.workers[turn].sid == sid && n.workers[turn].mode == mode)
    && (forall o <- n.log :: o.HostTool? && o.key.turn == turn ==> o.sid == sid && o.mode == mode)
  }

  lemma StepGoesBy(n: State, step: Step, turn: nat, sid: SessionId, mode: Mode)
    requires GoesBy(n, turn, sid, mode) && Enabled(n, step)
    ensures GoesBy(After(n, step), turn, sid, mode)
  {
    if step.Work? {
      var w := n.workers[step.turn];
      LocalHasShape(step.turn, w, ViewOf(n, step.turn, w), step.eff, step.next);
      WorkerActsWithin(step.turn, w, ViewOf(n, step.turn, w), step.eff, step.next);
      WorkObserves(n, step);
    } else {
      ServeIsNotOutward(n, step);
    }
  }

  lemma {:induction false} RunGoesBy(n: State, steps: seq<Step>, n': State, turn: nat, sid: SessionId, mode: Mode)
    requires GoesBy(n, turn, sid, mode) && Runs(n, steps, n')
    ensures GoesBy(n', turn, sid, mode)
    decreases |steps|
  {
    if steps != [] {
      assert Takes(n, steps, n');
      StepGoesBy(n, steps[0], turn, sid, mode);
      RunGoesBy(After(n, steps[0]), steps[1..], n', turn, sid, mode);
    }
  }

  /** Every host call of a turn is made for the session and in the mode of the request that started it. */
  lemma HostCallsGoByTheirStart(s: State, begin: Step, n: State, o: Obs)
    requires Reachable(s) && begin.Begin? && Enabled(s, begin) && Leads(After(s, begin), n)
    requires o in n.log && o.HostTool? && o.key.turn == s.nextTurn
    ensures o.sid == begin.sid && o.mode == begin.mode
  {
    assert OnlyBegun(INITIAL);
    var before :| Runs(INITIAL, before, s);
    RunKeepsOnlyBegun(INITIAL, before, s);
    ServeIsNotOutward(s, begin);
    assert GoesBy(After(s, begin), s.nextTurn, begin.sid, begin.mode);
    var steps :| Runs(After(s, begin), steps, n);
    RunGoesBy(After(s, begin), steps, n, s.nextTurn, begin.sid, begin.mode);
  }

  // ---------- The start of a turn ----------

  /** From its snapshot on, the session that is being started is on disk as it is. */
  ghost predicate StartIsOnDisk(s: State) {
    s.serve.Starting? && (s.serve.stage.StartRegister? || s.serve.stage.StartEmit? || s.serve.stage.StartSpawn?) ==>
      && s.serve.sid in s.sessions && s.serve.sid in s.disk
      && s.disk[s.serve.sid] == s.sessions[s.serve.sid]
  }

  lemma WorkKeepsStartOnDisk(s: State, step: Step)
    requires Owned(s) && StartIsOnDisk(s) && step.Work? && Enabled(s, step)
    ensures StartIsOnDisk(After(s, step))
  {
    var w := s.workers[step.turn];
    if s.serve.Starting? && w.sid == s.serve.sid {
      assert StartingOn(s, w.sid) && !ActiveOn(s, step.turn, w.sid);
      LeavingWorkerIsQuiet(step.turn, w, ViewOf(s, step.turn, w), step.eff, step.next);
    }
  }

  lemma ServeKeepsStartOnDisk(s: State, step: Step)
    requires Owned(s) && StartIsOnDisk(s) && !step.Work? && Enabled(s, step)
    ensures StartIsOnDisk(After(s, step))
  {
    assert s.serve.Starting? ==> StartingOn(s, s.serve.sid);
  }

  lemma {:induction false} RunKeepsStartOnDisk(s: State, steps: seq<Step>, s': State)
    requires Owned(s) && StartIsOnDisk(s) && Runs(s, steps, s')
    ensures StartIsOnDisk(s')
    decreases |steps|
  {
    if steps != [] {
      assert Takes(s, steps, s');
      StepKeepsOwned(s, steps[0]);
      if steps[0].Work? {
        WorkKeepsStartOnDisk(s, steps[0]);
      } else {
        ServeKeepsStartOnDisk(s, steps[0]);
      }
      RunKeepsStartOnDisk(After(s, steps[0]), steps[1..], s');
    }
  }

  lemma ReachableStartIsOnDisk(s: State)
    requires Reachable(s)
    ensures StartIsOnDisk(s)
  {
    assert StartIsOnDisk(INITIAL) && Owned(INITIAL);
    var steps :| Runs(INITIAL, steps, s);
    RunKeepsStartOnDisk(INITIAL, steps, s);
  }

  /** A turn begins to work only when its session, running and with the prompt at its end, is on disk. */
  lemma TurnsBeginOnDisk(s: State)
    requires Reachable(s) && Enabled(s, Spawn)
    ensures var sid := s.serve.sid;
            && sid in s.sessions && sid in s.disk && s.disk[sid] == s.sessions[sid] && s.disk[sid].running
            && s.disk[sid].messages != [] && s.disk[sid].messages[|s.disk[sid].messages| - 1].role == User
  {
    ReachableIsCoherent(s);
    ReachableStartIsOnDisk(s);
    assert StartingOn(s, s.serve.sid);
  }
}
