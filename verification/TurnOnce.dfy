/** Each tool call is sent to the host at most once, also across crashes, and each approval serves one call. */
module TurnOnce {
  import opened Basics
  import opened Transcript
  import opened Compaction
  import opened EventLog
  import opened TurnEngine
  import opened TurnOwnership
  import opened TurnFrames
  import opened TurnSafety

  /** The send of the call the worker stands at is behind it. */
  predicate Sent(pc: Pc) {
    || pc.HostWait? || pc.HostPoll? || pc.HostDone? || pc.PushResult? || pc.SaveResult?
    || PhaseOf(pc) == Ending
  }

  /** The call named by the key lies behind the worker. */
  predicate Passed(key: CallKey, w: Worker) {
    key.round < w.round || (key.round == w.round && (key.index < w.index || (key.index == w.index && Sent(w.pc))))
  }

  /** Between rounds the worker stands before the first call. */
  predicate Placed(w: Worker) {
    PhaseOf(w.pc) == AskingModel || (PhaseOf(w.pc) == TakingReply && !w.pc.CallTop?) ==> w.index == 0
  }

  ghost predicate Once(s: State) {
    && (forall i :: 0 <= i < |s.log| && s.log[i].HostTool? ==> Bygone(s, s.log[i].key))
    && (forall i, j :: 0 <= i < j < |s.log| && s.log[i].HostTool? && s.log[j].HostTool? ==>
          s.log[i].key != s.log[j].key)
    && (forall t <- s.workers :: Placed(s.workers[t]))
  }

  ghost predicate Bygone(s: State, key: CallKey) {
    && key.turn < s.nextTurn
    && (s.serve.Starting? ==> key.turn != s.serve.turn)
    && (key.turn in s.workers ==> Passed(key, s.workers[key.turn]))
  }

  /** A step never moves a worker back, and sending moves it past the call it sends. */
  ghost predicate Advances(turn: nat, w: Worker, eff: Effect, w': Worker) {
    && Placed(w')
    && (forall key :: Passed(key, w) ==> Passed(key, w'))
    && (eff.Say? && eff.obs.HostTool? ==>
          eff.obs.key == Key(turn, w) && !Passed(eff.obs.key, w) && Passed(eff.obs.key, w'))
  }

  lemma RoundsAdvance(turn: nat, w: Worker, v: View, eff: Effect, w': Worker)
    requires Placed(w) && PhaseOf(w.pc) == AskingModel && AskModel(turn, w, v, eff, w')
    ensures Advances(turn, w, eff, w')
  {
    if w.pc.Compacting? {
      match Compacted(w.compact, v.session.messages) case None => case Some(_) =>
    }
  }

  lemma RepliesAdvance(turn: nat, w: Worker, v: View, eff: Effect, w': Worker)
    requires Placed(w) && PhaseOf(w.pc) == TakingReply && TakeReply(w, v, eff, w')
    ensures Advances(turn, w, eff, w')
  {
  }

  lemma DecidingAdvances(turn: nat, w: Worker, v: View, eff: Effect, w': Worker)
    requires w.pc.Decide? && w.index < |w.calls| && FileCall(turn, w, v, eff, w')
    ensures Advances(turn, w, eff, w')
  {
    assert PhaseOf(w'.pc) in {AskingUser, AskingHost, FilingCall} && w' == w.(pc := w'.pc) && eff == Silent;
  }

  lemma FilingAdvances(turn: nat, w: Worker, v: View, eff: Effect, w': Worker)
    requires PhaseOf(w.pc) == FilingCall && !w.pc.Decide? && w.index < |w.calls| && FileCall(turn, w, v, eff, w')
    ensures Advances(turn, w, eff, w')
  {
  }

  lemma AskingAdvances(turn: nat, w: Worker, eff: Effect, w': Worker)
    requires PhaseOf(w.pc) == AskingUser && AsksUser(turn, w, eff, w')
    ensures Advances(turn, w, eff, w')
  {
  }

  lemma SendingAdvances(turn: nat, w: Worker, v: View, eff: Effect, w': Worker)
    requires PhaseOf(w.pc) == AskingHost && w.index < |w.calls| && AskHost(turn, w, v, eff, w')
    ensures Advances(turn, w, eff, w')
  {
  }

  lemma EndingAdvances(turn: nat, w: Worker, v: View, eff: Effect, w': Worker)
    requires PhaseOf(w.pc) == Ending && End(w, v, eff, w')
    ensures Advances(turn, w, eff, w')
  {
  }

  lemma WorkerAdvances(turn: nat, w: Worker, v: View, eff: Effect, w': Worker)
    requires Placed(w) && Local(turn, w, v, eff, w')
    ensures Advances(turn, w, eff, w')
  {
    match PhaseOf(w.pc)
    case AskingModel => RoundsAdvance(turn, w, v, eff, w');
    case TakingReply => RepliesAdvance(turn, w, v, eff, w');
    case FilingCall =>
      if w.pc.Decide? { DecidingAdvances(turn, w, v, eff, w'); } else { FilingAdvances(turn, w, v, eff, w'); }
    case AskingUser =>
      AskUserStays(turn, w, v, eff, w');
      AskingAdvances(turn, w, eff, w');
    case AskingHost => SendingAdvances(turn, w, v, eff, w');
    case Ending => EndingAdvances(turn, w, v, eff, w');
  }

  lemma WorkKeepsOnce(s: State, turn: nat, eff: Effect, next: Worker)
    requires Once(s) && turn in s.workers && s.workers[turn].sid in s.sessions
    requires turn < s.nextTurn && (s.serve.Starting? ==> turn != s.serve.turn)
    requires Advances(turn, s.workers[turn], eff, next)
    ensures Once(After(s, Work(turn, eff, next)))
  {
    var step := Work(turn, eff, next);
    var n := After(s, step);
    ObservesAtMostOne(s, step);
    OnlySayIsOutward(s.workers[turn].sid, s.sessions[s.workers[turn].sid], eff);
    forall i | 0 <= i < |n.log| && n.log[i].HostTool?
      ensures Bygone(n, n.log[i].key)
      ensures i == |s.log| ==> n.log[i].key == Key(turn, s.workers[turn])
    {
      if i < |s.log| {
        assert Bygone(s, s.log[i].key);
      }
    }
  }

  lemma ServeKeepsOnce(s: State, step: Step)
    requires Owned(s) && Once(s) && Defined(s, step) && !step.Work?
    requires step.Begin? ==> s.serve == Idle
    ensures Once(After(s, step))
  {
    var n := After(s, step);
    ObservesAtMostOne(s, step);
    ServeIsNotOutward(s, step);
    forall i | 0 <= i < |n.log| && n.log[i].HostTool?
      ensures i < |s.log| && Bygone(n, n.log[i].key)
    {
      assert i < |s.log| && n.log[i] == s.log[i];
      assert Bygone(s, s.log[i].key);
    }
  }

  lemma StepKeepsOnce(s: State, step: Step)
    requires Owned(s) && Once(s) && Enabled(s, step)
    ensures Once(After(s, step))
  {
    match step
    case Work(turn, eff, next) =>
      WorkerAdvances(turn, s.workers[turn], ViewOf(s, turn, s.workers[turn]), eff, next);
      WorkKeepsOnce(s, turn, eff, next);
    case _ => ServeKeepsOnce(s, step);
  }

  lemma {:induction false} RunKeepsOnce(s: State, steps: seq<Step>, s': State)
    requires Owned(s) && Once(s) && Runs(s, steps, s')
    ensures Once(s')
    decreases |steps|
  {
    if steps != [] {
      assert Takes(s, steps, s');
      StepKeepsOwned(s, steps[0]);
      StepKeepsOnce(s, steps[0]);
      RunKeepsOnce(After(s, steps[0]), steps[1..], s');
    }
  }

  /** Two host requests are never for the same execution of a call, whatever crashes lie between them. */
  lemma EachCallIsSentOnce(s: State, i: nat, j: nat)
    requires Reachable(s)
    requires i < j < |s.log| && s.log[i].HostTool? && s.log[j].HostTool?
    ensures s.log[i].key != s.log[j].key
  {
    assert Owned(INITIAL) && Once(INITIAL);
    var steps :| Runs(INITIAL, steps, s);
    RunKeepsOnce(INITIAL, steps, s);
  }

  /** One approval id stands behind at most one host request. */
  lemma EachApprovalServesOneCall(s: State, id: nat, i: nat, j: nat)
    requires Reachable(s)
    requires i < |s.log| && s.log[i].HostTool? && ApprovalRequested(id, s.log[i].key) in s.log
    requires j < |s.log| && s.log[j].HostTool? && ApprovalRequested(id, s.log[j].key) in s.log
    ensures i == j
  {
    ReachableIsSafe(s);
    if i < j {
      EachCallIsSentOnce(s, i, j);
    } else if j < i {
      EachCallIsSentOnce(s, j, i);
    }
  }
}
