/** A running session has one owner: its one live worker, the start that is creating it, or nobody after a failed
    start. */
module TurnOwnership {
  import opened Basics
  import opened Transcript
  import opened Compaction
  import opened EventLog
  import opened TurnEngine
  import opened TurnFrames

  /** The worker has not cleared `running` yet. */
  predicate Active(w: Worker) {
    !w.pc.Unregister? && !w.pc.LastEmit?
  }

  ghost predicate ActiveOn(s: State, turn: nat, sid: SessionId) {
    turn in s.workers && s.workers[turn].sid == sid && Active(s.workers[turn])
  }

  ghost predicate StartingOn(s: State, sid: SessionId) {
    s.serve.Starting? && s.serve.sid == sid
  }

  ghost predicate Running(s: State, sid: SessionId) {
    sid in s.sessions && s.sessions[sid].running
  }

  ghost predicate Owned(s: State) {
    && (forall t <- s.workers :: t < s.nextTurn && s.workers[t].sid in s.sessions)
    && (s.serve.Starting? ==> s.serve.turn < s.nextTurn && s.serve.turn !in s.workers)
    && (forall t, sid :: ActiveOn(s, t, sid) ==> Running(s, sid) && !StartingOn(s, sid) && sid !in s.stranded)
    && (forall t, u, sid :: ActiveOn(s, t, sid) && ActiveOn(s, u, sid) ==> t == u)
    && (forall sid :: StartingOn(s, sid) ==> Running(s, sid) && sid !in s.stranded)
    && (forall sid <- s.stranded :: Running(s, sid))
    && (forall sid :: Running(s, sid) ==> (exists t :: ActiveOn(s, t, sid)) || StartingOn(s, sid) || sid in s.stranded)
  }

  // ---------- Workers ----------

  /** What ownership rests on: a live worker stays live until it clears `running`, and a worker leaves last of all. */
  predicate KeepsOwner(w: Worker, eff: Effect, w': Worker) {
    && w'.sid == w.sid && w'.mode == w.mode && w'.compact == w.compact
    && (eff.Stop? <==> Active(w) && !Active(w'))
    && (eff.Exit? <==> w.pc.LastEmit?)
    && (!Active(w) ==> !Active(w'))
  }

  /** And the program says that a worker clears `running` at its end, and only afterwards removes its key. */
  predicate Shape(w: Worker, eff: Effect, w': Worker) {
    && KeepsOwner(w, eff, w')
    && (eff.DropKey? <==> w.pc.Unregister?)
    && (eff.Stop? <==> w.pc.Finishing?) && (eff.Stop? <==> w'.pc.Unregister?)
  }

  lemma AskModelHasShape(turn: nat, w: Worker, v: View, eff: Effect, w': Worker)
    requires PhaseOf(w.pc) == AskingModel && AskModel(turn, w, v, eff, w')
    ensures Shape(w, eff, w')
  {
    if w.pc.Compacting? {
      match Compacted(w.compact, v.session.messages) case None => case Some(_) =>
    }
  }

  lemma TakeReplyHasShape(w: Worker, v: View, eff: Effect, w': Worker)
    requires PhaseOf(w.pc) == TakingReply && TakeReply(w, v, eff, w')
    ensures Shape(w, eff, w')
  {
  }

  lemma EndHasShape(w: Worker, v: View, eff: Effect, w': Worker)
    requires PhaseOf(w.pc) == Ending && End(w, v, eff, w')
    ensures Shape(w, eff, w')
  {
  }

  lemma FilingHasShape(turn: nat, w: Worker, v: View, eff: Effect, w': Worker)
    requires w.pc.Announce? || w.pc.SaveCall? || w.pc.Decide?
    requires w.index < |w.calls| && FileCall(turn, w, v, eff, w')
    ensures Shape(w, eff, w')
  {
  }

  lemma AnsweringHasShape(turn: nat, w: Worker, v: View, eff: Effect, w': Worker)
    requires w.pc.PushResult? || w.pc.SaveResult? || w.pc.PushDenial? || w.pc.SaveDenial?
    requires w.index < |w.calls| && FileCall(turn, w, v, eff, w')
    ensures Shape(w, eff, w')
  {
  }

  lemma FileCallHasShape(turn: nat, w: Worker, v: View, eff: Effect, w': Worker)
    requires PhaseOf(w.pc) == FilingCall && w.index < |w.calls| && FileCall(turn, w, v, eff, w')
    ensures Shape(w, eff, w')
  {
    if w.pc.Announce? || w.pc.SaveCall? || w.pc.Decide? {
      FilingHasShape(turn, w, v, eff, w');
    } else {
      AnsweringHasShape(turn, w, v, eff, w');
    }
  }

  lemma AskUserHasShape(turn: nat, w: Worker, eff: Effect, w': Worker)
    requires PhaseOf(w.pc) == AskingUser && AsksUser(turn, w, eff, w')
    ensures Shape(w, eff, w')
  {
  }

  lemma AskHostHasShape(turn: nat, w: Worker, v: View, eff: Effect, w': Worker)
    requires PhaseOf(w.pc) == AskingHost && w.index < |w.calls| && AskHost(turn, w, v, eff, w')
    ensures Shape(w, eff, w')
  {
  }

  lemma LocalHasShape(turn: nat, w: Worker, v: View, eff: Effect, w': Worker)
    requires Local(turn, w, v, eff, w')
    ensures Shape(w, eff, w')
  {
    match PhaseOf(w.pc)
    case AskingModel => AskModelHasShape(turn, w, v, eff, w');
    case TakingReply => TakeReplyHasShape(w, v, eff, w');
    case Ending => EndHasShape(w, v, eff, w');
    case FilingCall => FileCallHasShape(turn, w, v, eff, w');
    case AskingUser =>
      AskUserStays(turn, w, v, eff, w');
      AskUserHasShape(turn, w, eff, w');
    case AskingHost => AskHostHasShape(turn, w, v, eff, w');
  }

  lemma WorkRunning(s: State, turn: nat, eff: Effect, next: Worker, sid: SessionId)
    requires turn in s.workers && s.workers[turn].sid in s.sessions
    ensures Running(After(s, Work(turn, eff, next)), sid)
            <==> Running(s, sid) && !(sid == s.workers[turn].sid && eff.Stop?)
  {
  }

  lemma WorkKeepsOwned(s: State, turn: nat, eff: Effect, next: Worker)
    requires Owned(s) && turn in s.workers
    requires KeepsOwner(s.workers[turn], eff, next)
    ensures Owned(After(s, Work(turn, eff, next)))
  {
    var n := After(s, Work(turn, eff, next));
    var own := s.workers[turn].sid;
    forall sid {
      WorkRunning(s, turn, eff, next, sid);
    }
    assert forall t, sid :: ActiveOn(n, t, sid) <==> ActiveOn(s, t, sid) && !(t == turn && eff.Stop?);
    assert ActiveOn(s, turn, own) || !eff.Stop?;
    forall sid | Running(n, sid)
      ensures (exists t :: ActiveOn(n, t, sid)) || StartingOn(n, sid) || sid in n.stranded
    {
      if t :| ActiveOn(s, t, sid) {
        assert ActiveOn(n, t, sid);
      }
    }
  }

  // ---------- The serve thread ----------

  lemma SpawnKeepsOwned(s: State)
    requires Owned(s) && s.serve.Starting?
    ensures Owned(After(s, Spawn))
  {
    var n := After(s, Spawn);
    assert StartingOn(s, s.serve.sid);
    assert forall t, sid :: ActiveOn(n, t, sid) <==> ActiveOn(s, t, sid) || (t == s.serve.turn && StartingOn(s, sid));
    forall sid | Running(n, sid)
      ensures (exists t :: ActiveOn(n, t, sid)) || sid in n.stranded
    {
      if StartingOn(s, sid) {
        assert ActiveOn(n, s.serve.turn, sid);
      } else if t :| ActiveOn(s, t, sid) {
        assert ActiveOn(n, t, sid);
      }
    }
  }

  /** What the serve thread does to ownership: at most it claims one idle session or gives up the one it had claimed. */
  lemma ServeKeepsOwned(s: State, n: State, sid: SessionId)
    requires Owned(s)
    requires n.workers == s.workers && s.nextTurn <= n.nextTurn && s.sessions.Keys <= n.sessions.Keys
    requires n.serve.Starting? ==> n.serve.sid == sid && n.serve.turn < n.nextTurn && n.serve.turn !in s.workers
    requires s.serve.Starting? ==> s.serve.sid == sid
    requires s.serve == Idle ==> !Running(s, sid)
    requires n.stranded == s.stranded || (n.serve == Idle && n.stranded == s.stranded + {sid})
    requires (n.serve.Starting? || sid in n.stranded) <==> Running(n, sid)
    requires forall other :: other != sid ==> (Running(n, other) <==> Running(s, other))
    ensures Owned(n)
  {
    assert s.serve.Starting? ==> StartingOn(s, sid);
    assert forall t, other :: ActiveOn(n, t, other) <==> ActiveOn(s, t, other);
    assert forall other :: other != sid ==> !StartingOn(s, other) && !StartingOn(n, other);
    forall other | Running(n, other)
      ensures (exists t :: ActiveOn(n, t, other)) || StartingOn(n, other) || other in n.stranded
    {
      if t :| ActiveOn(s, t, other) {
        assert ActiveOn(n, t, other);
      }
    }
  }

  lemma SameOwners(s: State, n: State)
    requires Owned(s)
    requires n.sessions == s.sessions && n.workers == s.workers && n.nextTurn == s.nextTurn && n.stranded == s.stranded
    requires n.serve == s.serve
             || (n.serve.Starting? && s.serve.Starting? && n.serve == s.serve.(stage := n.serve.stage))
    ensures Owned(n)
  {
    assert forall t, sid :: ActiveOn(n, t, sid) <==> ActiveOn(s, t, sid);
    assert forall sid :: StartingOn(n, sid) <==> StartingOn(s, sid);
    forall sid | Running(n, sid)
      ensures (exists t :: ActiveOn(n, t, sid)) || StartingOn(n, sid) || sid in n.stranded
    {
      assert Running(s, sid);
      if t :| ActiveOn(s, t, sid) {
        assert ActiveOn(n, t, sid);
      }
    }
  }

  lemma StartKeepsOwned(s: State, step: Step)
    requires Owned(s) && Defined(s, step)
    requires step.CompactAtStart? || step.SaveAtStart? || step.AnnounceStart?
    ensures Owned(After(s, step))
  {
    assert StartingOn(s, s.serve.sid);
    if step.CompactAtStart? {
      match Compacted(s.serve.compact, StartMessages(s)) case None => case Some(_) =>
    }
    ServeKeepsOwned(s, After(s, step), s.serve.sid);
  }

  lemma BeginKeepsOwned(s: State, step: Step)
    requires Owned(s) && Defined(s, step) && s.serve == Idle
    requires step.Begin? && !s.sessions[step.sid].running
    ensures Owned(After(s, step))
  {
    ServeKeepsOwned(s, After(s, step), step.sid);
  }

  lemma CreateKeepsOwned(s: State, step: Step)
    requires Owned(s) && s.serve == Idle
    requires step.Create? && step.sid !in s.sessions
    ensures Owned(After(s, step))
  {
    ServeKeepsOwned(s, After(s, step), step.sid);
  }

  lemma StepKeepsOwned(s: State, step: Step)
    requires Owned(s) && Enabled(s, step)
    ensures Owned(After(s, step))
  {
    match step
    case Work(turn, eff, next) =>
      LocalHasShape(turn, s.workers[turn], ViewOf(s, turn, s.workers[turn]), eff, next);
      WorkKeepsOwned(s, turn, eff, next);
    case Create(_, _) => CreateKeepsOwned(s, step);
    case Begin(_, _, _, _, _) => BeginKeepsOwned(s, step);
    case CompactAtStart(_) => StartKeepsOwned(s, step);
    case SaveAtStart(_) => StartKeepsOwned(s, step);
    case AnnounceStart(_) => StartKeepsOwned(s, step);
    case Spawn => SpawnKeepsOwned(s);
    case Crash =>
    case _ => SameOwners(s, After(s, step));
  }

  // ---------- Consequences ----------

  lemma {:induction false} RunKeepsOwned(s: State, steps: seq<Step>, s': State)
    requires Owned(s) && Runs(s, steps, s')
    ensures Owned(s')
    decreases |steps|
  {
    if steps != [] {
      assert Takes(s, steps, s');
      StepKeepsOwned(s, steps[0]);
      RunKeepsOwned(After(s, steps[0]), steps[1..], s');
    }
  }

  lemma ReachableIsOwned(s: State)
    requires Reachable(s)
    ensures Owned(s)
  {
    assert Owned(INITIAL);
    var steps :| Runs(INITIAL, steps, s);
    RunKeepsOwned(INITIAL, steps, s);
  }

  /** In every reachable state a session runs exactly when it has one live worker, is being started,
      or was left behind by a failed start; and it never has two live workers. */
  lemma OneOwnerPerRunningSession(s: State, sid: SessionId)
    requires Reachable(s)
    ensures Running(s, sid) <==> (exists t :: ActiveOn(s, t, sid)) || StartingOn(s, sid) || sid in s.stranded
    ensures forall t, u :: ActiveOn(s, t, sid) && ActiveOn(s, u, sid) ==> t == u
    ensures (exists t :: ActiveOn(s, t, sid)) ==> !StartingOn(s, sid) && sid !in s.stranded
  {
    ReachableIsOwned(s);
  }

  /** While a worker is active, nobody else touches it or its session. */
  lemma Undisturbed(s: State, step: Step, turn: nat)
    requires Owned(s) && Enabled(s, step)
    requires turn in s.workers && !step.Crash? && !(step.Work? && step.turn == turn)
    ensures turn in After(s, step).workers && After(s, step).workers[turn] == s.workers[turn]
    ensures Active(s.workers[turn])
            ==> s.workers[turn].sid in After(s, step).sessions
                && After(s, step).sessions[s.workers[turn].sid] == s.sessions[s.workers[turn].sid]
  {
    var sid := s.workers[turn].sid;
    assert Active(s.workers[turn]) ==> ActiveOn(s, turn, sid);
    if step.Work? {
      LocalHasShape(step.turn, s.workers[step.turn], ViewOf(s, step.turn, s.workers[step.turn]), step.eff, step.next);
      assert ActiveOn(s, step.turn, s.workers[step.turn].sid) || step.eff.DropKey? || step.eff.Exit?;
    } else if step.CompactAtStart? {
      assert StartingOn(s, s.serve.sid);
    } else if step.Begin? || step.Create? {
      assert Active(s.workers[turn]) ==> Running(s, sid);
    }
  }
}
