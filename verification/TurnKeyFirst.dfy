/** The engine with one repair: a worker removes its cancellation key before it clears `running`, not after.
    Everything else is as in `TurnEngine`; here a cancel reaches every live turn in every reachable state. */
module TurnKeyFirst {
  import opened Basics
  import opened TurnEngine
  import opened TurnOwnership
  import opened TurnFrames
  import opened TurnCancel

  /** The last steps of a turn swapped: at `Finishing` the key goes, at `Unregister` the session is cleared and
      saved. */
  predicate LocalRepaired(turn: nat, w: Worker, v: View, eff: Effect, w': Worker) {
    if w.pc.Finishing? then eff == DropKey && w' == w.(pc := Unregister)
    else if w.pc.Unregister? then eff.Stop? && w' == w.(pc := LastEmit)
    else Local(turn, w, v, eff, w')
  }

  ghost predicate EnabledRepaired(s: State, step: Step) {
    && Defined(s, step)
    && if step.Work? then
         var w := s.workers[step.turn];
         && LocalRepaired(step.turn, w, ViewOf(s, step.turn, w), step.eff, step.next)
         && (step.eff.OpenApproval? || step.eff.OpenHost? ==> step.eff.id !in s.issued)
       else Allowed(s, step)
  }

  ghost predicate RunsRepaired(s: State, steps: seq<Step>, s': State)
    decreases |steps|, 1
  {
    if steps == [] then s == s' else TakesRepaired(s, steps, s')
  }

  ghost predicate TakesRepaired(s: State, steps: seq<Step>, s': State)
    requires steps != []
    decreases |steps|, 0
  {
    EnabledRepaired(s, steps[0]) && RunsRepaired(After(s, steps[0]), steps[1..], s')
  }

  ghost predicate ReachableRepaired(s: State) {
    exists steps :: RunsRepaired(INITIAL, steps, s)
  }

  // ---------- Ownership, as in the engine as written ----------

  /** A worker whose key is gone still runs its session: in the engine as written it would still be finishing. */
  function Unswapped(w: Worker): Worker {
    if w.pc.Unregister? then w.(pc := Finishing(false)) else w
  }

  function AsWritten(s: State): State {
    s.(workers := map t | t in s.workers :: Unswapped(s.workers[t]))
  }

  lemma ServeStepsAgree(s: State, step: Step)
    requires EnabledRepaired(s, step) && !step.Work?
    ensures Enabled(AsWritten(s), step)
    ensures After(AsWritten(s), step) == AsWritten(After(s, step))
  {
    var a, n := After(AsWritten(s), step), AsWritten(After(s, step));
    assert a.workers == n.workers;
  }

  lemma RepairedWorkerKeepsOwner(turn: nat, w: Worker, v: View, eff: Effect, w': Worker)
    requires LocalRepaired(turn, w, v, eff, w')
    ensures KeepsOwner(Unswapped(w), eff, Unswapped(w'))
  {
    if !w.pc.Finishing? && !w.pc.Unregister? {
      LocalHasShape(turn, w, v, eff, w');
    }
  }

  lemma WorkStepsAgree(s: State, turn: nat, eff: Effect, next: Worker)
    requires turn in s.workers && s.workers[turn].sid in s.sessions
    ensures After(AsWritten(s), Work(turn, eff, Unswapped(next))) == AsWritten(After(s, Work(turn, eff, next)))
  {
    var a := After(AsWritten(s), Work(turn, eff, Unswapped(next)));
    assert a.workers == AsWritten(After(s, Work(turn, eff, next))).workers;
  }

  lemma WorkKeepsOwners(s: State, turn: nat, eff: Effect, next: Worker)
    requires Owned(AsWritten(s)) && EnabledRepaired(s, Work(turn, eff, next))
    ensures Owned(AsWritten(After(s, Work(turn, eff, next))))
  {
    var w := s.workers[turn];
    RepairedWorkerKeepsOwner(turn, w, ViewOf(s, turn, w), eff, next);
    WorkStepsAgree(s, turn, eff, next);
    WorkKeepsOwned(AsWritten(s), turn, eff, Unswapped(next));
  }

  lemma StepKeepsOwners(s: State, step: Step)
    requires Owned(AsWritten(s)) && EnabledRepaired(s, step)
    ensures Owned(AsWritten(After(s, step)))
  {
    if step.Work? {
      WorkKeepsOwners(s, step.turn, step.eff, step.next);
    } else {
      ServeStepsAgree(s, step);
      StepKeepsOwned(AsWritten(s), step);
    }
  }

  // ---------- The keys ----------

  /** The turn is live: its flag is registered, and its worker, if spawned, has not come to its end. */
  ghost predicate Live(s: State, turn: nat, sid: SessionId) {
    || ActiveOn(s, turn, sid)
    || (s.serve.Starting? && s.serve.turn == turn && s.serve.sid == sid
        && (s.serve.stage.StartEmit? || s.serve.stage.StartSpawn?))
  }

  ghost predicate Keyed(s: State) {
    forall turn, sid :: Live(s, turn, sid) ==> sid in s.cancellation && s.cancellation[sid] == turn
  }

  lemma OneLiveTurn(s: State, t: nat, u: nat, sid: SessionId)
    requires Owned(AsWritten(s)) && ActiveOn(s, t, sid)
    ensures !StartingOn(s, sid)
    ensures ActiveOn(s, u, sid) ==> t == u
  {
    assert ActiveOn(AsWritten(s), t, sid);
    assert ActiveOn(s, u, sid) ==> ActiveOn(AsWritten(s), u, sid);
    assert StartingOn(s, sid) ==> StartingOn(AsWritten(s), sid);
  }

  lemma WorkKeepsKeyed(s: State, t: nat, eff: Effect, next: Worker, turn: nat, sid: SessionId)
    requires Owned(AsWritten(s)) && Keyed(s) && EnabledRepaired(s, Work(t, eff, next))
    requires Live(After(s, Work(t, eff, next)), turn, sid)
    ensures var n := After(s, Work(t, eff, next)); sid in n.cancellation && n.cancellation[sid] == turn
  {
    var w := s.workers[t];
    if w.pc.Finishing? {
      assert ActiveOn(s, t, w.sid);
      assert Live(s, turn, sid);
      OneLiveTurn(s, t, turn, w.sid);
    } else if !w.pc.Unregister? {
      LocalHasShape(t, w, ViewOf(s, t, w), eff, next);
      assert Live(s, turn, sid);
    } else {
      assert Live(s, turn, sid);
    }
  }

  lemma ServeKeepsKeyed(s: State, step: Step, turn: nat, sid: SessionId)
    requires Owned(AsWritten(s)) && Keyed(s) && EnabledRepaired(s, step) && !step.Work?
    requires Live(After(s, step), turn, sid)
    ensures sid in After(s, step).cancellation && After(s, step).cancellation[sid] == turn
  {
    if step.Register? {
      if ActiveOn(s, turn, s.serve.sid) {
        OneLiveTurn(s, turn, turn, s.serve.sid);
      }
      assert turn != s.serve.turn || sid != s.serve.sid ==> Live(s, turn, sid);
    } else {
      assert Live(s, turn, sid);
    }
  }

  lemma {:induction false} RunKeepsKeyed(s: State, steps: seq<Step>, s': State)
    requires Owned(AsWritten(s)) && Keyed(s) && RunsRepaired(s, steps, s')
    ensures Keyed(s')
    decreases |steps|
  {
    if steps != [] {
      assert TakesRepaired(s, steps, s');
      var n := After(s, steps[0]);
      StepKeepsOwners(s, steps[0]);
      forall turn, sid | Live(n, turn, sid)
        ensures sid in n.cancellation && n.cancellation[sid] == turn
      {
        if steps[0].Work? {
          WorkKeepsKeyed(s, steps[0].turn, steps[0].eff, steps[0].next, turn, sid);
        } else {
          ServeKeepsKeyed(s, steps[0], turn, sid);
        }
      }
      RunKeepsKeyed(n, steps[1..], s');
    }
  }

  /** With the key removed first, in every reachable state a cancel of the session reaches its live turn,
      whatever a client has waited for: what `TurnCancel.CancelCanMissTheLiveTurn` refutes of the code as written. */
  lemma RepairedCancelReachesTheLiveTurn(s: State, turn: nat, sid: SessionId)
    requires ReachableRepaired(s) && Live(s, turn, sid)
    ensures Hits(s, sid, turn)
  {
    assert AsWritten(INITIAL).workers == map[];
    assert Owned(AsWritten(INITIAL)) && Keyed(INITIAL);
    var steps :| RunsRepaired(INITIAL, steps, s);
    RunKeepsKeyed(INITIAL, steps, s);
  }
}
