/** What the proofs about runs rest on: how the observation log grows, who causes what in it, and how runs are put
    together. */
module TurnFrames {
  import opened Basics
  import opened Transcript
  import opened Compaction
  import opened EventLog
  import opened TurnEngine

  /** Actions towards the outside world that only a worker takes. */
  predicate Outward(o: Obs) {
    o.ModelCall? || o.ApprovalRequested? || o.HostTool?
  }

  lemma ObservesAtMostOne(s: State, step: Step)
    requires Defined(s, step)
    ensures |Observed(s, step)| <= 1
  {
    match step case CompactAtStart(_) => case Work(_, _, _) => case _ =>
  }

  lemma ServeIsNotOutward(s: State, step: Step)
    requires Defined(s, step) && !step.Work?
    ensures forall o <- Observed(s, step) :: !Outward(o)
  {
    match step case CompactAtStart(_) => case _ =>
  }

  lemma OnlySayIsOutward(sid: SessionId, session: Session, eff: Effect)
    ensures forall o <- Emits(sid, session, eff) :: Outward(o) ==> eff == Say(o)
  {
  }

  /** While it asks the user, a worker stays at its call, and says nothing but that. */
  predicate AsksUser(turn: nat, w: Worker, eff: Effect, w': Worker) {
    && w' == w.(pc := w'.pc)
    && (PhaseOf(w'.pc) == AskingUser || w'.pc.Sending? || w'.pc.PushDenial?)
    && (eff.Silent? || eff.OpenApproval? || eff.CloseApproval? || eff.Say?)
    && (eff.Say? ==>
          || eff.obs.ApprovalResolved? || eff.obs.ApprovalLost?
          || (eff.obs.ApprovalRequested? && eff.obs.key == Key(turn, w)))
  }

  lemma AskUserStays(turn: nat, w: Worker, v: View, eff: Effect, w': Worker)
    requires PhaseOf(w.pc) == AskingUser && AskUser(turn, w, v, eff, w')
    ensures AsksUser(turn, w, eff, w')
  {
  }

  /** All that a worker says of its own accord. */
  predicate Sayable(o: Obs) {
    || o.ModelCall? || o.ModelReplied? || o.ApprovalRequested? || o.ApprovalLost? || o.ApprovalResolved?
    || o.HostTool? || o.ErrorFrame?
  }

  lemma WorkersSayNothingElse(turn: nat, w: Worker, v: View, eff: Effect, w': Worker)
    requires Local(turn, w, v, eff, w')
    ensures eff.Say? ==> Sayable(eff.obs)
  {
    if eff.Say? {
      match PhaseOf(w.pc) case AskingModel => case AskingUser => case _ =>
    }
  }

  // ---------- Building runs ----------

  lemma {:induction false} RunsCompose(s: State, a: seq<Step>, s1: State, b: seq<Step>, s2: State)
    requires Runs(s, a, s1) && Runs(s1, b, s2)
    ensures Runs(s, a + b, s2)
    decreases |a|
  {
    if a == [] {
      assert a + b == b;
    } else {
      assert Takes(s, a, s1);
      RunsCompose(After(s, a[0]), a[1..], s1, b, s2);
      assert (a + b)[1..] == a[1..] + b;
      assert Takes(s, a + b, s2);
    }
  }

  lemma RunsOneStep(s: State, step: Step)
    requires Enabled(s, step)
    ensures Runs(s, [step], After(s, step))
  {
    assert [step][1..] == [];
    assert Runs(After(s, step), [], After(s, step));
    assert Takes(s, [step], After(s, step));
  }

  /** Some run leads from one state to the other. */
  ghost predicate Leads(s: State, n: State) {
    exists steps :: Runs(s, steps, n)
  }

  lemma LeadsNowhere(s: State)
    ensures Leads(s, s)
  {
    assert Runs(s, [], s);
  }

  lemma LeadsOn(a: State, s: State, n: State)
    requires Leads(a, s) && Leads(s, n)
    ensures Leads(a, n)
  {
    var first :| Runs(a, first, s);
    var second :| Runs(s, second, n);
    RunsCompose(a, first, s, second, n);
  }

  lemma LeadsOneStep(a: State, s: State, step: Step)
    requires Leads(a, s) && Enabled(s, step)
    ensures Leads(a, After(s, step))
  {
    RunsOneStep(s, step);
    LeadsOn(a, s, After(s, step));
  }

  lemma ReachesBy(s: State, n: State)
    requires Reachable(s) && Leads(s, n)
    ensures Reachable(n)
  {
    assert Leads(INITIAL, s);
    LeadsOn(INITIAL, s, n);
  }

  lemma Reaches(s: State, step: Step)
    requires Reachable(s) && Enabled(s, step)
    ensures Reachable(After(s, step))
  {
    assert Leads(INITIAL, s);
    LeadsOneStep(INITIAL, s, step);
  }

  // ---------- A start that meets no failure ----------

  /** It records the prompt and gets to registering its flag. */
  lemma StartReachesRegister(s: State, sid: SessionId) returns (n: State)
    requires s.serve == Idle && sid in s.sessions && !s.sessions[sid].running
    ensures Leads(s, n) && AtStage(n, StartRegister)
    ensures n.serve.sid == sid && n.serve.turn == s.nextTurn && n.serve.mode == FullAccess && !n.serve.compact
    ensures n.workers == s.workers && n.flags == s.flags && sid in n.sessions && n.sessions[sid].running
    ensures n.sessions[sid].log.sequence == s.sessions[sid].log.sequence + 1
    ensures n.sessions[sid].messages == Opening(s.sessions[sid].messages, "hi")
    ensures |s.log| < |n.log| && s.log == n.log[..|s.log|]
    ensures n.log[|s.log|] == EventFrame(sid, NextEvent(s.sessions[sid].log, UserMessage("hi")))
  {
    var begin := Begin(sid, "hi", FullAccess, false, true);
    var s1 := After(s, begin);
    LeadsNowhere(s);
    LeadsOneStep(s, s, begin);
    assert Compacted(false, StartMessages(s1)).None?;
    LeadsOneStep(s, s1, CompactAtStart(true));
    var s2 := After(s1, CompactAtStart(true));
    LeadsOneStep(s, s2, SaveAtStart(Saved));
    n := After(s2, SaveAtStart(Saved));
  }

  /** A registered start spawns its worker. */
  lemma StartSpawns(s: State) returns (n: State)
    requires AtStage(s, StartRegister)
    ensures Leads(After(s, Register), n)
    ensures n.serve == Idle && n.sessions == s.sessions && n.flags == s.flags
    ensures n.workers == s.workers[s.serve.turn := NewWorker(s.serve)]
    ensures n.cancellation == s.cancellation[s.serve.sid := s.serve.turn]
    ensures n.log == s.log + [StatusFrame(s.serve.sid, true)]
  {
    var s1 := After(s, Register);
    var s2 := After(s1, AnnounceStart(true));
    n := After(s2, Spawn);
    LeadsNowhere(s1);
    LeadsOneStep(s1, s1, AnnounceStart(true));
    LeadsOneStep(s1, s2, Spawn);
  }

  // ---------- Steps of a turn ----------

  /** Turn `t` of the session stands here, not cancelled, in its first round and without compaction. */
  ghost predicate At(s: State, t: nat, sid: SessionId, pc: Pc) {
    && t in s.workers && s.workers[t] == Worker(sid, FullAccess, false, 0, [], 0, pc)
    && sid in s.sessions && t !in s.flags
  }

  lemma Moves(a: State, s: State, t: nat, sid: SessionId, eff: Effect, pc: Pc) returns (n: State)
    requires Leads(a, s) && t in s.workers && At(s, t, sid, s.workers[t].pc)
    requires !eff.OpenApproval? && !eff.OpenHost? && !eff.Exit?
    requires Local(t, s.workers[t], ViewOf(s, t, s.workers[t]), eff, s.workers[t].(pc := pc))
    ensures Leads(a, n) && At(n, t, sid, pc)
    ensures n.sessions[sid] == SessionAfter(s.sessions[sid], eff)
    ensures n.log == s.log + Emits(sid, s.sessions[sid], eff)
    ensures n.serve == s.serve && n.flags == s.flags && n.nextTurn == s.nextTurn
  {
    var step := Work(t, eff, s.workers[t].(pc := pc));
    LeadsOneStep(a, s, step);
    n := After(s, step);
  }

  lemma TurnGetsToCalling(s: State, t: nat, sid: SessionId) returns (n: State)
    requires At(s, t, sid, RoundTop)
    ensures Leads(s, n) && At(n, t, sid, Calling) && n.sessions[sid] == s.sessions[sid] && n.log == s.log
    ensures n.serve == s.serve && n.flags == s.flags && n.nextTurn == s.nextTurn
  {
    LeadsNowhere(s);
    n := Moves(s, s, t, sid, Silent, Compacting);
    n := Moves(s, n, t, sid, Silent, Calling);
  }

  /** A flag is set only for a turn whose identity has been drawn. */
  ghost predicate FlagsAreDrawn(s: State) {
    && (forall t <- s.flags :: t < s.nextTurn)
    && (forall sid <- s.cancellation :: s.cancellation[sid] < s.nextTurn)
    && (s.serve.Starting? ==> s.serve.turn < s.nextTurn)
  }

  lemma {:induction false} RunDrawsFlags(s: State, steps: seq<Step>, s': State)
    requires FlagsAreDrawn(s) && Runs(s, steps, s')
    ensures FlagsAreDrawn(s')
    decreases |steps|
  {
    if steps != [] {
      assert Takes(s, steps, s');
      RunDrawsFlags(After(s, steps[0]), steps[1..], s');
    }
  }
}
