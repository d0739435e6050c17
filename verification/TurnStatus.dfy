/** What status frames tell a client: once a session's turns have all been reported as ended, a cancel of the next one
    works. */
module TurnStatus {
  import opened Basics
  import opened TurnEngine
  import opened TurnOwnership
  import opened TurnFrames
  import opened TurnCancel

  /** How often, since the process last started, a status frame of the session said so. */
  function Reported(log: seq<Obs>, sid: SessionId, running: bool): nat {
    if log == [] then 0
    else
      var o := log[|log| - 1];
      if o.Crashed? then 0
      else Reported(log[..|log| - 1], sid, running) + if o == StatusFrame(sid, running) then 1 else 0
  }

  function ReportedIn(more: seq<Obs>, sid: SessionId, running: bool): nat {
    if |more| == 1 && more[0] == StatusFrame(sid, running) then 1 else 0
  }

  lemma ReportedGrows(log: seq<Obs>, more: seq<Obs>, sid: SessionId, running: bool)
    requires |more| <= 1
    ensures Reported(log + more, sid, running)
            == if more == [Crashed] then 0 else Reported(log, sid, running) + ReportedIn(more, sid, running)
  {
    if more == [] {
      assert log + more == log;
    } else {
      assert (log + more)[..|log + more| - 1] == log;
    }
  }

  /** The workers of a session, finished ones that have not left included. */
  function WorkersOf(workers: map<nat, Worker>, sid: SessionId): set<nat> {
    set t | t in workers && workers[t].sid == sid
  }

  /** A start that has been announced but has no worker yet. */
  function Announced(s: State, sid: SessionId): nat {
    if s.serve.Starting? && s.serve.sid == sid && s.serve.stage.StartSpawn? then 1 else 0
  }

  /** Every worker was announced, and left before its end was reported. */
  ghost predicate Accounted(s: State, sid: SessionId) {
    Reported(s.log, sid, false) + |WorkersOf(s.workers, sid)| + Announced(s, sid) <= Reported(s.log, sid, true)
  }

  lemma OneLess(a: set<nat>, t: nat)
    requires t in a
    ensures |a - {t}| == |a| - 1
  {
  }

  lemma OneWorkerMore(workers: map<nat, Worker>, t: nat, w: Worker, sid: SessionId)
    requires t !in workers
    ensures |WorkersOf(workers[t := w], sid)| == |WorkersOf(workers, sid)| + if w.sid == sid then 1 else 0
  {
    if w.sid == sid {
      assert WorkersOf(workers[t := w], sid) == WorkersOf(workers, sid) + {t};
    } else {
      assert WorkersOf(workers[t := w], sid) == WorkersOf(workers, sid);
    }
  }

  lemma OneWorkerLess(workers: map<nat, Worker>, t: nat, sid: SessionId)
    requires t in workers
    ensures |WorkersOf(workers - {t}, sid)| == |WorkersOf(workers, sid)| - if workers[t].sid == sid then 1 else 0
  {
    if workers[t].sid == sid {
      assert WorkersOf(workers - {t}, sid) == WorkersOf(workers, sid) - {t};
      OneLess(WorkersOf(workers, sid), t);
    } else {
      assert WorkersOf(workers - {t}, sid) == WorkersOf(workers, sid);
    }
  }

  /** What a step adds to the reports covers what it does to the workers. */
  ghost predicate Balanced(s: State, n: State, more: seq<Obs>, sid: SessionId) {
    && |more| <= 1 && more != [Crashed]
    && |WorkersOf(n.workers, sid)| + Announced(n, sid) + ReportedIn(more, sid, false)
       <= |WorkersOf(s.workers, sid)| + Announced(s, sid) + ReportedIn(more, sid, true)
  }

  lemma BalancedIsAccounted(s: State, n: State, more: seq<Obs>, sid: SessionId)
    requires Accounted(s, sid) && n.log == s.log + more && Balanced(s, n, more, sid)
    ensures Accounted(n, sid)
  {
    ReportedGrows(s.log, more, sid, false);
    ReportedGrows(s.log, more, sid, true);
  }

  /** A worker's step keeps the workers of every session, or takes this one away. */
  lemma WorkersAfterWork(s: State, turn: nat, eff: Effect, next: Worker, sid: SessionId)
    requires turn in s.workers && s.workers[turn].sid in s.sessions && next.sid == s.workers[turn].sid
    ensures |WorkersOf(After(s, Work(turn, eff, next)).workers, sid)|
            == |WorkersOf(s.workers, sid)| - if eff.Exit? && next.sid == sid then 1 else 0
  {
    if eff.Exit? {
      OneWorkerLess(s.workers, turn, sid);
    } else {
      assert WorkersOf(s.workers[turn := next], sid) == WorkersOf(s.workers, sid);
    }
  }

  lemma WorkReports(s: State, turn: nat, eff: Effect, next: Worker, sid: SessionId)
    requires turn in s.workers && s.workers[turn].sid in s.sessions && (eff.Say? ==> Sayable(eff.obs))
    ensures ReportedIn(Observed(s, Work(turn, eff, next)), sid, true) == 0
    ensures ReportedIn(Observed(s, Work(turn, eff, next)), sid, false)
            <= if eff.Exit? && s.workers[turn].sid == sid then 1 else 0
    ensures Observed(s, Work(turn, eff, next)) != [Crashed]
  {
  }

  lemma WorkIsBalanced(s: State, turn: nat, eff: Effect, next: Worker, sid: SessionId)
    requires Enabled(s, Work(turn, eff, next))
    ensures Balanced(s, After(s, Work(turn, eff, next)), Observed(s, Work(turn, eff, next)), sid)
  {
    var w := s.workers[turn];
    LocalHasShape(turn, w, ViewOf(s, turn, w), eff, next);
    WorkersSayNothingElse(turn, w, ViewOf(s, turn, w), eff, next);
    ObservesAtMostOne(s, Work(turn, eff, next));
    WorkersAfterWork(s, turn, eff, next, sid);
    WorkReports(s, turn, eff, next, sid);
  }

  lemma SpawnIsBalanced(s: State, sid: SessionId)
    requires AtStage(s, StartSpawn) && s.serve.turn !in s.workers
    ensures Balanced(s, After(s, Spawn), Observed(s, Spawn), sid)
  {
    OneWorkerMore(s.workers, s.serve.turn, NewWorker(s.serve), sid);
  }

  lemma ServeIsBalanced(s: State, step: Step, sid: SessionId)
    requires Enabled(s, step) && !step.Work? && !step.Crash? && !step.Spawn?
    ensures Balanced(s, After(s, step), Observed(s, step), sid)
  {
    ObservesAtMostOne(s, step);
    assert WorkersOf(After(s, step).workers, sid) == WorkersOf(s.workers, sid);
  }

  lemma CrashIsAccounted(s: State, sid: SessionId)
    ensures Accounted(After(s, Crash), sid)
  {
    ReportedGrows(s.log, [Crashed], sid, false);
    assert WorkersOf(After(s, Crash).workers, sid) == {};
  }

  lemma StepKeepsAccounted(s: State, step: Step, sid: SessionId)
    requires Owned(s) && Accounted(s, sid) && Enabled(s, step)
    ensures Accounted(After(s, step), sid)
  {
    if step.Crash? {
      CrashIsAccounted(s, sid);
    } else {
      match step {
        case Work(turn, eff, next) => WorkIsBalanced(s, turn, eff, next, sid);
        case Spawn => SpawnIsBalanced(s, sid);
        case _ => ServeIsBalanced(s, step, sid);
      }
      BalancedIsAccounted(s, After(s, step), Observed(s, step), sid);
    }
  }

  lemma {:induction false} RunKeepsAccounted(s: State, steps: seq<Step>, s': State, sid: SessionId)
    requires Owned(s) && Accounted(s, sid) && Runs(s, steps, s')
    ensures Accounted(s', sid)
    decreases |steps|
  {
    if steps != [] {
      assert Takes(s, steps, s');
      StepKeepsOwned(s, steps[0]);
      StepKeepsAccounted(s, steps[0], sid);
      RunKeepsAccounted(After(s, steps[0]), steps[1..], s', sid);
    }
  }

  /** As many ends as beginnings have been reported since the process started: a client that sees this
      has seen the last turn of the session end. */
  predicate SeenEnded(log: seq<Obs>, sid: SessionId) {
    Reported(log, sid, false) == Reported(log, sid, true)
  }

  lemma SeenEndedMeansGone(s: State, sid: SessionId)
    requires Reachable(s) && SeenEnded(s.log, sid)
    ensures WorkersOf(s.workers, sid) == {} && Announced(s, sid) == 0
  {
    var steps :| Runs(INITIAL, steps, s);
    assert WorkersOf(INITIAL.workers, sid) == {};
    assert Owned(INITIAL);
    RunKeepsAccounted(INITIAL, steps, s, sid);
    if t :| t in WorkersOf(s.workers, sid) {
      OneLess(WorkersOf(s.workers, sid), t);
    }
  }

  /** No worker of the session is there while the start of this turn is under way. */
  ghost predicate Alone(s: State, turn: nat, sid: SessionId) {
    && turn < s.nextTurn
    && (s.serve.Starting? && s.serve.turn == turn ==> s.serve.sid == sid && WorkersOf(s.workers, sid) == {})
  }

  lemma StepKeepsAlone(s: State, step: Step, turn: nat, sid: SessionId)
    requires Alone(s, turn, sid) && Enabled(s, step)
    ensures Alone(After(s, step), turn, sid)
  {
    var n := After(s, step);
    if n.serve.Starting? && n.serve.turn == turn {
      assert s.serve.Starting? && s.serve.turn == turn;
      if step.Work? {
        var w := s.workers[step.turn];
        LocalHasShape(step.turn, w, ViewOf(s, step.turn, w), step.eff, step.next);
      }
      assert forall t :: t in WorkersOf(n.workers, sid) ==> t in WorkersOf(s.workers, sid);
    }
  }

  lemma {:induction false} RunKeepsAlone(s: State, steps: seq<Step>, s': State, turn: nat, sid: SessionId)
    requires Alone(s, turn, sid) && Runs(s, steps, s')
    ensures Alone(s', turn, sid)
    decreases |steps|
  {
    if steps != [] {
      assert Takes(s, steps, s');
      StepKeepsAlone(s, steps[0], turn, sid);
      RunKeepsAlone(After(s, steps[0]), steps[1..], s', turn, sid);
    }
  }

  /** The rule for clients: a turn that is started when all earlier turns of its session have been reported
      as ended can be cancelled as long as it is live, however its start interleaves with everything else. */
  lemma StartAfterTheLastEndCanBeCancelled(s: State, sid: SessionId, begin: Step, n: State)
    requires Reachable(s) && SeenEnded(s.log, sid)
    requires begin.Begin? && begin.sid == sid && Enabled(s, begin)
    requires Leads(After(s, begin), n) && AtStage(n, StartRegister) && n.serve.turn == s.nextTurn
    ensures n.serve.sid == sid && !Stale(n, sid)
    ensures AlwaysHits(After(n, Register), n.serve.turn, sid)
  {
    SeenEndedMeansGone(s, sid);
    Reaches(s, begin);
    ReachesBy(After(s, begin), n);
    assert WorkersOf(After(s, begin).workers, sid) == {};
    var steps :| Runs(After(s, begin), steps, n);
    RunKeepsAlone(After(s, begin), steps, n, s.nextTurn, sid);
    forall u | u in n.workers && n.workers[u].sid == sid
      ensures u in WorkersOf(n.workers, sid)
    {
    }
    CancelReachesTheLiveTurnIff(n);
  }
}
