/** The disk of the agent server: for every session the snapshot that was committed last. */
module TurnDisk {
  import opened Basics
  import opened TurnEngine
  import opened TurnFrames
  import Snapshots

  /** The session as it was in its latest committed snapshot. */
  function LastCommitted(log: seq<Obs>, sid: SessionId): Option<Session> {
    if log == [] then None
    else
      var o := log[|log| - 1];
      if o.Committed? && o.sid == sid then Some(o.session) else LastCommitted(log[..|log| - 1], sid)
  }

  function OnDisk(disk: map<SessionId, Session>, sid: SessionId): Option<Session> {
    if sid in disk then Some(disk[sid]) else None
  }

  ghost predicate Backed(s: State) {
    forall sid :: LastCommitted(s.log, sid) == OnDisk(s.disk, sid)
  }

  lemma LastCommittedGrows(log: seq<Obs>, more: seq<Obs>, sid: SessionId)
    requires |more| <= 1
    ensures LastCommitted(log + more, sid)
            == if more != [] && more[0].Committed? && more[0].sid == sid then Some(more[0].session)
               else LastCommitted(log, sid)
  {
    if more == [] {
      assert log + more == log;
    } else {
      assert (log + more)[..|log + more| - 1] == log;
    }
  }

  /** A step writes exactly the snapshot it reports. */
  lemma CommitsAreReported(s: State, step: Step, sid: SessionId)
    requires Enabled(s, step)
    ensures OnDisk(DiskAfter(s, step), sid)
            == var more := Observed(s, step);
               if more != [] && more[0].Committed? && more[0].sid == sid then Some(more[0].session)
               else OnDisk(s.disk, sid)
  {
    if step.Work? {
      WorkersSayNothingElse(step.turn, s.workers[step.turn], ViewOf(s, step.turn, s.workers[step.turn]), step.eff,
                            step.next);
    }
  }

  lemma StepKeepsBacked(s: State, step: Step)
    requires Backed(s) && Enabled(s, step)
    ensures Backed(After(s, step))
  {
    ObservesAtMostOne(s, step);
    forall sid ensures LastCommitted(After(s, step).log, sid) == OnDisk(After(s, step).disk, sid) {
      LastCommittedGrows(s.log, Observed(s, step), sid);
      CommitsAreReported(s, step, sid);
    }
  }

  lemma {:induction false} RunKeepsBacked(s: State, steps: seq<Step>, s': State)
    requires Backed(s) && Runs(s, steps, s')
    ensures Backed(s')
    decreases |steps|
  {
    if steps != [] {
      assert Takes(s, steps, s');
      StepKeepsBacked(s, steps[0]);
      RunKeepsBacked(After(s, steps[0]), steps[1..], s');
    }
  }

  /** In every reachable state the disk holds, session by session, what was committed last. */
  lemma DiskIsLastCommitted(s: State, sid: SessionId)
    requires Reachable(s)
    ensures LastCommitted(s.log, sid) == OnDisk(s.disk, sid)
  {
    assert Backed(INITIAL);
    var steps :| Runs(INITIAL, steps, s);
    RunKeepsBacked(INITIAL, steps, s);
  }

  // ---------- The directory behind it ----------

  /** All snapshots of the session that were committed, in order. */
  function CommittedSessions(log: seq<Obs>, sid: SessionId): seq<Session> {
    if log == [] then []
    else
      var o := log[|log| - 1];
      CommittedSessions(log[..|log| - 1], sid) + if o.Committed? && o.sid == sid then [o.session] else []
  }

  lemma {:induction false} LastOfCommits(log: seq<Obs>, sid: SessionId)
    ensures var commits := CommittedSessions(log, sid);
            LastCommitted(log, sid) == if commits == [] then None else Some(commits[|commits| - 1])
  {
    if log != [] {
      LastOfCommits(log[..|log| - 1], sid);
    }
  }

  /** The session's directory went through this history: the attempts that renamed a snapshot into place are
      the commits of the log, whatever else failed, was cut off by a crash or could not be removed. */
  ghost predicate Describes(history: seq<Snapshots.Attempt<Session>>, log: seq<Obs>, sid: SessionId) {
    && Snapshots.IsHistory(history)
    && Snapshots.SessionsOf(Snapshots.Renamed(history)) == CommittedSessions(log, sid)
  }

  /** What the directory was renamed to last is what was committed last. */
  lemma LastRenamedIsCommitted(history: seq<Snapshots.Attempt<Session>>, log: seq<Obs>, sid: SessionId)
    requires Describes(history, log, sid)
    ensures var renamed := Snapshots.Renamed(history);
            LastCommitted(log, sid) == if renamed == [] then None else Some(renamed[|renamed| - 1].session)
  {
    LastOfCommits(log, sid);
    var renamed := Snapshots.Renamed(history);
    if renamed != [] {
      assert Snapshots.SessionsOf(renamed)[|renamed| - 1] == renamed[|renamed| - 1].session;
    }
  }

  lemma DirectoryHoldsTheDisk(s: State, sid: SessionId, history: seq<Snapshots.Attempt<Session>>)
    requires Reachable(s) && Describes(history, s.log, sid)
    ensures sid in s.disk ==> exists n :: Snapshots.Recovers(Snapshots.Left(history), n, s.disk[sid])
    ensures sid !in s.disk ==> forall n :: !Snapshots.Readable(Snapshots.Left(history), n)
  {
    DiskIsLastCommitted(s, sid);
    LastRenamedIsCommitted(history, s.log, sid);
    Snapshots.LastRenamedIsRecovered(history);
  }

  /** With snapshot names that increase, reopening a session's directory after a crash in any reachable state
      finds exactly what the engine's disk holds: the session committed last, or nothing if there is none. */
  lemma ReopeningFindsTheDisk(s: State, sid: SessionId, history: seq<Snapshots.Attempt<Session>>)
    requires Reachable(s) && Describes(history, s.log, sid)
    ensures sid in s.disk ==>
              && (exists n :: Snapshots.Recovers(Snapshots.Left(history), n, s.disk[sid]))
              && sid in After(s, Crash).sessions && After(s, Crash).sessions[sid] == Recover(s.disk[sid])
    ensures sid !in s.disk ==>
              (forall n :: !Snapshots.Readable(Snapshots.Left(history), n)) && sid !in After(s, Crash).sessions
  {
    DirectoryHoldsTheDisk(s, sid, history);
  }

  /** Every log has such histories. */
  lemma SomeHistoryDescribes(log: seq<Obs>, sid: SessionId)
    ensures exists history :: Describes(history, log, sid)
  {
    var history := Snapshots.SomeHistory(CommittedSessions(log, sid));
    assert Describes(history, log, sid);
  }
}
