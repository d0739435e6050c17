/** Event numbers across crashes: when a restarted process gives a number that is already on the wire to another
    event. */
module TurnReissue {
  import opened Basics
  import opened Transcript
  import opened Compaction
  import opened EventLog
  import opened TurnEngine
  import opened TurnOwnership
  import opened TurnFrames
  import opened TurnWire
  import opened TurnDisk

  predicate IsFrame(o: Obs, sid: SessionId, k: nat) {
    o.EventFrame? && o.sid == sid && o.event.seqNo == k
  }

  /** An event of the session with this number has been sent. */
  ghost predicate OnWire(log: seq<Obs>, sid: SessionId, k: nat) {
    exists i :: 0 <= i < |log| && IsFrame(log[i], sid, k)
  }

  function CommittedNumber(log: seq<Obs>, sid: SessionId): nat {
    match LastCommitted(log, sid) case None => 0 case Some(session) => session.log.sequence
  }

  /** The wire is ahead of the disk: a number was sent that is above all numbers of the last committed snapshot. */
  ghost predicate Ahead(log: seq<Obs>, sid: SessionId) {
    exists k: nat :: OnWire(log, sid, k) && k > CommittedNumber(log, sid)
  }

  // ---------- Numbers rise across every crash that loses none ----------

  /** No crash between the two positions found the wire ahead of the disk. */
  ghost predicate LosesNothing(log: seq<Obs>, i: nat, j: nat, sid: SessionId)
    requires j <= |log|
  {
    forall c :: i < c < j && log[c].Crashed? ==> !Ahead(log[..c], sid)
  }

  ghost predicate RisesTo(log: seq<Obs>, i: nat, j: nat, sid: SessionId)
    requires i < j < |log|
  {
    log[i].EventFrame? && log[i].sid == sid && EventOf(log[j], sid) && LosesNothing(log, i, j, sid)
    ==> log[i].event.seqNo < log[j].event.seqNo
  }

  ghost predicate StaysBelow(s: State, i: nat, sid: SessionId)
    requires i < |s.log|
  {
    s.log[i].EventFrame? && s.log[i].sid == sid && LosesNothing(s.log, i, |s.log|, sid)
    ==> s.log[i].event.seqNo <= Emitted(s, sid)
  }

  ghost predicate Rising(s: State, sid: SessionId) {
    && (forall i, j :: 0 <= i < j < |s.log| ==> RisesTo(s.log, i, j, sid))
    && (forall i :: 0 <= i < |s.log| ==> StaysBelow(s, i, sid))
  }

  lemma LosesNothingGrows(log: seq<Obs>, more: seq<Obs>, i: nat, j: nat, sid: SessionId)
    requires j <= |log|
    ensures LosesNothing(log + more, i, j, sid) <==> LosesNothing(log, i, j, sid)
    ensures LosesNothing(log + more, i, |log + more|, sid) ==> LosesNothing(log, i, |log|, sid)
  {
    assert forall c :: 0 <= c <= |log| ==> (log + more)[..c] == log[..c];
    assert forall c :: 0 <= c < |log| ==> (log + more)[c] == log[c];
  }

  lemma AdvancingRises(s: State, n: State, more: seq<Obs>, sid: SessionId)
    requires Rising(s, sid) && n.log == s.log + more && Advances(s, n, more, sid)
    ensures Rising(n, sid)
  {
    forall i, j | 0 <= i < j < |n.log|
      ensures RisesTo(n.log, i, j, sid)
    {
      LosesNothingGrows(s.log, more, i, Min(j, |s.log|), sid);
      if j < |s.log| {
        assert RisesTo(s.log, i, j, sid);
      } else {
        assert StaysBelow(s, i, sid);
      }
    }
    forall i | 0 <= i < |n.log|
      ensures StaysBelow(n, i, sid)
    {
      if i < |s.log| {
        LosesNothingGrows(s.log, more, i, |s.log|, sid);
        assert StaysBelow(s, i, sid);
      }
    }
  }

  lemma CrashRises(s: State, sid: SessionId)
    requires Rising(s, sid) && Backed(s)
    ensures Rising(After(s, Crash), sid)
  {
    var n := After(s, Crash);
    forall i, j | 0 <= i < j < |n.log|
      ensures RisesTo(n.log, i, j, sid)
    {
      if j < |s.log| {
        LosesNothingGrows(s.log, [Crashed], i, j, sid);
        assert RisesTo(s.log, i, j, sid);
      }
    }
    forall i | 0 <= i < |n.log| && n.log[i].EventFrame? && n.log[i].sid == sid && LosesNothing(n.log, i, |n.log|, sid)
      ensures n.log[i].event.seqNo <= Emitted(n, sid)
    {
      assert n.log[|s.log|].Crashed? && n.log[..|s.log|] == s.log;
      assert !Ahead(s.log, sid);
      assert IsFrame(s.log[i], sid, n.log[i].event.seqNo);
      assert OnWire(s.log, sid, n.log[i].event.seqNo);
      assert LastCommitted(s.log, sid) == OnDisk(s.disk, sid);
    }
  }

  lemma {:induction false} RunRises(s: State, steps: seq<Step>, s': State, sid: SessionId)
    requires Numbered(s) && Backed(s) && Rising(s, sid) && Runs(s, steps, s')
    ensures Rising(s', sid)
    decreases |steps|
  {
    if steps != [] {
      assert Takes(s, steps, s');
      var n := After(s, steps[0]);
      StepKeepsNumbered(s, steps[0]);
      StepKeepsBacked(s, steps[0]);
      if steps[0].Crash? {
        CrashRises(s, sid);
      } else {
        StepAdvances(s, steps[0], sid);
        AdvancingRises(s, n, Observed(s, steps[0]), sid);
      }
      RunRises(n, steps[1..], s', sid);
    }
  }

  /** Across any number of crashes: a later event has a greater number than an event sent before it,
      unless some crash in between found the wire ahead of the disk. */
  lemma NumbersRiseUnlessACrashLosesThem(s: State, sid: SessionId, i: nat, j: nat)
    requires Reachable(s) && i < j < |s.log|
    requires s.log[i].EventFrame? && s.log[i].sid == sid && EventOf(s.log[j], sid)
    requires forall c :: i < c < j && s.log[c].Crashed? ==> !Ahead(s.log[..c], sid)
    ensures s.log[i].event.seqNo < s.log[j].event.seqNo
  {
    assert Numbered(INITIAL) && Backed(INITIAL) && Rising(INITIAL, sid);
    var steps :| Runs(INITIAL, steps, s);
    RunRises(INITIAL, steps, s, sid);
    assert RisesTo(s.log, i, j, sid);
  }

  // ---------- After a crash every number given is above the committed ones ----------

  /** Whatever the session has emitted since position `from` is above `base`, and so is all it will emit. */
  ghost predicate Above(n: State, from: nat, base: nat, sid: SessionId) {
    && from <= |n.log|
    && (forall i :: from <= i < |n.log| && n.log[i].EventFrame? && n.log[i].sid == sid ==> n.log[i].event.seqNo > base)
    && sid in n.sessions && Emitted(n, sid) >= base
    && sid in n.disk && Recover(n.disk[sid]).log.sequence >= base
  }

  lemma DiskComesFromMemory(s: State, step: Step, sid: SessionId)
    requires Enabled(s, step) && !step.Crash? && sid in s.disk && sid in s.sessions
    ensures sid in DiskAfter(s, step) && sid in SessionsAfter(s, step)
    ensures DiskAfter(s, step)[sid] == s.disk[sid] || DiskAfter(s, step)[sid].log == SessionsAfter(s, step)[sid].log
  {
  }

  lemma StepStaysAbove(s: State, step: Step, from: nat, base: nat, sid: SessionId)
    requires Numbered(s) && Enabled(s, step) && Above(s, from, base, sid)
    ensures Above(After(s, step), from, base, sid)
  {
    if !step.Crash? {
      StepAdvances(s, step, sid);
      DiskComesFromMemory(s, step, sid);
    }
  }

  lemma {:induction false} RunStaysAbove(s: State, steps: seq<Step>, s': State, from: nat, base: nat, sid: SessionId)
    requires Numbered(s) && Above(s, from, base, sid) && Runs(s, steps, s')
    ensures Above(s', from, base, sid)
    ensures s.log <= s'.log
    decreases |steps|
  {
    if steps != [] {
      assert Takes(s, steps, s');
      StepKeepsNumbered(s, steps[0]);
      StepStaysAbove(s, steps[0], from, base, sid);
      RunStaysAbove(After(s, steps[0]), steps[1..], s', from, base, sid);
    }
  }

  /** Reopening closes the interrupted session with an error event of this number, which is not sent. */
  predicate ClosesWith(session: Session, k: nat) {
    session.running && k == session.log.sequence + 1
  }

  /** Since the crash at `s` a number that was on the wire then has been given to another event. */
  ghost predicate Repeats(s: State, n: State, sid: SessionId)
    requires |s.log| <= |n.log| && sid in s.disk
  {
    exists k: nat :: OnWire(s.log, sid, k) && (ClosesWith(s.disk[sid], k) || OnWire(n.log[|s.log|..], sid, k))
  }

  ghost predicate CanRepeat(s: State, sid: SessionId)
    requires sid in s.disk
  {
    exists n :: Leads(After(s, Crash), n) && |s.log| <= |n.log| && Repeats(s, n, sid)
  }

  lemma RepeatsOnlyAhead(s: State, n: State, sid: SessionId)
    requires Reachable(s) && sid in s.disk
    requires Leads(After(s, Crash), n) && |s.log| <= |n.log| && Repeats(s, n, sid)
    ensures Ahead(s.log, sid)
  {
    var c := After(s, Crash);
    DiskIsLastCommitted(s, sid);
    Reaches(s, Crash);
    ReachableIsNumbered(c);
    var base := Recover(s.disk[sid]).log.sequence;
    assert Above(c, |s.log|, base, sid);
    var steps :| Runs(c, steps, n);
    RunStaysAbove(c, steps, n, |s.log|, base, sid);
    var k: nat :| OnWire(s.log, sid, k) && (ClosesWith(s.disk[sid], k) || OnWire(n.log[|s.log|..], sid, k));
    if !ClosesWith(s.disk[sid], k) {
      var i :| 0 <= i < |n.log[|s.log|..]| && IsFrame(n.log[|s.log|..][i], sid, k);
      assert n.log[|s.log| + i] == n.log[|s.log|..][i];
    }
  }

  // ---------- The run that reaches a given number ----------

  /** A new turn gets to its first model call. */
  lemma TurnStreams(s: State, t: nat, sid: SessionId) returns (n: State)
    requires At(s, t, sid, RoundTop)
    ensures Leads(s, n) && At(n, t, sid, Streaming) && n.sessions[sid] == s.sessions[sid] && s.log <= n.log
  {
    n := TurnGetsToCalling(s, t, sid);
    n := Moves(s, n, t, sid, Silent, Requesting);
    n := Moves(s, n, t, sid, Say(ModelCall(t)), Streaming);
  }

  lemma ChunkIsRecorded(s: State, t: nat, sid: SessionId) returns (n: State)
    requires At(s, t, sid, Streaming)
    ensures Leads(s, n) && At(n, t, sid, ChunkEmit(NextEvent(s.sessions[sid].log, Chunk("")))) && n.log == s.log
    ensures n.sessions[sid].log.sequence == s.sessions[sid].log.sequence + 1
  {
    var event := NextEvent(s.sessions[sid].log, Chunk(""));
    LeadsNowhere(s);
    n := Moves(s, s, t, sid, Silent, ChunkRecord);
    n := Moves(s, n, t, sid, Record(s.sessions[sid].messages, Chunk(""), Later), ChunkEmit(event));
  }

  /** One more chunk arrives and is sent. */
  lemma ChunkIsSent(s: State, t: nat, sid: SessionId) returns (n: State)
    requires At(s, t, sid, Streaming)
    ensures Leads(s, n) && At(n, t, sid, Streaming)
    ensures n.sessions[sid].log.sequence == s.sessions[sid].log.sequence + 1
    ensures n.log == s.log + [EventFrame(sid, NextEvent(s.sessions[sid].log, Chunk("")))]
  {
    n := ChunkIsRecorded(s, t, sid);
    n := Moves(s, n, t, sid, Flush(NextEvent(s.sessions[sid].log, Chunk("")), true), Streaming);
  }

  lemma {:induction false} ChunksReach(s: State, t: nat, sid: SessionId, k: nat) returns (n: State)
    requires At(s, t, sid, Streaming) && s.sessions[sid].log.sequence < k
    ensures Leads(s, n) && |s.log| <= |n.log| && OnWire(n.log[|s.log|..], sid, k)
    decreases k - s.sessions[sid].log.sequence
  {
    var s1 := ChunkIsSent(s, t, sid);
    if s1.sessions[sid].log.sequence == k {
      n := s1;
      assert IsFrame(n.log[|s.log|..][0], sid, k);
    } else {
      n := ChunksReach(s1, t, sid, k);
      LeadsOn(s, s1, n);
      OnWireFurther(n.log, |s.log|, |s1.log|, sid, k);
    }
  }

  lemma OnWireFurther(log: seq<Obs>, a: nat, b: nat, sid: SessionId, k: nat)
    requires a <= b <= |log| && OnWire(log[b..], sid, k)
    ensures OnWire(log[a..], sid, k)
  {
    var i :| 0 <= i < |log[b..]| && IsFrame(log[b..][i], sid, k);
    assert log[a..][b - a + i] == log[b..][i];
  }

  lemma StartSendsNumber(s: State, sid: SessionId, k: nat) returns (n: State)
    requires FlagsAreDrawn(s) && s.serve == Idle && sid in s.sessions && !s.sessions[sid].running
    requires s.sessions[sid].log.sequence < k
    ensures Leads(s, n) && |s.log| <= |n.log| && OnWire(n.log[|s.log|..], sid, k)
  {
    var s1 := StartReachesRegister(s, sid);
    if s1.sessions[sid].log.sequence == k {
      n := s1;
      assert IsFrame(n.log[|s.log|..][0], sid, k);
    } else {
      LeadsOneStep(s, s1, Register);
      var s2 := StartSpawns(s1);
      LeadsOn(s, After(s1, Register), s2);
      var s3 := TurnStreams(s2, s.nextTurn, sid);
      LeadsOn(s, s2, s3);
      n := ChunksReach(s3, s.nextTurn, sid, k);
      LeadsOn(s, s3, n);
      OnWireFurther(n.log, |s.log|, |s3.log|, sid, k);
    }
  }

  lemma AheadRepeats(s: State, sid: SessionId)
    requires Reachable(s) && sid in s.disk && Ahead(s.log, sid)
    ensures CanRepeat(s, sid)
  {
    var c := After(s, Crash);
    DiskIsLastCommitted(s, sid);
    LeadsNowhere(c);
    var k: nat :| OnWire(s.log, sid, k) && k > CommittedNumber(s.log, sid);
    if ClosesWith(s.disk[sid], k) {
      assert Repeats(s, c, sid);
    } else {
      assert FlagsAreDrawn(INITIAL);
      var steps :| Runs(INITIAL, steps, s);
      RunDrawsFlags(INITIAL, steps, s);
      var n := StartSendsNumber(c, sid, k);
      OnWireFurther(n.log, |s.log|, |c.log|, sid, k);
      assert Repeats(s, n, sid);
    }
  }

  /** A crash in any reachable state: some continuation, further crashes included, gives a number that is
      already on the wire to another event, the error event of the reopening included, exactly when an
      event was sent whose number is above those of the session's last committed snapshot. */
  lemma CrashRepeatsNumbersIff(s: State, sid: SessionId)
    requires Reachable(s) && sid in s.disk
    ensures CanRepeat(s, sid) <==> Ahead(s.log, sid)
  {
    if CanRepeat(s, sid) {
      var n :| Leads(After(s, Crash), n) && |s.log| <= |n.log| && Repeats(s, n, sid);
      RepeatsOnlyAhead(s, n, sid);
    }
    if Ahead(s.log, sid) {
      AheadRepeats(s, sid);
    }
  }

  // ---------- It happens ----------

  ghost predicate Reissued(s: State, i: nat, j: nat) {
    && i < j < |s.log|
    && s.log[i].EventFrame? && s.log[j].EventFrame? && s.log[i].sid == s.log[j].sid
    && s.log[i].event.seqNo == s.log[j].event.seqNo && s.log[i].event.data != s.log[j].event.data
  }

  lemma StartRecords(s: State, prompt: string) returns (n: State)
    requires Reachable(s) && s.serve == Idle && 0 in s.sessions && s.sessions[0] == FRESH_SESSION && IsPrompt(prompt)
    ensures Reachable(n) && n.disk == s.disk && n.log == s.log + [EventFrame(0, Event(1, UserMessage(prompt)))]
  {
    var begin := Begin(0, prompt, ReadOnly, false, true);
    Reaches(s, begin);
    n := After(s, begin);
  }

  /** The smallest run: a prompt is sent, the process dies before its snapshot, and the next prompt gets its number. */
  lemma CrashReissuesNumbers()
    ensures exists s: State, i: nat, j: nat :: Reachable(s) && Reissued(s, i, j)
  {
    LeadsNowhere(INITIAL);
    Reaches(INITIAL, Create(0, true));
    var s := After(INITIAL, Create(0, true));
    var first := StartRecords(s, "a");
    Reaches(first, Crash);
    var second := StartRecords(After(first, Crash), "b");
    assert second.log[|s.log|] == EventFrame(0, Event(1, UserMessage("a")));
    assert second.log[|s.log| + 2] == EventFrame(0, Event(1, UserMessage("b")));
    assert "a"[0] != "b"[0];
    assert Reissued(second, |s.log|, |s.log| + 2);
  }
}
