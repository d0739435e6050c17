/** Session events reach the wire in the order of their numbers, although chunk events are emitted outside the session
    lock. */
module TurnWire {
  import opened Basics
  import opened Transcript
  import opened Compaction
  import opened EventLog
  import opened TurnEngine
  import opened TurnOwnership
  import opened TurnFrames

  /** An event of the session that was put on the wire, or whose frame was lost by a failed write. */
  predicate EventOf(o: Obs, sid: SessionId) {
    (o.EventFrame? || o.EventLost?) && o.sid == sid
  }

  /** The number of the session's latest event since the process last started. */
  function LastSeq(log: seq<Obs>, sid: SessionId): Option<nat> {
    if log == [] then None
    else
      var o := log[|log| - 1];
      if o.Crashed? then None
      else if EventOf(o, sid) then Some(o.event.seqNo)
      else LastSeq(log[..|log| - 1], sid)
  }

  predicate Follows(before: seq<Obs>, o: Obs, sid: SessionId) {
    EventOf(o, sid) && LastSeq(before, sid).Some? ==> o.event.seqNo == LastSeq(before, sid).value + 1
  }

  ghost predicate InOrder(log: seq<Obs>, sid: SessionId) {
    forall i :: 0 <= i < |log| ==> Follows(log[..i], log[i], sid)
  }

  lemma LastSeqGrows(log: seq<Obs>, more: seq<Obs>, sid: SessionId)
    requires |more| <= 1
    ensures LastSeq(log + more, sid)
            == if more == [] then LastSeq(log, sid)
               else if more[0].Crashed? then None
               else if EventOf(more[0], sid) then Some(more[0].event.seqNo)
               else LastSeq(log, sid)
  {
    if more == [] {
      assert log + more == log;
    } else {
      assert (log + more)[..|log + more| - 1] == log;
    }
  }

  lemma InOrderGrows(log: seq<Obs>, more: seq<Obs>, sid: SessionId)
    requires InOrder(log, sid) && |more| <= 1
    requires more != [] ==> Follows(log, more[0], sid)
    ensures InOrder(log + more, sid)
  {
    var next := log + more;
    forall i | 0 <= i < |next|
      ensures Follows(next[..i], next[i], sid)
    {
      assert next[..i] == if i < |log| then log[..i] else log;
    }
  }

  /** A chunk of the session is recorded but not yet on the wire. */
  ghost predicate Pending(s: State, sid: SessionId) {
    exists t :: t in s.workers && s.workers[t].sid == sid && s.workers[t].pc.ChunkEmit?
  }

  /** The number of the session's latest event, not counting a chunk that is still to be emitted. */
  ghost function Emitted(s: State, sid: SessionId): int {
    if sid in s.sessions then s.sessions[sid].log.sequence - (if Pending(s, sid) then 1 else 0) else 0
  }

  /** A chunk that waits to be emitted is the latest event of its session. */
  ghost predicate ChunksAreLatest(s: State) {
    forall t <- s.workers :: s.workers[t].pc.ChunkEmit? && s.workers[t].sid in s.sessions
                             ==> s.workers[t].pc.event.seqNo == s.sessions[s.workers[t].sid].log.sequence
  }

  /** Only chunk events are emitted apart from being recorded, and a worker emits the one it recorded. */
  predicate ChunkShape(w: Worker, v: View, eff: Effect, w': Worker) {
    && (w'.pc.ChunkEmit? <==> eff.Record? && eff.outcome == Later)
    && (w'.pc.ChunkEmit? ==> w'.pc.event == NextEvent(v.session.log, eff.data))
    && (w.pc.ChunkEmit? <==> eff.Flush?)
    && (eff.Flush? ==> eff.event == w.pc.event)
    && (eff.Record? ==> Active(w))
  }

  lemma AskModelHasChunkShape(turn: nat, w: Worker, v: View, eff: Effect, w': Worker)
    requires PhaseOf(w.pc) == AskingModel && AskModel(turn, w, v, eff, w')
    ensures ChunkShape(w, v, eff, w')
  {
    if w.pc.Compacting? {
      match Compacted(w.compact, v.session.messages) case None => case Some(_) =>
    }
  }

  lemma TakeReplyHasChunkShape(w: Worker, v: View, eff: Effect, w': Worker)
    requires PhaseOf(w.pc) == TakingReply && TakeReply(w, v, eff, w')
    ensures ChunkShape(w, v, eff, w')
  {
  }

  lemma EndHasChunkShape(w: Worker, v: View, eff: Effect, w': Worker)
    requires PhaseOf(w.pc) == Ending && End(w, v, eff, w')
    ensures ChunkShape(w, v, eff, w')
  {
  }

  lemma FileCallHasChunkShape(turn: nat, w: Worker, v: View, eff: Effect, w': Worker)
    requires PhaseOf(w.pc) == FilingCall && w.index < |w.calls| && FileCall(turn, w, v, eff, w')
    ensures ChunkShape(w, v, eff, w')
  {
  }

  lemma AskUserHasChunkShape(turn: nat, w: Worker, v: View, eff: Effect, w': Worker)
    requires PhaseOf(w.pc) == AskingUser && AsksUser(turn, w, eff, w')
    ensures ChunkShape(w, v, eff, w')
  {
  }

  lemma AskHostHasChunkShape(turn: nat, w: Worker, v: View, eff: Effect, w': Worker)
    requires PhaseOf(w.pc) == AskingHost && w.index < |w.calls| && AskHost(turn, w, v, eff, w')
    ensures ChunkShape(w, v, eff, w')
  {
  }

  lemma LocalHasChunkShape(turn: nat, w: Worker, v: View, eff: Effect, w': Worker)
    requires Local(turn, w, v, eff, w')
    ensures ChunkShape(w, v, eff, w')
  {
    match PhaseOf(w.pc)
    case AskingModel => AskModelHasChunkShape(turn, w, v, eff, w');
    case TakingReply => TakeReplyHasChunkShape(w, v, eff, w');
    case Ending => EndHasChunkShape(w, v, eff, w');
    case FilingCall => FileCallHasChunkShape(turn, w, v, eff, w');
    case AskingUser =>
      AskUserStays(turn, w, v, eff, w');
      AskUserHasChunkShape(turn, w, v, eff, w');
    case AskingHost => AskHostHasChunkShape(turn, w, v, eff, w');
  }

  /** A live worker is the only one that can owe a chunk of its session. */
  lemma OwnChunkIsTheOnlyOne(s: State, turn: nat, eff: Effect, next: Worker)
    requires Owned(s) && turn in s.workers && Active(s.workers[turn]) && !eff.Exit?
    requires next.sid == s.workers[turn].sid
    ensures Pending(s, next.sid) <==> s.workers[turn].pc.ChunkEmit?
    ensures Pending(After(s, Work(turn, eff, next)), next.sid) <==> next.pc.ChunkEmit?
  {
    var n := After(s, Work(turn, eff, next));
    assert ActiveOn(s, turn, next.sid);
    assert forall t :: t != turn && t in s.workers && s.workers[t].sid == next.sid ==> !ActiveOn(s, t, next.sid);
    assert turn in n.workers && n.workers[turn] == next;
    assert forall t :: t != turn && t in n.workers ==> t in s.workers && n.workers[t] == s.workers[t];
  }

  lemma OthersOweTheSame(s: State, turn: nat, eff: Effect, next: Worker)
    requires turn in s.workers && s.workers[turn].sid in s.sessions
    requires !s.workers[turn].pc.ChunkEmit? && !next.pc.ChunkEmit?
    ensures forall sid :: Pending(After(s, Work(turn, eff, next)), sid) <==> Pending(s, sid)
  {
    var n := After(s, Work(turn, eff, next));
    assert forall t :: t in n.workers && n.workers[t].pc.ChunkEmit? ==> t in s.workers && s.workers[t] == n.workers[t];
    assert forall t :: t in s.workers && s.workers[t].pc.ChunkEmit? ==> t in n.workers && s.workers[t] == n.workers[t];
  }

  lemma WorkLeavesPending(s: State, turn: nat, eff: Effect, next: Worker, sid: SessionId)
    requires turn in s.workers && s.workers[turn].sid in s.sessions && sid != s.workers[turn].sid
             && next.sid == s.workers[turn].sid
    ensures Pending(After(s, Work(turn, eff, next)), sid) <==> Pending(s, sid)
  {
    var n := After(s, Work(turn, eff, next));
    assert forall t :: t in n.workers && n.workers[t].sid == sid ==> t in s.workers && s.workers[t] == n.workers[t];
    assert forall t :: t in s.workers && s.workers[t].sid == sid ==> t in n.workers && s.workers[t] == n.workers[t];
  }

  lemma ServeLeavesPending(s: State, step: Step, sid: SessionId)
    requires Owned(s) && Defined(s, step) && !step.Work? && !step.Crash?
    ensures Pending(After(s, step), sid) <==> Pending(s, sid)
  {
    var n := After(s, step);
    assert forall t :: t in n.workers && n.workers[t].pc.ChunkEmit? ==> t in s.workers && s.workers[t] == n.workers[t];
    assert forall t :: t in s.workers ==> t in n.workers && s.workers[t] == n.workers[t];
  }

  // ---------- Every step emits nothing or the next event ----------

  predicate EmitsOne(more: seq<Obs>, sid: SessionId) {
    |more| == 1 && EventOf(more[0], sid)
  }

  /** What a step emits of the session is exactly its next event. */
  ghost predicate Advances(s: State, n: State, more: seq<Obs>, sid: SessionId) {
    && |more| <= 1 && (more != [] ==> !more[0].Crashed?)
    && Emitted(n, sid) == Emitted(s, sid) + (if EmitsOne(more, sid) then 1 else 0)
    && (EmitsOne(more, sid) ==> more[0].event.seqNo == Emitted(n, sid))
  }

  lemma RecordingAdvances(s: State, turn: nat, eff: Effect, next: Worker)
    requires Owned(s) && turn in s.workers && next.sid == s.workers[turn].sid
    requires eff.Record? && Active(s.workers[turn])
    requires ChunkShape(s.workers[turn], ViewOf(s, turn, s.workers[turn]), eff, next)
    ensures Advances(s, After(s, Work(turn, eff, next)), Observed(s, Work(turn, eff, next)), next.sid)
  {
    OwnChunkIsTheOnlyOne(s, turn, eff, next);
  }

  lemma FlushingAdvances(s: State, turn: nat, eff: Effect, next: Worker)
    requires Owned(s) && ChunksAreLatest(s) && turn in s.workers && next.sid == s.workers[turn].sid
    requires eff.Flush?
    requires ChunkShape(s.workers[turn], ViewOf(s, turn, s.workers[turn]), eff, next)
    ensures Advances(s, After(s, Work(turn, eff, next)), Observed(s, Work(turn, eff, next)), next.sid)
  {
    OwnChunkIsTheOnlyOne(s, turn, eff, next);
  }

  lemma QuietWorkAdvances(s: State, turn: nat, eff: Effect, next: Worker)
    requires turn in s.workers && s.workers[turn].sid in s.sessions
    requires !eff.Record? && !eff.Flush? && (eff.Say? ==> Sayable(eff.obs))
    requires ChunkShape(s.workers[turn], ViewOf(s, turn, s.workers[turn]), eff, next)
    ensures Advances(s, After(s, Work(turn, eff, next)), Observed(s, Work(turn, eff, next)), s.workers[turn].sid)
  {
    ObservesAtMostOne(s, Work(turn, eff, next));
    OthersOweTheSame(s, turn, eff, next);
  }

  lemma OtherSessionAdvances(s: State, turn: nat, eff: Effect, next: Worker, sid: SessionId)
    requires turn in s.workers && s.workers[turn].sid in s.sessions
    requires sid != s.workers[turn].sid && next.sid == s.workers[turn].sid && (eff.Say? ==> Sayable(eff.obs))
    ensures Advances(s, After(s, Work(turn, eff, next)), Observed(s, Work(turn, eff, next)), sid)
  {
    ObservesAtMostOne(s, Work(turn, eff, next));
    WorkLeavesPending(s, turn, eff, next, sid);
  }

  lemma WorkAdvances(s: State, turn: nat, eff: Effect, next: Worker, sid: SessionId)
    requires Owned(s) && ChunksAreLatest(s) && Enabled(s, Work(turn, eff, next))
    ensures Advances(s, After(s, Work(turn, eff, next)), Observed(s, Work(turn, eff, next)), sid)
  {
    var w := s.workers[turn];
    LocalHasShape(turn, w, ViewOf(s, turn, w), eff, next);
    LocalHasChunkShape(turn, w, ViewOf(s, turn, w), eff, next);
    WorkersSayNothingElse(turn, w, ViewOf(s, turn, w), eff, next);
    if sid != w.sid {
      OtherSessionAdvances(s, turn, eff, next, sid);
    } else if eff.Record? {
      RecordingAdvances(s, turn, eff, next);
    } else if eff.Flush? {
      FlushingAdvances(s, turn, eff, next);
    } else {
      QuietWorkAdvances(s, turn, eff, next);
    }
  }

  /** A session that a start records in has no worker that could owe a chunk. */
  lemma StartsOweNothing(s: State, sid: SessionId)
    requires Owned(s)
    requires StartingOn(s, sid) || !Running(s, sid)
    ensures !Pending(s, sid)
  {
    if t :| t in s.workers && s.workers[t].sid == sid && s.workers[t].pc.ChunkEmit? {
      assert ActiveOn(s, t, sid);
      assert false;
    }
  }

  lemma ServeAdvances(s: State, step: Step, sid: SessionId)
    requires Owned(s) && Enabled(s, step) && !step.Work? && !step.Crash?
    ensures Advances(s, After(s, step), Observed(s, step), sid)
  {
    ObservesAtMostOne(s, step);
    ServeLeavesPending(s, step, sid);
    if step.Begin? {
      StartsOweNothing(s, step.sid);
    } else if step.CompactAtStart? {
      StartsOweNothing(s, s.serve.sid);
      match Compacted(s.serve.compact, StartMessages(s)) case None => case Some(_) =>
    } else if step.Create? {
      assert sid == step.sid ==> !Pending(s, sid);
    }
  }

  lemma StepAdvances(s: State, step: Step, sid: SessionId)
    requires Owned(s) && ChunksAreLatest(s) && Enabled(s, step) && !step.Crash?
    ensures Advances(s, After(s, step), Observed(s, step), sid)
  {
    match step
    case Work(turn, eff, next) => WorkAdvances(s, turn, eff, next, sid);
    case _ => ServeAdvances(s, step, sid);
  }

  lemma StepKeepsChunksLatest(s: State, step: Step)
    requires Owned(s) && ChunksAreLatest(s) && Enabled(s, step)
    ensures ChunksAreLatest(After(s, step))
  {
    var n := After(s, step);
    forall t <- n.workers | n.workers[t].pc.ChunkEmit? && n.workers[t].sid in n.sessions
      ensures n.workers[t].pc.event.seqNo == n.sessions[n.workers[t].sid].log.sequence
    {
      if step.Work? && step.turn == t {
        var w := s.workers[t];
        LocalHasShape(t, w, ViewOf(s, t, w), step.eff, step.next);
        LocalHasChunkShape(t, w, ViewOf(s, t, w), step.eff, step.next);
      } else {
        Undisturbed(s, step, t);
      }
    }
  }

  // ---------- The order on the wire ----------

  ghost predicate UpToDate(s: State, sid: SessionId) {
    InOrder(s.log, sid) && (LastSeq(s.log, sid).Some? ==> LastSeq(s.log, sid).value == Emitted(s, sid))
  }

  ghost predicate Numbered(s: State) {
    Owned(s) && ChunksAreLatest(s) && forall sid :: UpToDate(s, sid)
  }

  lemma StepKeepsNumbered(s: State, step: Step)
    requires Numbered(s) && Enabled(s, step)
    ensures Numbered(After(s, step))
  {
    StepKeepsOwned(s, step);
    StepKeepsChunksLatest(s, step);
    forall sid
      ensures UpToDate(After(s, step), sid)
    {
      assert UpToDate(s, sid);
      if !step.Crash? {
        StepAdvances(s, step, sid);
      }
      LastSeqGrows(s.log, Observed(s, step), sid);
      InOrderGrows(s.log, Observed(s, step), sid);
    }
  }

  lemma {:induction false} RunKeepsNumbered(s: State, steps: seq<Step>, s': State)
    requires Numbered(s) && Runs(s, steps, s')
    ensures Numbered(s')
    decreases |steps|
  {
    if steps != [] {
      assert Takes(s, steps, s');
      StepKeepsNumbered(s, steps[0]);
      RunKeepsNumbered(After(s, steps[0]), steps[1..], s');
    }
  }

  lemma ReachableIsNumbered(s: State)
    requires Reachable(s)
    ensures Numbered(s)
  {
    assert Numbered(INITIAL);
    var steps :| Runs(INITIAL, steps, s);
    RunKeepsNumbered(INITIAL, steps, s);
  }

  lemma {:induction false} LastSeqIsTheLast(log: seq<Obs>, sid: SessionId, i: nat)
    requires i < |log| && EventOf(log[i], sid)
    requires forall k :: i < k < |log| ==> !EventOf(log[k], sid) && !log[k].Crashed?
    ensures LastSeq(log, sid) == Some(log[i].event.seqNo)
  {
    if i < |log| - 1 {
      LastSeqIsTheLast(log[..|log| - 1], sid, i);
    }
  }

  /** Between crashes, two successive events of a session carry successive numbers: nothing is reordered,
      repeated or skipped, except that a failed write loses its own frame. */
  lemma EventsReachTheWireInOrder(s: State, sid: SessionId, i: nat, j: nat)
    requires Reachable(s)
    requires i < j < |s.log| && EventOf(s.log[i], sid) && EventOf(s.log[j], sid)
    requires forall k :: i < k < j ==> !EventOf(s.log[k], sid) && !s.log[k].Crashed?
    ensures s.log[j].event.seqNo == s.log[i].event.seqNo + 1
  {
    ReachableIsNumbered(s);
    assert UpToDate(s, sid);
    assert Follows(s.log[..j], s.log[j], sid);
    LastSeqIsTheLast(s.log[..j], sid, i);
  }
}
