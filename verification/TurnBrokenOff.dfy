/** A turn that breaks off inside a round of calls, and the model call after it that leaves them unanswered. */
module TurnBrokenOff {
  import opened Basics
  import opened Transcript
  import opened Compaction
  import opened EventLog
  import opened TurnEngine
  import opened TurnFrames

  const CALL := ToolCall("1", "nd_workspace_list", "{}", None)
  const REPLY := Reply("", [CALL], false)

  /** The transcript ends with a call that has no result. */
  predicate EndsInCall(messages: seq<Message>) {
    |messages| > 1 && messages[|messages| - 1] == Message(Assistant, "", [CALL], None)
  }

  lemma ReplyArrives(s: State, t: nat, sid: SessionId) returns (n: State)
    requires At(s, t, sid, Calling)
    ensures Leads(s, n) && At(n, t, sid, Returned(REPLY)) && n.sessions[sid] == s.sessions[sid]
    ensures n.serve == s.serve && n.nextTurn == s.nextTurn
  {
    LeadsNowhere(s);
    n := Moves(s, s, t, sid, Silent, Requesting);
    n := Moves(s, n, t, sid, Say(ModelCall(t)), Streaming);
    n := Moves(s, n, t, sid, Say(ModelReplied(t, sid, REPLY)), Returned(REPLY));
  }

  /** The reply is taken up, but its snapshot fails. */
  lemma ReplyIsPushed(s: State, t: nat, sid: SessionId) returns (n: State)
    requires At(s, t, sid, Returned(REPLY)) && s.sessions[sid].messages != []
    ensures Leads(s, n) && At(n, t, sid, SaveReply(REPLY)) && EndsInCall(n.sessions[sid].messages)
    ensures n.serve == s.serve && n.nextTurn == s.nextTurn
  {
    var pushed := s.sessions[sid].messages + [Message(Assistant, "", [CALL], None)];
    LeadsNowhere(s);
    n := Moves(s, s, t, sid, Silent, RecordUsage(REPLY));
    n := Moves(s, n, t, sid, Silent, PushReply(REPLY));
    n := Moves(s, n, t, sid, Write(pushed), SaveReply(REPLY));
  }

  lemma SaveFails(s: State, t: nat, sid: SessionId) returns (n: State)
    requires At(s, t, sid, SaveReply(REPLY))
    ensures Leads(s, n) && At(n, t, sid, Failing) && n.sessions[sid].messages == s.sessions[sid].messages
    ensures n.serve == s.serve && n.nextTurn == s.nextTurn
  {
    LeadsNowhere(s);
    n := Moves(s, s, t, sid, Silent, Failing);
  }

  lemma FailureIsRecorded(s: State, t: nat, sid: SessionId) returns (n: State)
    requires At(s, t, sid, Failing)
    ensures Leads(s, n) && At(n, t, sid, SaveFailure) && n.sessions[sid].messages == s.sessions[sid].messages
    ensures n.serve == s.serve && n.nextTurn == s.nextTurn
  {
    LeadsNowhere(s);
    n := Moves(s, s, t, sid, Record(s.sessions[sid].messages, AgentError, Sent), SaveFailure);
  }

  lemma FailureIsReported(s: State, t: nat, sid: SessionId) returns (n: State)
    requires At(s, t, sid, SaveFailure)
    ensures Leads(s, n) && At(n, t, sid, ReportFailure) && n.sessions[sid].messages == s.sessions[sid].messages
    ensures n.serve == s.serve && n.nextTurn == s.nextTurn
  {
    LeadsNowhere(s);
    n := Moves(s, s, t, sid, Silent, ReportFailure);
  }

  lemma TurnFinishes(s: State, t: nat, sid: SessionId) returns (n: State)
    requires At(s, t, sid, ReportFailure)
    ensures Leads(s, n) && At(n, t, sid, Finishing(false)) && n.sessions[sid].messages == s.sessions[sid].messages
    ensures n.serve == s.serve && n.nextTurn == s.nextTurn
  {
    LeadsNowhere(s);
    n := Moves(s, s, t, sid, Silent, Finishing(false));
  }

  lemma TurnStops(s: State, t: nat, sid: SessionId) returns (n: State)
    requires At(s, t, sid, Finishing(false))
    ensures Leads(s, n) && At(n, t, sid, Unregister) && n.sessions[sid].messages == s.sessions[sid].messages
    ensures !n.sessions[sid].running && n.serve == s.serve && n.nextTurn == s.nextTurn
  {
    LeadsNowhere(s);
    n := Moves(s, s, t, sid, Stop(false), Unregister);
  }

  /** From the failed snapshot to the end of the turn; the transcript stays as it is. */
  lemma TurnFails(s: State, t: nat, sid: SessionId) returns (n: State)
    requires Reachable(s) && At(s, t, sid, SaveReply(REPLY))
    ensures Reachable(n) && n.serve == s.serve && sid in n.sessions && !n.sessions[sid].running
    ensures n.sessions[sid].messages == s.sessions[sid].messages
  {
    var s1 := SaveFails(s, t, sid);
    ReachesBy(s, s1);
    var s2 := FailureIsRecorded(s1, t, sid);
    ReachesBy(s1, s2);
    var s3 := FailureIsReported(s2, t, sid);
    ReachesBy(s2, s3);
    var s4 := TurnFinishes(s3, t, sid);
    ReachesBy(s3, s4);
    n := TurnStops(s4, t, sid);
    ReachesBy(s4, n);
  }

  /** A new turn comes to the point before its first model call. */
  lemma TurnStarts(s: State, sid: SessionId) returns (n: State)
    requires Reachable(s) && s.serve == Idle && sid in s.sessions && !s.sessions[sid].running
    ensures Reachable(n) && n.serve == Idle && At(n, s.nextTurn, sid, Calling)
    ensures n.sessions[sid].messages == Opening(s.sessions[sid].messages, "hi")
  {
    assert FlagsAreDrawn(INITIAL);
    var steps :| Runs(INITIAL, steps, s);
    RunDrawsFlags(INITIAL, steps, s);
    var s1 := StartReachesRegister(s, sid);
    ReachesBy(s, s1);
    Reaches(s1, Register);
    var s2 := StartSpawns(s1);
    ReachesBy(After(s1, Register), s2);
    n := TurnGetsToCalling(s2, s.nextTurn, sid);
    ReachesBy(s2, n);
  }

  lemma TurnBreaksOff(s: State, t: nat, sid: SessionId) returns (n: State)
    requires Reachable(s) && s.serve == Idle && At(s, t, sid, Calling) && s.sessions[sid].messages != []
    ensures Reachable(n) && n.serve == Idle && sid in n.sessions && !n.sessions[sid].running
    ensures EndsInCall(n.sessions[sid].messages)
  {
    var s1 := ReplyArrives(s, t, sid);
    ReachesBy(s, s1);
    var s2 := ReplyIsPushed(s1, t, sid);
    ReachesBy(s1, s2);
    n := TurnFails(s2, t, sid);
  }

  lemma FirstSession() returns (s: State)
    ensures Reachable(s) && s.serve == Idle && 0 in s.sessions && s.sessions[0] == FRESH_SESSION
  {
    LeadsNowhere(INITIAL);
    Reaches(INITIAL, Create(0, true));
    s := After(INITIAL, Create(0, true));
  }

  lemma OpeningLeavesTheCall(messages: seq<Message>)
    requires EndsInCall(messages)
    ensures !AnswersAll(Opening(messages, "hi"))
  {
    var next := Opening(messages, "hi");
    var i := |messages| - 1;
    assert next[i].toolCalls == [CALL] && next[i + 1].role == User;
    assert !Answered(next, i);
  }

  /** A reachable model call that sends a call without its result: the turn before it broke off when the snapshot
      of its reply failed. */
  lemma AModelCallCanLeaveACallUnanswered()
    ensures exists s: State, t: nat ::
              && Reachable(s) && t in s.workers && s.workers[t].pc.Requesting? && s.workers[t].sid in s.sessions
              && !AnswersAll(s.sessions[s.workers[t].sid].messages)
  {
    var s := FirstSession();
    var s1 := TurnStarts(s, 0);
    var s2 := TurnBreaksOff(s1, s.nextTurn, 0);
    var s3 := TurnStarts(s2, 0);
    OpeningLeavesTheCall(s2.sessions[0].messages);
    LeadsNowhere(s3);
    var n := Moves(s3, s3, s2.nextTurn, 0, Silent, Requesting);
    ReachesBy(s3, n);
    assert n.workers[s2.nextTurn].pc.Requesting?;
  }
}
