/** The forest of sessions shown to the user: subagents under their parents, everything else at the root. */
module SessionTree {
  import opened Basics
  import opened SessionChain

  class Node {
    const session: Session
    var children: seq<Node>

    constructor (session: Session)
      ensures this.session == session && children == []
    {
      this.session := session;
      children := [];
    }
  }

  /** The first session with each id. */
  function IndexOf(sessions: seq<Session>): (index: Index)
    ensures forall id :: id in index ==> index[id].id == id
  {
    if sessions == [] then map[]
    else
      var before := IndexOf(sessions[..|sessions| - 1]);
      var s := sessions[|sessions| - 1];
      if s.id in before then before else before[s.id := s]
  }

  /** The walk from `parentId` comes back neither to `childId` nor to itself. */
  ghost predicate IsAcyclicFrom(index: Index, childId: string, parentId: string) {
    Terminates(index, parentId) && forall n: nat :: Climb(index, parentId, n) != Some(childId)
  }

  /** Whether a session goes under a parent, and which. */
  ghost predicate IsAttached(index: Index, s: Session) {
    && ParentOf(s).Some?
    && ParentOf(s).value in index
    && ParentOf(s).value != s.id
    && IsAcyclicFrom(index, s.id, ParentOf(s).value)
  }

  ghost function RootIds(index: Index, sessions: seq<Session>): seq<string> {
    if sessions == [] then []
    else
      var s := sessions[|sessions| - 1];
      RootIds(index, sessions[..|sessions| - 1]) + if IsAttached(index, s) then [] else [s.id]
  }

  ghost function ChildIds(index: Index, sessions: seq<Session>, parentId: string): seq<string> {
    if sessions == [] then []
    else
      var s := sessions[|sessions| - 1];
      ChildIds(index, sessions[..|sessions| - 1], parentId)
      + if IsAttached(index, s) && ParentOf(s).value == parentId then [s.id] else []
  }

  ghost predicate AreNodesOf(list: seq<Node>, nodes: map<string, Node>, ids: seq<string>) {
    && |list| == |ids|
    && forall k :: 0 <= k < |ids| ==> ids[k] in nodes && list[k] == nodes[ids[k]]
  }

  /** One node per id, for the first session that has it. */
  ghost predicate AreNodesFor(nodes: map<string, Node>, index: Index) {
    && nodes.Keys == index.Keys
    && (forall id :: id in nodes ==> nodes[id].session == index[id] && index[id].id == id)
  }

  // ---------- The walk up ----------

  ghost predicate IsStep(index: Index, parentId: string, k: nat, x: string) {
    Climb(index, parentId, k) == Some(x)
  }

  /** `seen` is the child and the first `n` ids of the walk, and the walk has not met the child. */
  ghost predicate SeenSoFar(index: Index, childId: string, parentId: string, seen: set<string>, n: nat) {
    && childId in seen
    && (forall k: nat :: k < n ==>
          Climb(index, parentId, k).Some? && Climb(index, parentId, k).value in seen - {childId})
    && forall x :: x in seen ==> x == childId || exists k: nat :: k < n && IsStep(index, parentId, k, x)
  }

  lemma SeesOneMore(index: Index, childId: string, parentId: string, seen: set<string>, n: nat, here: string)
    requires SeenSoFar(index, childId, parentId, seen, n)
    requires IsStep(index, parentId, n, here) && here !in seen
    ensures SeenSoFar(index, childId, parentId, seen + {here}, n + 1)
  {
  }

  lemma {:induction false} VisitedNeverReturned(index: Index, childId: string, parentId: string, seen: set<string>,
                                                n: nat)
    requires SeenSoFar(index, childId, parentId, seen, n)
    requires Climb(index, parentId, n).Some? && Climb(index, parentId, n).value in seen
    ensures !IsAcyclicFrom(index, childId, parentId)
  {
    var x := Climb(index, parentId, n).value;
    if x != childId {
      var k: nat :| k < n && IsStep(index, parentId, k, x);
      forall m: nat ensures Climb(index, parentId, m).Some? {
        ReturningNeverEnds(index, parentId, k, n, m);
      }
    }
  }

  lemma EndedWithoutReturning(index: Index, childId: string, parentId: string, seen: set<string>, n: nat)
    requires SeenSoFar(index, childId, parentId, seen, n)
    requires Climb(index, parentId, n) == None
    ensures IsAcyclicFrom(index, childId, parentId)
  {
    forall m: nat ensures Climb(index, parentId, m) != Some(childId) {
      if m >= n {
        ClimbOnceEnded(index, parentId, n, m);
      }
    }
  }

  method HasParentCycle(childId: string, parentId: string, nodes: map<string, Node>, ghost index: Index)
    returns (cyclic: bool)
    requires AreNodesFor(nodes, index) && parentId != ""
    ensures cyclic <==> !IsAcyclicFrom(index, childId, parentId)
  {
    var seen := {childId};
    var cursor := Some(parentId);
    ghost var n: nat := 0;
    while cursor.Some?
      invariant cursor == Climb(index, parentId, n)
      invariant SeenSoFar(index, childId, parentId, seen, n)
      decreases index.Keys - seen, cursor.Some?
    {
      var here := cursor.value;
      if here in seen {
        VisitedNeverReturned(index, childId, parentId, seen, n);
        return true;
      }
      SeesOneMore(index, childId, parentId, seen, n, here);
      seen := seen + {here};
      cursor := if here in nodes then ParentOf(nodes[here].session) else None;
      n := n + 1;
    }
    EndedWithoutReturning(index, childId, parentId, seen, n);
    cyclic := false;
  }

  // ---------- Building the forest ----------

  lemma OneMoreSession(sessions: seq<Session>, i: nat)
    requires i < |sessions|
    ensures sessions[..i + 1][..i] == sessions[..i] && sessions[..i + 1][i] == sessions[i]
  {
  }

  lemma {:induction false} EverySessionIsIndexed(sessions: seq<Session>, i: nat)
    requires i < |sessions|
    ensures sessions[i].id in IndexOf(sessions)
  {
    if i < |sessions| - 1 {
      EverySessionIsIndexed(sessions[..|sessions| - 1], i);
    }
  }

  /** Of sessions with the same id the first one counts. */
  lemma {:induction false} FirstSessionCounts(sessions: seq<Session>, i: nat)
    requires i < |sessions| && forall j :: 0 <= j < i ==> sessions[j].id != sessions[i].id
    ensures sessions[i].id in IndexOf(sessions) && IndexOf(sessions)[sessions[i].id] == sessions[i]
  {
    if i < |sessions| - 1 {
      FirstSessionCounts(sessions[..|sessions| - 1], i);
    } else {
      OnlyGivenIdsAreIndexed(sessions[..i], sessions[i].id);
    }
  }

  lemma {:induction false} OnlyGivenIdsAreIndexed(sessions: seq<Session>, id: string)
    requires forall k :: 0 <= k < |sessions| ==> sessions[k].id != id
    ensures id !in IndexOf(sessions)
  {
    if sessions != [] {
      OnlyGivenIdsAreIndexed(sessions[..|sessions| - 1], id);
    }
  }

  method MakeNodes(sessions: seq<Session>) returns (nodes: map<string, Node>)
    ensures AreNodesFor(nodes, IndexOf(sessions))
    ensures forall id :: id in nodes ==> fresh(nodes[id]) && nodes[id].children == []
  {
    nodes := map[];
    for i := 0 to |sessions|
      invariant AreNodesFor(nodes, IndexOf(sessions[..i]))
      invariant forall id :: id in nodes ==> fresh(nodes[id]) && nodes[id].children == []
    {
      OneMoreSession(sessions, i);
      var s := sessions[i];
      if s.id !in nodes {
        var node := new Node(s);
        nodes := nodes[s.id := node];
      }
    }
    assert sessions[..|sessions|] == sessions;
  }

  ghost predicate IsPlaced(nodes: map<string, Node>, index: Index, sessions: seq<Session>, roots: seq<Node>)
    reads nodes.Values
  {
    && AreNodesOf(roots, nodes, RootIds(index, sessions))
    && forall id :: id in nodes ==> AreNodesOf(nodes[id].children, nodes, ChildIds(index, sessions, id))
  }

  /** The roots are the nodes of the sessions without a parent to go under, the children of a node those
      of the sessions attached to it, all in the order given. */
  method BuildSessionTree(sessions: seq<Session>) returns (roots: seq<Node>, ghost nodes: map<string, Node>)
    ensures AreNodesFor(nodes, IndexOf(sessions))
    ensures forall id :: id in nodes ==> fresh(nodes[id])
    ensures IsPlaced(nodes, IndexOf(sessions), sessions, roots)
  {
    ghost var index := IndexOf(sessions);
    var byId := MakeNodes(sessions);
    roots := [];
    for i := 0 to |sessions|
      invariant AreNodesFor(byId, index)
      invariant forall id :: id in byId ==> fresh(byId[id])
      invariant IsPlaced(byId, index, sessions[..i], roots)
    {
      OneMoreSession(sessions, i);
      EverySessionIsIndexed(sessions, i);
      assert sessions[..i + 1] == sessions[..i] + [sessions[i]];
      var s := sessions[i];
      var parentId := ParentOf(s);
      var isRoot := true;
      if parentId.Some? && parentId.value in byId && byId[parentId.value] != byId[s.id] {
        isRoot := HasParentCycle(s.id, parentId.value, byId, index);
      }
      assert isRoot <==> !IsAttached(index, s);
      if isRoot {
        OneMoreRoot(byId, index, sessions[..i], s, roots);
        roots := roots + [byId[s.id]];
      } else {
        AddChild(byId, index, sessions[..i], s, roots);
      }
    }
    assert sessions[..|sessions|] == sessions;
    nodes := byId;
  }

  lemma OneMoreRoot(nodes: map<string, Node>, index: Index, before: seq<Session>, s: Session, roots: seq<Node>)
    requires IsPlaced(nodes, index, before, roots) && s.id in nodes && !IsAttached(index, s)
    ensures IsPlaced(nodes, index, before + [s], roots + [nodes[s.id]])
  {
    assert (before + [s])[..|before|] == before;
    assert RootIds(index, before + [s]) == RootIds(index, before) + [s.id];
    forall id | id in nodes ensures ChildIds(index, before + [s], id) == ChildIds(index, before, id) {
    }
  }

  lemma OneMoreChild(index: Index, before: seq<Session>, s: Session, parentId: string)
    requires IsAttached(index, s)
    ensures RootIds(index, before + [s]) == RootIds(index, before)
    ensures ChildIds(index, before + [s], parentId)
            == ChildIds(index, before, parentId) + if ParentOf(s).value == parentId then [s.id] else []
  {
    assert (before + [s])[..|before|] == before;
  }

  method AddChild(nodes: map<string, Node>, ghost index: Index, ghost before: seq<Session>, s: Session,
                  ghost roots: seq<Node>)
    requires AreNodesFor(nodes, index) && IsPlaced(nodes, index, before, roots)
    requires s.id in nodes && IsAttached(index, s)
    modifies nodes[ParentOf(s).value]
    ensures IsPlaced(nodes, index, before + [s], roots)
  {
    var parentId := ParentOf(s).value;
    var parent := nodes[parentId];
    ghost var was := parent.children;
    parent.children := parent.children + [nodes[s.id]];
    OneMoreChild(index, before, s, parentId);
    forall id | id in nodes ensures AreNodesOf(nodes[id].children, nodes, ChildIds(index, before + [s], id)) {
      OneMoreChild(index, before, s, id);
      if id == parentId {
        assert AreNodesOf(was, nodes, ChildIds(index, before, id));
      } else {
        assert nodes[id].session.id != parent.session.id;
        assert AreNodesOf(nodes[id].children, nodes, ChildIds(index, before, id));
      }
    }
  }

  // ---------- What the forest is like ----------

  ghost predicate UniqueIds(sessions: seq<Session>) {
    forall i, j :: 0 <= i < j < |sessions| ==> sessions[i].id != sessions[j].id
  }

  lemma {:induction false} UniqueSessionsIndexThemselves(sessions: seq<Session>, i: nat)
    requires UniqueIds(sessions) && i < |sessions|
    ensures sessions[i].id in IndexOf(sessions) && IndexOf(sessions)[sessions[i].id] == sessions[i]
  {
    EverySessionIsIndexed(sessions, i);
    if i < |sessions| - 1 {
      UniqueSessionsIndexThemselves(sessions[..|sessions| - 1], i);
    } else {
      OnlyGivenIdsAreIndexed(sessions[..i], sessions[i].id);
    }
  }

  lemma EndingChainIsAcyclic(index: Index, id: string)
    requires Up(index, id).Some? && Terminates(index, id)
    ensures IsAcyclicFrom(index, id, Up(index, id).value) && Up(index, id).value != id
  {
    var p := Up(index, id).value;
    TerminatesWithParent(index, id);
    assert Climb(index, id, 0) == Some(id);
    assert Climb(index, id, 1) == Some(p);
    var n: nat :| Climb(index, id, n) == None;
    forall m: nat ensures Climb(index, p, m) != Some(id) {
      ClimbFrom(index, id, 1, m);
      if Climb(index, p, m) == Some(id) {
        ReturningNeverEnds(index, id, 0, 1 + m, n);
      }
    }
    assert Climb(index, p, 0) == Some(p);
  }

  /** With unique ids, a session is attached exactly when it is a subagent, its parent is listed, and the chain of
      subagents and parents above it comes to an end. */
  lemma AttachedIff(sessions: seq<Session>, i: nat)
    requires UniqueIds(sessions) && i < |sessions|
    ensures var index, s := IndexOf(sessions), sessions[i];
            IsAttached(index, s)
            <==> && s.isSubagent && s.parentId.Some? && s.parentId.value != ""
                 && (exists j :: 0 <= j < |sessions| && sessions[j].id == s.parentId.value)
                 && exists chain :: IsChainToTheTop(index, s.id, chain)
    ensures var index, s := IndexOf(sessions), sessions[i];
            IsAttached(index, s) ==> ParentOf(s) == s.parentId
  {
    var index, s := IndexOf(sessions), sessions[i];
    UniqueSessionsIndexThemselves(sessions, i);
    TerminatesIff(index, s.id);
    if ParentOf(s).Some? {
      ListedIff(sessions, ParentOf(s).value);
      TerminatesWithParent(index, s.id);
      if Terminates(index, s.id) {
        EndingChainIsAcyclic(index, s.id);
      }
    }
  }

  lemma ListedIff(sessions: seq<Session>, id: string)
    ensures id in IndexOf(sessions) <==> exists j :: 0 <= j < |sessions| && sessions[j].id == id
  {
    if j :| 0 <= j < |sessions| && sessions[j].id == id {
      EverySessionIsIndexed(sessions, j);
    } else {
      OnlyGivenIdsAreIndexed(sessions, id);
    }
  }

  lemma {:induction false} RootsHoldUnattached(index: Index, sessions: seq<Session>, i: nat)
    requires UniqueIds(sessions) && i < |sessions|
    ensures multiset(RootIds(index, sessions))[sessions[i].id] == if IsAttached(index, sessions[i]) then 0 else 1
  {
    var before := sessions[..|sessions| - 1];
    if i < |before| {
      RootsHoldUnattached(index, before, i);
    } else {
      AbsentIsNotPlaced(index, before, sessions[i].id, "");
    }
  }

  lemma {:induction false} ChildrenHoldAttached(index: Index, sessions: seq<Session>, i: nat, parentId: string)
    requires UniqueIds(sessions) && i < |sessions|
    ensures multiset(ChildIds(index, sessions, parentId))[sessions[i].id]
            == if IsAttached(index, sessions[i]) && ParentOf(sessions[i]).value == parentId then 1 else 0
  {
    var before := sessions[..|sessions| - 1];
    if i < |before| {
      ChildrenHoldAttached(index, before, i, parentId);
    } else {
      AbsentIsNotPlaced(index, before, sessions[i].id, parentId);
    }
  }

  /** How often an id is placed: once as a root or once under its parent, and nowhere else. */
  lemma EverySessionIsPlacedOnce(index: Index, sessions: seq<Session>, i: nat, parentId: string)
    requires UniqueIds(sessions) && i < |sessions|
    ensures var s := sessions[i];
            && multiset(RootIds(index, sessions))[s.id] == (if IsAttached(index, s) then 0 else 1)
            && multiset(ChildIds(index, sessions, parentId))[s.id]
               == (if IsAttached(index, s) && ParentOf(s).value == parentId then 1 else 0)
  {
    RootsHoldUnattached(index, sessions, i);
    ChildrenHoldAttached(index, sessions, i, parentId);
  }

  function IdsOf(sessions: seq<Session>): (ids: seq<string>)
    ensures |ids| == |sessions| && forall i :: 0 <= i < |ids| ==> ids[i] == sessions[i].id
  {
    seq(|sessions|, i requires 0 <= i < |sessions| => sessions[i].id)
  }

  /** Roots, and the children of every session, stand in the order in which the sessions are given. */
  lemma {:induction false} TheForestKeepsTheOrder(index: Index, sessions: seq<Session>, parentId: string)
    ensures KeepsOrder(RootIds(index, sessions), IdsOf(sessions))
    ensures KeepsOrder(ChildIds(index, sessions, parentId), IdsOf(sessions))
  {
    if sessions == [] {
      assert AreFoundAt(RootIds(index, sessions), IdsOf(sessions), []);
      assert AreFoundAt(ChildIds(index, sessions, parentId), IdsOf(sessions), []);
    } else {
      var before, s := sessions[..|sessions| - 1], sessions[|sessions| - 1];
      TheForestKeepsTheOrder(index, before, parentId);
      OneMoreKeepsOrder(RootIds(index, before), IdsOf(before), s.id, !IsAttached(index, s));
      OneMoreKeepsOrder(ChildIds(index, before, parentId), IdsOf(before), s.id,
                        IsAttached(index, s) && ParentOf(s).value == parentId);
      assert IdsOf(sessions) == IdsOf(before) + [s.id];
    }
  }

  lemma {:induction false} AbsentIsNotPlaced(index: Index, sessions: seq<Session>, id: string, parentId: string)
    requires forall k :: 0 <= k < |sessions| ==> sessions[k].id != id
    ensures id !in RootIds(index, sessions) && id !in ChildIds(index, sessions, parentId)
  {
    if sessions != [] {
      AbsentIsNotPlaced(index, sessions[..|sessions| - 1], id, parentId);
    }
  }

  /** The `k`th ancestor of a listed session is attached in its turn. */
  ghost predicate IsAttachedAt(index: Index, id: string, k: nat) {
    && Climb(index, id, k).Some?
    && Climb(index, id, k).value in index
    && IsAttached(index, index[Climb(index, id, k).value])
  }

  /** Going up from any session along the forest's links ends at a root. */
  lemma {:induction false} RootAbove(index: Index, id: string, n: nat) returns (k: nat)
    requires id in index && index[id].id == id
    requires forall x :: x in index ==> index[x].id == x
    requires IsAttached(index, index[id]) ==> Climb(index, id, n) == None
    ensures Climb(index, id, k).Some? && Climb(index, id, k).value in index && !IsAttachedAt(index, id, k)
    ensures forall j: nat :: j < k ==> IsAttachedAt(index, id, j)
    decreases n
  {
    assert Climb(index, id, 0) == Some(id);
    if !IsAttached(index, index[id]) {
      k := 0;
    } else {
      var p := ParentOf(index[id]).value;
      assert Climb(index, id, 1) == Some(p);
      assert n > 1;
      ClimbFrom(index, id, 1, n - 1);
      var above := RootAbove(index, p, n - 1);
      k := above + 1;
      ClimbFrom(index, id, 1, above);
      forall j: nat | j < k ensures IsAttachedAt(index, id, j) {
        if j > 0 {
          ClimbFrom(index, id, 1, j - 1);
          assert IsAttachedAt(index, p, j - 1);
        }
      }
    }
  }

  /** Every session hangs from exactly one root: no session is hidden, however its parents are given. */
  lemma EverySessionHangsFromARoot(sessions: seq<Session>, id: string) returns (k: nat)
    requires id in IndexOf(sessions)
    ensures var index := IndexOf(sessions);
            && Climb(index, id, k).Some? && Climb(index, id, k).value in index && !IsAttachedAt(index, id, k)
            && forall j: nat :: j < k ==> IsAttachedAt(index, id, j)
  {
    var index := IndexOf(sessions);
    if IsAttached(index, index[id]) {
      assert Climb(index, id, 0) == Some(id);
      TerminatesWithParent(index, id);
      var n: nat :| Climb(index, id, n) == None;
      k := RootAbove(index, id, n);
    } else {
      k := RootAbove(index, id, 0);
    }
  }

  /** The forest's links never lead back. */
  lemma LinksAreAcyclic(index: Index, id: string, k: nat)
    requires id in index && index[id].id == id && k > 0
    requires forall j: nat :: j < k ==> IsAttachedAt(index, id, j)
    ensures Climb(index, id, k) != Some(id)
  {
    assert Climb(index, id, 0) == Some(id);
    assert IsAttachedAt(index, id, 0);
    TerminatesWithParent(index, id);
    var n: nat :| Climb(index, id, n) == None;
    if Climb(index, id, k) == Some(id) {
      ReturningNeverEnds(index, id, 0, k, n);
    }
  }
}
